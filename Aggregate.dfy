/** `collapse_list_of_lists`: the step that turns the per-query batches of
    formatted summaries into the single context string the report prompt reads. */
module Aggregate {
  import opened Text

  /** The separator put both between the summaries of one batch and between batches: one blank line. */
  const BlankLine: string := "\n\n"

  /** Each batch joined on its own, in batch order. */
  function JoinedBatches(batches: seq<seq<string>>): seq<string>
  {
    seq(|batches|, i requires 0 <= i < |batches| => Join(BlankLine, batches[i]))
  }

  /** What `collapse_list_of_lists` returns: the joined batches joined once more. */
  function Collapse(batches: seq<seq<string>>): string
  {
    Join(BlankLine, JoinedBatches(batches))
  }

  /** The source's loop: append each joined batch to `content`, then join `content`. */
  method CollapseListOfLists(listOfLists: seq<seq<string>>) returns (joined: string)
    ensures joined == Collapse(listOfLists)
  {
    var content: seq<string> := [];
    for i := 0 to |listOfLists|
      invariant content == JoinedBatches(listOfLists[..i])
    {
      content := content + [Join(BlankLine, listOfLists[i])];
    }
    assert listOfLists[..|listOfLists|] == listOfLists;
    joined := Join(BlankLine, content);
  }

  /** No batches give the empty string; one batch of one summary gives that summary unchanged. */
  lemma CollapseBaseCases(s: string)
    ensures Collapse([]) == ""
    ensures Collapse([[s]]) == s
  {
  }

  /** Batch order is kept: collapsing two runs of batches is collapsing each, one blank line between. */
  lemma CollapseAppend(front: seq<seq<string>>, back: seq<seq<string>>)
    requires |front| > 0 && |back| > 0
    ensures Collapse(front + back) == Collapse(front) + BlankLine + Collapse(back)
  {
    assert JoinedBatches(front + back) == JoinedBatches(front) + JoinedBatches(back);
    JoinAppend(BlankLine, JoinedBatches(front), JoinedBatches(back));
  }

  /** An empty batch is not skipped: it adds an empty segment, so two blank lines in a row. */
  lemma CollapseKeepsEmptyBatch(front: seq<seq<string>>, back: seq<seq<string>>)
    requires |front| > 0 && |back| > 0
    ensures Collapse(front + [[]] + back) == Collapse(front) + BlankLine + BlankLine + Collapse(back)
  {
    CollapseAppend(front, [[]] + back);
    CollapseAppend([[]], back);
    assert JoinedBatches([[]]) == [""];
    assert front + [[]] + back == front + ([[]] + back);
  }

  /** An empty first batch is not skipped either: the result starts with a blank line. */
  lemma CollapseLeadingEmptyBatch(back: seq<seq<string>>)
    requires |back| > 0
    ensures Collapse([[]] + back) == BlankLine + Collapse(back)
  {
    CollapseAppend([[]], back);
    assert JoinedBatches([[]]) == [""];
  }

  /** Nor is an empty last batch: the result ends with a blank line. */
  lemma CollapseTrailingEmptyBatch(front: seq<seq<string>>)
    requires |front| > 0
    ensures Collapse(front + [[]]) == Collapse(front) + BlankLine
  {
    CollapseAppend(front, [[]]);
    assert JoinedBatches([[]]) == [""];
  }

  /** The batches [["a"], [], ["b"]] collapse to "a", four newlines, "b" -- not the
      "a", blank line, "b" of joining all summaries with one blank line. */
  lemma CollapseEmptyBatchExample()
    ensures Collapse([["a"], [], ["b"]]) == "a\n\n\n\nb"
    ensures Join(BlankLine, Flatten([["a"], [], ["b"]])) == "a\n\nb"
  {
  }

  /** When no batch is empty, collapsing is the same as joining every summary of
      every batch, in batch order then in-batch order, with one blank line between. */
  lemma {:induction false} CollapseIsFlatJoin(batches: seq<seq<string>>)
    requires forall i :: 0 <= i < |batches| ==> |batches[i]| > 0
    ensures Collapse(batches) == Join(BlankLine, Flatten(batches))
  {
    if |batches| == 0 {
    } else if |batches| == 1 {
      assert JoinedBatches(batches) == [Join(BlankLine, batches[0])];
      assert Flatten(batches) == batches[0] + Flatten(batches[1..]);
      assert batches[0] + [] == batches[0];
    } else {
      var first, rest := batches[..1], batches[1..];
      assert batches == first + rest;
      CollapseAppend(first, rest);
      CollapseIsFlatJoin(first);
      CollapseIsFlatJoin(rest);
      assert Flatten(first) == batches[0] + Flatten(first[1..]);
      assert first[1..] == [];
      assert Flatten(first) == batches[0];
      assert Flatten(rest) == rest[0] + Flatten(rest[1..]);
      JoinAppend(BlankLine, batches[0], Flatten(rest));
    }
  }

  /** Each batch's joined text sits at its place in the collapsed string, in batch
      order, so the batch a summary came from can be read off its position. */
  lemma CollapseBatchAt(batches: seq<seq<string>>, i: nat)
    requires i < |batches|
    ensures var o := Offset(BlankLine, JoinedBatches(batches), i);
            o + |Join(BlankLine, batches[i])| <= |Collapse(batches)| &&
            Collapse(batches)[o..o + |Join(BlankLine, batches[i])|] == Join(BlankLine, batches[i])
  {
    JoinPartAt(BlankLine, JoinedBatches(batches), i);
  }
}
