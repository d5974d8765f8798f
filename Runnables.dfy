/** The LangChain building blocks the pipeline is composed from, over the values
    that flow between its stages: `RunnablePassthrough.assign`, `.map()` and the
    slot check of a prompt template. */
module Runnables {
  import opened Results

  /** An arXiv search hit as the retriever returns it: the abstract and a metadata dict. */
  datatype Doc = Doc(pageContent: string, metadata: map<string, string>)

  /** A value stored in one of the pipeline's dicts. */
  datatype Value = Text(text: string) | DocValue(doc: Doc) | DocList(docs: seq<Doc>)

  /** A Python dict passed from stage to stage. */
  type Record = map<string, Value>

  /** `RunnablePassthrough.assign(key=stage)`: run `stage` on the input dict and
      return the input with `key` set to the stage's output; a failing stage fails the whole step. */
  function Assign(key: string, stage: Record -> Result<Value>, x: Record): (r: Result<Record>)
    ensures r.Ok? <==> stage(x).Ok?
    ensures r.Err? ==> r.error == stage(x).error
    ensures r.Ok? ==> r.value.Keys == x.Keys + {key} && r.value[key] == stage(x).value
    ensures r.Ok? ==> forall k :: k in x && k != key ==> k in r.value && r.value[k] == x[k]
  {
    var v :- stage(x);
    Ok(x[key := v])
  }

  /** `stage.map()`: apply `stage` to every element and collect the outputs in
      input order. Nothing is caught: if any element fails the whole step fails,
      with the error of the first failing element in input order. */
  function MapEach<A, B>(stage: A -> Result<B>, xs: seq<A>): (r: Result<seq<B>>)
    ensures r.Ok? <==> forall i :: 0 <= i < |xs| ==> stage(xs[i]).Ok?
    ensures r.Ok? ==> |r.value| == |xs| && forall i :: 0 <= i < |xs| ==> r.value[i] == stage(xs[i]).value
    ensures r.Err? ==> exists i :: 0 <= i < |xs| && stage(xs[i]).Err? && stage(xs[i]).error == r.error &&
                                   forall j :: 0 <= j < i ==> stage(xs[j]).Ok?
  {
    if |xs| == 0 then Ok([])
    else
      var y :- stage(xs[0]);
      var ys :- MapEach(stage, xs[1..]);
      assert forall i :: 1 <= i < |xs| ==> xs[i] == xs[1..][i - 1];
      Ok([y] + ys)
  }

  /** A prompt template invoked on dict `x`: the values of its slots in slot order,
      or, when some slot has no key in `x`, the set of every missing slot. */
  function FillSlots(slots: seq<string>, x: Record): (r: Result<seq<Value>>)
    ensures r.Ok? <==> forall i :: 0 <= i < |slots| ==> slots[i] in x
    ensures r.Ok? ==> |r.value| == |slots| && forall i :: 0 <= i < |slots| ==> r.value[i] == x[slots[i]]
    ensures r.Err? ==> r.error.MissingVariables? && r.error.names != {} &&
                       forall s :: s in r.error.names <==> s in slots && s !in x
  {
    if forall i :: 0 <= i < |slots| ==> slots[i] in x then
      Ok(seq(|slots|, i requires 0 <= i < |slots| => x[slots[i]]))
    else
      var k :| 0 <= k < |slots| && slots[k] !in x;
      var missing := set s | s in slots && s !in x;
      assert slots[k] in missing;
      Err(MissingVariables(missing))
  }
}
