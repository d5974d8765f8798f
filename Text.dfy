/** Python's `str.join` and the sequence functions the aggregation is stated with. */
module Text {

  /** The sum of the lengths of the parts. */
  function TotalLength<T>(parts: seq<seq<T>>): nat
  {
    if |parts| == 0 then 0 else |parts[0]| + TotalLength(parts[1..])
  }

  /** The parts concatenated in order with nothing between them. */
  function Flatten<T>(parts: seq<seq<T>>): (r: seq<T>)
    ensures |r| == TotalLength(parts)
  {
    if |parts| == 0 then [] else parts[0] + Flatten(parts[1..])
  }

  /** `sep.join(parts)`: the parts in order, `sep` between each neighbouring pair,
      nothing before the first or after the last. */
  function Join(sep: string, parts: seq<string>): (r: string)
    ensures |parts| == 0 ==> r == ""
    ensures |parts| > 0 ==> |r| == TotalLength(parts) + (|parts| - 1) * |sep|
  {
    if |parts| == 0 then ""
    else if |parts| == 1 then parts[0]
    else parts[0] + sep + Join(sep, parts[1..])
  }

  /** Where part `k` starts in `Join(sep, parts)`: after the `k` earlier parts and their `k` separators. */
  function Offset(sep: string, parts: seq<string>, k: nat): nat
    requires k <= |parts|
  {
    TotalLength(parts[..k]) + k * |sep|
  }

  lemma SliceAfterPrefix<T>(a: seq<T>, b: seq<T>, i: nat, j: nat)
    requires i <= j <= |b|
    ensures (a + b)[|a| + i..|a| + j] == b[i..j]
  {
  }

  /** Peeling off the first part moves every later offset back by that part and one separator. */
  lemma OffsetAfterFirst(sep: string, parts: seq<string>, k: nat)
    requires 0 < k <= |parts|
    ensures Offset(sep, parts, k) == |parts[0]| + |sep| + Offset(sep, parts[1..], k - 1)
  {
    assert parts[..k][1..] == parts[1..][..k - 1];
  }

  /** Every part of a join sits at its offset, in the order of the parts. */
  lemma {:induction false} JoinPartAt(sep: string, parts: seq<string>, k: nat)
    requires k < |parts|
    ensures Offset(sep, parts, k) + |parts[k]| <= |Join(sep, parts)|
    ensures Join(sep, parts)[Offset(sep, parts, k)..Offset(sep, parts, k) + |parts[k]|] == parts[k]
  {
    if k == 0 {
      assert parts[..0] == [];
    } else {
      var rest := parts[1..];
      var a := parts[0] + sep;
      OffsetAfterFirst(sep, parts, k);
      JoinPartAt(sep, rest, k - 1);
      var o := Offset(sep, rest, k - 1);
      SliceAfterPrefix(a, Join(sep, rest), o, o + |parts[k]|);
    }
  }

  /** Right after every part but the last comes exactly one separator. */
  lemma {:induction false} JoinSeparatorAt(sep: string, parts: seq<string>, k: nat)
    requires k + 1 < |parts|
    ensures Offset(sep, parts, k) + |parts[k]| + |sep| <= |Join(sep, parts)|
    ensures Join(sep, parts)[Offset(sep, parts, k) + |parts[k]|..Offset(sep, parts, k) + |parts[k]| + |sep|] == sep
  {
    if k == 0 {
      assert parts[..0] == [];
      var j := Join(sep, parts);
      assert j == parts[0] + sep + Join(sep, parts[1..]);
      assert j[|parts[0]|..|parts[0]| + |sep|] == sep;
    } else {
      var rest := parts[1..];
      var a := parts[0] + sep;
      OffsetAfterFirst(sep, parts, k);
      JoinSeparatorAt(sep, rest, k - 1);
      var o := Offset(sep, rest, k - 1) + |parts[k]|;
      SliceAfterPrefix(a, Join(sep, rest), o, o + |sep|);
    }
  }

  /** Joining two non-empty lists of parts is joining each and putting one separator between. */
  lemma {:induction false} JoinAppend(sep: string, xs: seq<string>, ys: seq<string>)
    requires |xs| > 0 && |ys| > 0
    ensures Join(sep, xs + ys) == Join(sep, xs) + sep + Join(sep, ys)
  {
    if |xs| == 1 {
      assert xs + ys == [xs[0]] + ys;
    } else {
      assert (xs + ys)[1..] == xs[1..] + ys;
      JoinAppend(sep, xs[1..], ys);
    }
  }
}
