/**
 * Sequence helpers shared by the components: `Array.prototype.filter`,
 * `findIndex` and `find`, and string concatenation of streamed fragments.
 */
module Seqs {
  import opened Wrappers

  /** `s.filter(keep)`: the elements of `s` that satisfy `keep`, in their original order. */
  function Filter<T>(s: seq<T>, keep: T -> bool): (r: seq<T>)
    ensures |r| <= |s|
    ensures forall i :: 0 <= i < |r| ==> r[i] in s && keep(r[i])
    ensures forall i :: 0 <= i < |s| && keep(s[i]) ==> s[i] in r
  {
    if s == [] then []
    else (if keep(s[0]) then [s[0]] else []) + Filter(s[1..], keep)
  }

  /** Filtering distributes over concatenation, so it never reorders what it keeps. */
  lemma {:induction false} FilterAppend<T>(a: seq<T>, b: seq<T>, keep: T -> bool)
    ensures Filter(a + b, keep) == Filter(a, keep) + Filter(b, keep)
  {
    if a == [] {
      assert a + b == b;
    } else {
      assert (a + b)[0] == a[0];
      assert (a + b)[1..] == a[1..] + b;
      FilterAppend(a[1..], b, keep);
    }
  }

  /** A filter that keeps every element returns the list itself. */
  lemma {:induction false} FilterKeepsAll<T>(s: seq<T>, keep: T -> bool)
    requires forall i :: 0 <= i < |s| ==> keep(s[i])
    ensures Filter(s, keep) == s
  {
    if s != [] {
      FilterKeepsAll(s[1..], keep);
    }
  }

  /** `s.findIndex(p)`: the first index whose element satisfies `p`, or -1 when none does. */
  function FindIndex<T>(s: seq<T>, p: T -> bool): (k: int)
    ensures -1 <= k < |s|
    ensures k >= 0 ==> p(s[k]) && forall j :: 0 <= j < k ==> !p(s[j])
    ensures k == -1 <==> forall j :: 0 <= j < |s| ==> !p(s[j])
  {
    if s == [] then -1
    else if p(s[0]) then 0
    else
      var k := FindIndex(s[1..], p);
      if k == -1 then -1 else k + 1
  }

  /** `s.find(p)`: the first element that satisfies `p`, or nothing. */
  function Find<T>(s: seq<T>, p: T -> bool): (r: Option<T>)
    ensures r.None? <==> forall j :: 0 <= j < |s| ==> !p(s[j])
    ensures r.Some? ==> exists k :: 0 <= k < |s| && s[k] == r.value && p(s[k]) && forall j :: 0 <= j < k ==> !p(s[j])
  {
    var k := FindIndex(s, p);
    if k == -1 then None else Some(s[k])
  }

  /** The concatenation of streamed text fragments, in delivery order. */
  function Concat(parts: seq<string>): (r: string)
    ensures parts == [] ==> r == ""
    ensures |parts| == 1 ==> r == parts[0]
  {
    if parts == [] then "" else Concat(parts[..|parts| - 1]) + parts[|parts| - 1]
  }

  lemma ConcatSnoc(parts: seq<string>, i: nat)
    requires i < |parts|
    ensures Concat(parts[..i + 1]) == Concat(parts[..i]) + parts[i]
  {
    assert parts[..i + 1][..i] == parts[..i];
  }
}
