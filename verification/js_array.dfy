/** The few `Array.prototype` operations the application relies on, with the
    JavaScript semantics it depends on: `find` returns the FIRST match,
    `filter` keeps order, indexing outside the array yields `undefined`. */
module JsArray {
  import opened Base

  /** The index of the first element satisfying `p` (`findIndex`, with -1 as `None`). */
  function FindIndex<T>(xs: seq<T>, p: T -> bool): (r: Option<nat>)
    ensures r.Some? ==> r.value < |xs| && p(xs[r.value])
    ensures r.Some? ==> forall j :: 0 <= j < r.value ==> !p(xs[j])
    ensures r.None? ==> forall j :: 0 <= j < |xs| ==> !p(xs[j])
  {
    if |xs| == 0 then None
    else if p(xs[0]) then Some(0)
    else match FindIndex(xs[1..], p)
      case None => None
      case Some(k) =>
        assert forall j :: 1 <= j < k + 1 ==> xs[j] == xs[1..][j - 1];
        Some(k + 1)
  }

  /** `xs.find(p)`: the first element satisfying `p`, or `undefined`. */
  function Find<T>(xs: seq<T>, p: T -> bool): (r: Option<T>)
    ensures r.None? <==> forall j :: 0 <= j < |xs| ==> !p(xs[j])
    ensures r.Some? ==> exists k :: 0 <= k < |xs| && xs[k] == r.value && p(xs[k])
                                    && forall j :: 0 <= j < k ==> !p(xs[j])
  {
    match FindIndex(xs, p)
    case None => None
    case Some(k) => Some(xs[k])
  }

  /** If the first match sits at index `k`, `find` returns exactly `xs[k]`. */
  lemma FindIsFirstMatch<T>(xs: seq<T>, p: T -> bool, k: nat)
    requires k < |xs| && p(xs[k])
    requires forall j :: 0 <= j < k ==> !p(xs[j])
    ensures Find(xs, p) == Some(xs[k])
  {
  }

  /** `xs.filter(p)`: the elements satisfying `p`, in their original order. */
  function Filter<T>(xs: seq<T>, p: T -> bool): (r: seq<T>)
    ensures |r| <= |xs|
    ensures forall k :: 0 <= k < |r| ==> r[k] in xs && p(r[k])
    ensures forall k :: 0 <= k < |xs| && p(xs[k]) ==> xs[k] in r
  {
    if |xs| == 0 then []
    else
      assert xs == [xs[0]] + xs[1..];
      (if p(xs[0]) then [xs[0]] else []) + Filter(xs[1..], p)
  }

  /** Filtering distributes over concatenation: relative order is kept. */
  lemma {:induction false} FilterConcat<T>(a: seq<T>, b: seq<T>, p: T -> bool)
    ensures Filter(a + b, p) == Filter(a, p) + Filter(b, p)
  {
    if |a| == 0 {
      assert a + b == b;
    } else {
      assert (a + b)[0] == a[0];
      assert (a + b)[1..] == a[1..] + b;
      FilterConcat(a[1..], b, p);
    }
  }

  /** Filtering keeps everything when every element passes. */
  lemma {:induction false} FilterAllPass<T>(xs: seq<T>, p: T -> bool)
    requires forall j :: 0 <= j < |xs| ==> p(xs[j])
    ensures Filter(xs, p) == xs
  {
    if |xs| > 0 {
      FilterAllPass(xs[1..], p);
    }
  }

  /** `xs.filter(Boolean)` on a list of possibly-undefined objects: the
      present values, unwrapped, in order. */
  function Compact<T>(xs: seq<Option<T>>): (r: seq<T>)
    ensures |r| <= |xs|
    ensures forall k :: 0 <= k < |r| ==> Some(r[k]) in xs
    ensures forall k :: 0 <= k < |xs| && xs[k].Some? ==> xs[k].value in r
  {
    if |xs| == 0 then []
    else
      assert xs == [xs[0]] + xs[1..];
      (if xs[0].Some? then [xs[0].value] else []) + Compact(xs[1..])
  }

  /** `Compact` distributes over concatenation. */
  lemma {:induction false} CompactConcat<T>(a: seq<Option<T>>, b: seq<Option<T>>)
    ensures Compact(a + b) == Compact(a) + Compact(b)
  {
    if |a| == 0 {
      assert a + b == b;
    } else {
      assert (a + b)[0] == a[0];
      assert (a + b)[1..] == a[1..] + b;
      CompactConcat(a[1..], b);
    }
  }

  /** `Compact` drops nothing when every entry is present. */
  lemma {:induction false} CompactAllPresent<T>(xs: seq<Option<T>>)
    requires forall j :: 0 <= j < |xs| ==> xs[j].Some?
    ensures |Compact(xs)| == |xs|
    ensures forall j :: 0 <= j < |xs| ==> Compact(xs)[j] == xs[j].value
  {
    if |xs| > 0 {
      CompactAllPresent(xs[1..]);
    }
  }

  /** `xs[i]` in JavaScript: `undefined` outside `0 <= i < xs.length`. */
  function At<T>(xs: seq<T>, i: int): (r: Option<T>)
    ensures r.Some? <==> 0 <= i < |xs|
  {
    if 0 <= i < |xs| then Some(xs[i]) else None
  }

  /** The index of the last occurrence of `c` in `s` (`lastIndexOf`). */
  function LastIndexOf<T(==)>(s: seq<T>, c: T): (r: Option<nat>)
    ensures r.Some? ==> r.value < |s| && s[r.value] == c
    ensures r.Some? ==> forall j :: r.value < j < |s| ==> s[j] != c
    ensures r.None? <==> c !in s
  {
    if |s| == 0 then None
    else if s[|s| - 1] == c then Some(|s| - 1)
    else
      assert s == s[..|s| - 1] + [s[|s| - 1]];
      LastIndexOf(s[..|s| - 1], c)
  }

  /** The last occurrence is unique: an index holding `c` with no `c` after it is it. */
  lemma LastIndexOfIs<T>(s: seq<T>, c: T, k: nat)
    requires k < |s| && s[k] == c
    requires forall j :: k < j < |s| ==> s[j] != c
    ensures LastIndexOf(s, c) == Some(k)
  {
    assert c in s;
  }
}
