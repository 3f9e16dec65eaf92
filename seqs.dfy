/** The array combinators the store is written with (`filter`, `map` with a
    conditional merge, `findIndex`/`find`), as functions over sequences. */
module Seqs {
  import opened Wrappers

  /** `s.filter(keep)`: the elements satisfying `keep`, in their original order. */
  function Filter<T(!new)>(s: seq<T>, keep: T -> bool): (r: seq<T>)
    ensures |r| <= |s|
    ensures forall x :: x in r <==> x in s && keep(x)
  {
    if s == [] then []
    else
      var rest := Filter(s[1..], keep);
      assert forall x :: x in s <==> x == s[0] || x in s[1..];
      if keep(s[0]) then [s[0]] + rest else rest
  }

  /** Filtering distributes over concatenation: the kept elements of the first
      part come first, each part keeping its own order. */
  lemma {:induction false} FilterAppend<T(!new)>(a: seq<T>, b: seq<T>, keep: T -> bool)
    ensures Filter(a + b, keep) == Filter(a, keep) + Filter(b, keep)
  {
    if a == [] {
      assert a + b == b;
    } else {
      assert (a + b)[0] == a[0];
      assert (a + b)[1..] == a[1..] + b;
      FilterAppend(a[1..], b, keep);
    }
  }

  /** Filtering with a predicate every element satisfies returns the sequence itself. */
  lemma {:induction false} FilterKeepsAll<T(!new)>(s: seq<T>, keep: T -> bool)
    requires forall x :: x in s ==> keep(x)
    ensures Filter(s, keep) == s
  {
    if s != [] {
      assert s[0] in s;
      forall x | x in s[1..] ensures keep(x) { assert x in s; }
      FilterKeepsAll(s[1..], keep);
      assert s == [s[0]] + s[1..];
    }
  }

  /** `s.map(x => hit(x) ? update(x) : x)`: same length, same order, and only
      the elements satisfying `hit` are replaced. */
  function UpdateWhere<T>(s: seq<T>, hit: T -> bool, update: T -> T): (r: seq<T>)
    ensures |r| == |s|
    ensures forall i :: 0 <= i < |s| && !hit(s[i]) ==> r[i] == s[i]
    ensures forall i :: 0 <= i < |s| && hit(s[i]) ==> r[i] == update(s[i])
  {
    if s == [] then []
    else [if hit(s[0]) then update(s[0]) else s[0]] + UpdateWhere(s[1..], hit, update)
  }

  /** An update that matches no element leaves the sequence as it was. */
  lemma UpdateWhereNoHit<T(!new)>(s: seq<T>, hit: T -> bool, update: T -> T)
    requires forall x :: x in s ==> !hit(x)
    ensures UpdateWhere(s, hit, update) == s
  {
    var r := UpdateWhere(s, hit, update);
    forall i | 0 <= i < |s| ensures r[i] == s[i] { assert s[i] in s; }
  }

  /** `s.findIndex(p)`, with `|s|` in place of `-1`: the position of the first
      element satisfying `p`. */
  function FindIndex<T>(s: seq<T>, p: T -> bool): (k: nat)
    ensures k <= |s|
    ensures k < |s| ==> p(s[k])
    ensures forall j :: 0 <= j < k ==> !p(s[j])
  {
    if s == [] then 0
    else if p(s[0]) then 0
    else 1 + FindIndex(s[1..], p)
  }

  /** `s.find(p)`: the first element satisfying `p`, or `None` when there is none. */
  function Find<T(!new)>(s: seq<T>, p: T -> bool): (r: Option<T>)
    ensures r.None? <==> forall x :: x in s ==> !p(x)
    ensures r.Some? ==> r.value in s && p(r.value)
  {
    var k := FindIndex(s, p);
    if k < |s| then Some(s[k]) else None
  }

  /** A match in the first part is found before anything appended after it. */
  lemma {:induction false} FindIndexAppend<T>(a: seq<T>, b: seq<T>, p: T -> bool)
    requires FindIndex(a, p) < |a|
    ensures FindIndex(a + b, p) == FindIndex(a, p)
  {
    if !p(a[0]) {
      assert (a + b)[1..] == a[1..] + b;
      FindIndexAppend(a[1..], b, p);
    }
  }
}
