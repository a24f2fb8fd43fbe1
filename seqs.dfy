/** Sequence helpers standing for Python list idioms: slicing a prefix,
    `list(set(xs))`, `extend` over several lists, counting. */
module Seqs {

  function Min(a: int, b: int): int { if a <= b then a else b }

  function Max(a: int, b: int): int { if a >= b then a else b }

  predicate Distinct<T(==)>(s: seq<T>) {
    forall i, j :: 0 <= i < j < |s| ==> s[i] != s[j]
  }

  /** Appending an element not yet present keeps a sequence distinct. */
  lemma DistinctSnoc<T>(s: seq<T>, x: T)
    requires Distinct(s) && x !in s
    ensures Distinct(s + [x])
  { }

  /** Python's `xs[:n]` for `n >= 0`. */
  function Take<T>(s: seq<T>, n: nat): (r: seq<T>)
    ensures |r| == Min(n, |s|) && r == s[..|r|]
  {
    if n <= |s| then s[..n] else s
  }

  /** Python's `xs[n:]` for `n >= 0`. */
  function Drop<T>(s: seq<T>, n: nat): (r: seq<T>)
    ensures r == if n <= |s| then s[n..] else []
  {
    if n <= |s| then s[n..] else []
  }

  /** The distinct elements of `s`, each at its first position. Python's
      `list(set(xs))` has an unspecified order; this is one of its orders. */
  function Dedup<T(==)>(s: seq<T>): (r: seq<T>)
    ensures Distinct(r)
    ensures forall i :: 0 <= i < |r| ==> r[i] in s
    ensures forall i :: 0 <= i < |s| ==> s[i] in r
    ensures |r| <= |s|
  {
    if |s| == 0 then []
    else
      var rest := Dedup(s[..|s| - 1]);
      if s[|s| - 1] in rest then rest else rest + [s[|s| - 1]]
  }

  /** Python's `list(set(xs))[:n]`. */
  function DistinctCapped<T(==)>(s: seq<T>, n: nat): (r: seq<T>)
    ensures Distinct(r)
    ensures forall i :: 0 <= i < |r| ==> r[i] in s
    ensures |r| == Min(n, |Dedup(s)|)
    ensures |Dedup(s)| <= n ==> forall i :: 0 <= i < |s| ==> s[i] in r
  {
    Take(Dedup(s), n)
  }

  /** The concatenation of `ss`, as successive `extend` calls build it. */
  function Flatten<T>(ss: seq<seq<T>>): seq<T> {
    if |ss| == 0 then [] else Flatten(ss[..|ss| - 1]) + ss[|ss| - 1]
  }

  /** How many elements of `s` satisfy `p`. */
  function CountWhere<T>(s: seq<T>, p: T -> bool): (n: nat)
    ensures n <= |s|
  {
    if |s| == 0 then 0 else CountWhere(s[..|s| - 1], p) + (if p(s[|s| - 1]) then 1 else 0)
  }

  /** The elements of `s` that satisfy `p`, in order. */
  function Filter<T>(s: seq<T>, p: T -> bool): (r: seq<T>)
    ensures |r| <= |s|
    ensures forall i :: 0 <= i < |r| ==> r[i] in s && p(r[i])
  {
    if |s| == 0 then [] else Filter(s[..|s| - 1], p) + (if p(s[|s| - 1]) then [s[|s| - 1]] else [])
  }

  lemma {:induction false} FilterCount<T>(s: seq<T>, p: T -> bool)
    ensures |Filter(s, p)| == CountWhere(s, p)
  {
    if |s| > 0 { FilterCount(s[..|s| - 1], p); }
  }

  lemma {:induction false} FilterAll<T>(s: seq<T>, p: T -> bool)
    requires forall i :: 0 <= i < |s| ==> p(s[i])
    ensures Filter(s, p) == s
  {
    if |s| > 0 {
      assert s[..|s| - 1] + [s[|s| - 1]] == s;
      FilterAll(s[..|s| - 1], p);
    }
  }

  lemma {:induction false} FilterNone<T>(s: seq<T>, p: T -> bool)
    requires forall i :: 0 <= i < |s| ==> !p(s[i])
    ensures Filter(s, p) == []
  {
    if |s| > 0 { FilterNone(s[..|s| - 1], p); }
  }

  lemma {:induction false} FilterAppend<T>(a: seq<T>, b: seq<T>, p: T -> bool)
    ensures Filter(a + b, p) == Filter(a, p) + Filter(b, p)
    decreases |b|
  {
    if |b| == 0 {
      assert a + b == a;
    } else {
      assert (a + b)[..|a + b| - 1] == a + b[..|b| - 1];
      FilterAppend(a, b[..|b| - 1], p);
    }
  }

  lemma {:induction false} CountWhereAppend<T>(a: seq<T>, b: seq<T>, p: T -> bool)
    ensures CountWhere(a + b, p) == CountWhere(a, p) + CountWhere(b, p)
  {
    FilterAppend(a, b, p);
    FilterCount(a + b, p);
    FilterCount(a, p);
    FilterCount(b, p);
  }

  /** Dropping from a sequence with an element in front. */
  lemma ConsDrop<T>(h: T, t: seq<T>, k: nat)
    requires 0 < k <= |t| + 1
    ensures ([h] + t)[k..] == t[k - 1..]
    ensures k <= |t| ==> ([h] + t)[k] == t[k - 1]
  {
  }

  /** A suffix of a slice is a slice. */
  lemma DropConcat<T>(a: seq<T>, b: seq<T>, n: nat)
    requires n <= |a|
    ensures (a + b)[n..] == a[n..] + b
  { }

  lemma DropDrop<T>(t: seq<T>, n: nat, o: nat)
    requires n + o <= |t|
    ensures t[n..][o..] == t[n + o..]
  { }

  lemma SliceJoin<T>(t: seq<T>, s: nat, e: nat)
    requires s <= e <= |t|
    ensures t[s..e] + t[e..] == t[s..]
  { }

  /** The last `n + 1` elements are the last `n` of the front followed by the last one. */
  lemma SnocTail<T>(s: seq<T>, n: nat)
    requires n < |s|
    ensures s[|s| - n - 1..] == s[..|s| - 1][|s| - 1 - n..] + [s[|s| - 1]]
  { }

  lemma SliceSuffix<T>(t: seq<T>, s: nat, n: nat, e: nat)
    requires s <= n <= e <= |t|
    ensures t[s..e][n - s..] == t[n..e]
  {
  }
}
