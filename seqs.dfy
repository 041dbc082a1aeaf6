/**
 * Sequence operations the source uses through `Array.prototype.filter`,
 * `reduce`, `slice` and batched loops, with the facts the other modules need.
 */
module Seqs {

  /** `s.filter(p)`: the elements of `s` satisfying `p`, in their original order. */
  function Filter<T>(s: seq<T>, p: T -> bool): (r: seq<T>)
    ensures |r| <= |s|
    ensures forall k :: 0 <= k < |r| ==> p(r[k])
  {
    if s == [] then []
    else (if p(s[0]) then [s[0]] else []) + Filter(s[1..], p)
  }

  /** The filter keeps exactly the elements satisfying `p`: nothing else, and none of them is lost. */
  lemma {:induction false} FilterMembers<T>(s: seq<T>, p: T -> bool)
    ensures forall k :: 0 <= k < |Filter(s, p)| ==> Filter(s, p)[k] in s
    ensures forall k :: 0 <= k < |s| && p(s[k]) ==> s[k] in Filter(s, p)
  {
    if s != [] {
      FilterMembers(s[1..], p);
      var r := Filter(s, p);
      var head := if p(s[0]) then [s[0]] else [];
      assert r == head + Filter(s[1..], p);
      forall k | 0 <= k < |s| && p(s[k])
        ensures s[k] in r
      {
        if k > 0 { assert s[k] == s[1..][k - 1]; }
      }
    }
  }

  /** Filtering a sequence with a known first element. */
  lemma FilterCons<T>(x: T, t: seq<T>, p: T -> bool)
    ensures Filter([x] + t, p) == (if p(x) then [x] else []) + Filter(t, p)
  {
    assert ([x] + t)[1..] == t;
  }

  /** Filtering distributes over concatenation: it keeps the relative order of what it keeps. */
  lemma {:induction false} FilterConcat<T>(a: seq<T>, b: seq<T>, p: T -> bool)
    ensures Filter(a + b, p) == Filter(a, p) + Filter(b, p)
  {
    if a == [] {
      assert a + b == b;
    } else {
      assert (a + b)[1..] == a[1..] + b;
      FilterConcat(a[1..], b, p);
    }
  }

  /** A filter whose predicate holds everywhere keeps everything. */
  lemma {:induction false} FilterAll<T>(s: seq<T>, p: T -> bool)
    requires forall k :: 0 <= k < |s| ==> p(s[k])
    ensures Filter(s, p) == s
  {
    if s != [] {
      FilterAll(s[1..], p);
    }
  }

  /** Filtering twice is filtering by the conjunction, in either order. */
  lemma {:induction false} FilterFilter<T>(s: seq<T>, p: T -> bool, q: T -> bool)
    ensures Filter(Filter(s, p), q) == Filter(s, x => p(x) && q(x))
  {
    if s != [] {
      FilterFilter(s[1..], p, q);
      if p(s[0]) {
        assert Filter(s, p) == [s[0]] + Filter(s[1..], p);
        assert Filter(s, p)[1..] == Filter(s[1..], p);
      } else {
        assert Filter(s, p) == Filter(s[1..], p);
      }
    }
  }

  /** A filter whose predicate holds nowhere keeps nothing. */
  lemma {:induction false} FilterNone<T>(s: seq<T>, p: T -> bool)
    requires forall k :: 0 <= k < |s| ==> !p(s[k])
    ensures Filter(s, p) == []
  {
    if s != [] {
      FilterNone(s[1..], p);
    }
  }

  /** Filters whose predicates agree on every element keep the same elements. */
  lemma {:induction false} FilterExt<T>(s: seq<T>, p: T -> bool, q: T -> bool)
    requires forall k :: 0 <= k < |s| ==> p(s[k]) == q(s[k])
    ensures Filter(s, p) == Filter(s, q)
  {
    if s != [] {
      FilterExt(s[1..], p, q);
    }
  }

  /** A filter by `p` followed by a filter by `q` is one filter by their conjunction `pq`. */
  lemma FilterAnd<T>(s: seq<T>, p: T -> bool, q: T -> bool, pq: T -> bool)
    requires forall k :: 0 <= k < |s| ==> (pq(s[k]) <==> p(s[k]) && q(s[k]))
    ensures Filter(Filter(s, p), q) == Filter(s, pq)
  {
    FilterFilter(s, p, q);
    var both := x => p(x) && q(x);
    assert Filter(Filter(s, p), q) == Filter(s, both);
    FilterExt(s, both, pq);
  }

  /** A filter applied only when `cond` holds is a filter by "`cond` implies `p`". */
  lemma FilterWhen<T>(s: seq<T>, cond: bool, p: T -> bool, pc: T -> bool)
    requires forall k :: 0 <= k < |s| ==> (pc(s[k]) <==> (cond ==> p(s[k])))
    ensures (if cond then Filter(s, p) else s) == Filter(s, pc)
  {
    if cond {
      FilterExt(s, p, pc);
    } else {
      FilterAll(s, pc);
    }
  }

  /** Number of elements satisfying `p`: `s.filter(p).length`. */
  function Count<T>(s: seq<T>, p: T -> bool): (n: nat)
    ensures n <= |s|
  {
    |Filter(s, p)|
  }

  /** The count of a non-empty sequence: its first element, then the rest. */
  lemma CountFirst<T>(s: seq<T>, p: T -> bool)
    requires s != []
    ensures Count(s, p) == (if p(s[0]) then 1 else 0) + Count(s[1..], p)
  {
  }

  /** Each element is counted by exactly one of `p` and its negation. */
  lemma {:induction false} CountSplit<T>(s: seq<T>, p: T -> bool, q: T -> bool)
    requires forall k :: 0 <= k < |s| ==> (q(s[k]) <==> !p(s[k]))
    ensures Count(s, p) + Count(s, q) == |s|
  {
    if s != [] {
      CountSplit(s[1..], p, q);
    }
  }

  /** Two predicates that never hold together count at most the whole sequence. */
  lemma {:induction false} CountDisjoint<T>(s: seq<T>, p: T -> bool, q: T -> bool)
    requires forall k :: 0 <= k < |s| ==> !(p(s[k]) && q(s[k]))
    ensures Count(s, p) + Count(s, q) <= |s|
  {
    if s != [] {
      CountDisjoint(s[1..], p, q);
    }
  }

  /** Counting elements of three mutually exclusive and exhaustive kinds. */
  lemma {:induction false} CountSplit3<T>(s: seq<T>, p: T -> bool, q: T -> bool, r: T -> bool)
    requires forall k :: 0 <= k < |s| ==> (p(s[k]) || q(s[k]) || r(s[k]))
    requires forall k :: 0 <= k < |s| ==> !(p(s[k]) && q(s[k])) && !(p(s[k]) && r(s[k])) && !(q(s[k]) && r(s[k]))
    ensures Count(s, p) + Count(s, q) + Count(s, r) == |s|
  {
    if s != [] {
      CountSplit3(s[1..], p, q, r);
    }
  }

  /** `s.map((x, idx) => f(x, start + idx))`: each element mapped with its position offset by `start`. */
  function MapIndexed<A, B>(s: seq<A>, start: nat, f: (A, nat) -> B): (r: seq<B>)
    ensures |r| == |s|
    ensures forall k :: 0 <= k < |s| ==> r[k] == f(s[k], start + k)
  {
    if s == [] then [] else [f(s[0], start)] + MapIndexed(s[1..], start + 1, f)
  }

  /** Mapping a slice from its own offset is slicing the mapped whole. */
  lemma MapIndexedSlice<A, B>(s: seq<A>, i: nat, j: nat, f: (A, nat) -> B)
    requires i <= j <= |s|
    ensures MapIndexed(s[i..j], i, f) == MapIndexed(s, 0, f)[i..j]
  {
  }

  /** One more mapped batch, taken from where the previous batches stop, extends the batching. */
  lemma MapIndexedBatchStep<A, B>(s: seq<A>, i: nat, end: nat, f: (A, nat) -> B, size: nat)
    requires size > 0 && i % size == 0
    requires i < end <= |s| && end - i <= size
    ensures Batches(MapIndexed(s, 0, f)[..i], size) + [MapIndexed(s[i..end], i, f)]
      == Batches(MapIndexed(s, 0, f)[..end], size)
  {
    MapIndexedSlice(s, i, end, f);
    BatchesSnoc(MapIndexed(s, 0, f), i, end, size);
  }

  /** The batches up to `end` are those up to `i` followed by the slice between them. */
  lemma BatchesSnoc<T>(all: seq<T>, i: nat, end: nat, size: nat)
    requires size > 0 && i % size == 0
    requires i < end <= |all| && end - i <= size
    ensures Batches(all[..i], size) + [all[i..end]] == Batches(all[..end], size)
  {
    var head, mid := all[..i], all[i..end];
    assert head + mid == all[..end];
    BatchesAppend(head, mid, size);
  }

  /** The concatenation of a sequence of sequences. */
  function Flatten<T>(ss: seq<seq<T>>): (r: seq<T>)
  {
    if ss == [] then [] else ss[0] + Flatten(ss[1..])
  }

  lemma {:induction false} FlattenAppend<T>(ss: seq<seq<T>>, t: seq<T>)
    ensures Flatten(ss + [t]) == Flatten(ss) + t
  {
    if ss == [] {
      assert ss + [t] == [t];
    } else {
      assert (ss + [t])[1..] == ss[1..] + [t];
      FlattenAppend(ss[1..], t);
    }
  }

  function Min(a: nat, b: nat): nat { if a <= b then a else b }

  /** The first `n` elements, or all of them when there are fewer (`slice(0, n)`, `.limit(n)`). */
  function Take<T>(s: seq<T>, n: nat): (r: seq<T>)
    ensures |r| == Min(n, |s|)
    ensures r == s[..|r|]
  {
    if n < |s| then s[..n] else s
  }

  /** `ceil(a / b)` for a positive divisor. */
  function CeilDiv(a: nat, b: nat): (q: nat)
    requires b > 0
    ensures (q - 1) * b < a <= q * b || (a == 0 && q == 0)
  {
    (a + b - 1) / b
  }

  lemma {:induction false} MulAtLeast(d: nat, k: nat)
    requires k >= 1
    ensures d * k >= d
  {
    if k > 1 {
      MulAtLeast(d, k - 1);
      assert d * k == d * (k - 1) + d;
    }
  }

  /** Euclidean division is determined by quotient and remainder bounds. */
  lemma DivUnique(x: int, d: int, q: int, r: int)
    requires d > 0 && 0 <= r < d && x == d * q + r
    ensures x / d == q && x % d == r
  {
    var q0, r0 := x / d, x % d;
    if q0 < q {
      MulAtLeast(d, q - q0);
    } else if q0 > q {
      MulAtLeast(d, q0 - q);
    }
  }

  /** Adding the divisor once adds one to the quotient and leaves the remainder. */
  lemma DivStep(x: int, d: int)
    requires d > 0
    ensures (x + d) / d == x / d + 1 && (x + d) % d == x % d
  {
    var q, r := x / d, x % d;
    assert x + d == d * (q + 1) + r;
    DivUnique(x + d, d, q + 1, r);
  }

  /**
   * The consecutive slices a loop `for (i = 0; i < n; i += size) s.slice(i, i + size)`
   * visits, as a value.
   */
  function Batches<T>(s: seq<T>, size: nat): (r: seq<seq<T>>)
    requires size > 0
    decreases |s|
  {
    if s == [] then []
    else if |s| <= size then [s]
    else [s[..size]] + Batches(s[size..], size)
  }

  /** The batches put back together give the whole sequence: every element once, in order. */
  lemma {:induction false} BatchesFlatten<T>(s: seq<T>, size: nat)
    requires size > 0
    ensures Flatten(Batches(s, size)) == s
  {
    if s != [] && |s| > size {
      BatchesFlatten(s[size..], size);
      assert s == s[..size] + s[size..];
    }
  }

  /** Every batch is non-empty and holds at most `size` elements. */
  lemma {:induction false} BatchesBounded<T>(s: seq<T>, size: nat)
    requires size > 0
    ensures forall k :: 0 <= k < |Batches(s, size)| ==> 0 < |Batches(s, size)[k]| <= size
  {
    if s != [] && |s| > size {
      BatchesBounded(s[size..], size);
    }
  }

  /** Two batches or more only come from more than one batch's worth of elements. */
  lemma BatchesMoreThanOne<T>(s: seq<T>, size: nat)
    requires size > 0 && |Batches(s, size)| >= 2
    ensures |s| > size
  {
  }

  /** There are `ceil(|s| / size)` batches. */
  lemma {:induction false} BatchesCount<T>(s: seq<T>, size: nat)
    requires size > 0
    ensures |Batches(s, size)| == CeilDiv(|s|, size)
  {
    var n := |s|;
    if s != [] && n > size {
      BatchesCount(s[size..], size);
      assert |s[size..]| + size - 1 == n - 1;
      DivStep(n - 1, size);
    } else if s != [] {
      DivUnique(n - 1 + size, size, 1, n - 1);
    }
  }

  /**
   * Appending one more batch: when `a` is a whole number of batches, the batches of
   * `a + b` for a short non-empty `b` are those of `a` followed by `b`. This is the
   * step a batching loop takes.
   */
  lemma {:induction false} BatchesAppend<T>(a: seq<T>, b: seq<T>, size: nat)
    requires size > 0
    requires |a| % size == 0
    requires 0 < |b| <= size
    ensures Batches(a + b, size) == Batches(a, size) + [b]
    decreases |a|
  {
    if a == [] {
      assert a + b == b;
    } else {
      assert |a| >= size;
      assert (a + b)[..size] == a[..size];
      assert (a + b)[size..] == a[size..] + b;
      DivStep(|a| - size, size);
      BatchesAppend(a[size..], b, size);
      if |a| == size {
        assert a[size..] == [];
      }
    }
  }

  /** Sum of a sequence of reals, `s.reduce((acc, x) => acc + x, 0)`. */
  function SumReal(s: seq<real>): real
  {
    if s == [] then 0.0 else s[0] + SumReal(s[1..])
  }

  /** Sum of a sequence of integers. */
  function SumInt(s: seq<int>): int
  {
    if s == [] then 0 else s[0] + SumInt(s[1..])
  }

  lemma {:induction false} SumIntConcat(a: seq<int>, b: seq<int>)
    ensures SumInt(a + b) == SumInt(a) + SumInt(b)
  {
    if a == [] {
      assert a + b == b;
    } else {
      assert (a + b)[1..] == a[1..] + b;
      SumIntConcat(a[1..], b);
    }
  }

  lemma {:induction false} SumRealConcat(a: seq<real>, b: seq<real>)
    ensures SumReal(a + b) == SumReal(a) + SumReal(b)
  {
    if a == [] {
      assert a + b == b;
    } else {
      assert (a + b)[1..] == a[1..] + b;
      SumRealConcat(a[1..], b);
    }
  }
}
