/**
 * The two sequence operations the study planner builds its updates from:
 * `Array.prototype.filter` and `Array.from(new Set(xs))`.
 */
module Seqs {

  /** No value occurs twice. */
  predicate NoDups<T(==)>(s: seq<T>) {
    forall i, j :: 0 <= i < j < |s| ==> s[i] != s[j]
  }

  /** `s.filter(keep)`: the elements satisfying `keep`, with their multiplicities. */
  function Filter<T(!new)>(s: seq<T>, keep: T -> bool): (r: seq<T>)
    ensures |r| <= |s|
    ensures forall x :: x in r <==> x in s && keep(x)
  {
    if s == [] then []
    else
      assert s == [s[0]] + s[1..];
      (if keep(s[0]) then [s[0]] else []) + Filter(s[1..], keep)
  }

  /** Filtering keeps the original order: it distributes over concatenation. */
  lemma {:induction false} FilterConcat<T(!new)>(a: seq<T>, b: seq<T>, keep: T -> bool)
    ensures Filter(a + b, keep) == Filter(a, keep) + Filter(b, keep)
  {
    if a != [] {
      var head := if keep(a[0]) then [a[0]] else [];
      var ab := a + b;
      assert ab != [] && ab[0] == a[0] && ab[1..] == a[1..] + b;
      calc {
        Filter(a + b, keep);
        Filter(ab, keep);
        head + Filter(ab[1..], keep);
        head + Filter(a[1..] + b, keep);
        { FilterConcat(a[1..], b, keep); }
        head + (Filter(a[1..], keep) + Filter(b, keep));
        (head + Filter(a[1..], keep)) + Filter(b, keep);
      }
    } else {
      assert a + b == b;
    }
  }

  /** Filtering keeps every kept value exactly as often as it occurred and drops the others. */
  lemma {:induction false} FilterCounts<T(!new)>(s: seq<T>, keep: T -> bool)
    ensures forall x :: multiset(Filter(s, keep))[x] == if keep(x) then multiset(s)[x] else 0
  {
    if s != [] {
      FilterCounts(s[1..], keep);
      assert s == [s[0]] + s[1..];
      assert multiset(s) == multiset{s[0]} + multiset(s[1..]);
    }
  }

  /** A filter that keeps every element returns its input. */
  lemma {:induction false} FilterKeepsAll<T(!new)>(s: seq<T>, keep: T -> bool)
    requires forall i :: 0 <= i < |s| ==> keep(s[i])
    ensures Filter(s, keep) == s
  {
    if s != [] {
      FilterKeepsAll(s[1..], keep);
    }
  }

  /** Filtering a duplicate-free sequence leaves it duplicate-free. */
  lemma {:induction false} FilterNoDups<T(!new)>(s: seq<T>, keep: T -> bool)
    requires NoDups(s)
    ensures NoDups(Filter(s, keep))
  {
    if s != [] {
      FilterNoDups(s[1..], keep);
      assert s[0] !in s[1..];
    }
  }

  /** Index of the first occurrence of `x` in `s` (`s.indexOf(x)`). */
  function IndexOf<T(==)>(s: seq<T>, x: T): (i: nat)
    requires x in s
    ensures i < |s| && s[i] == x && x !in s[..i]
  {
    if s[0] == x then 0 else 1 + IndexOf(s[1..], x)
  }

  /**
   * `Array.from(new Set(s))`: a Set built from `s` adds the elements in order and ignores
   * one already present, and iterating it visits values in insertion order (ECMA-262,
   * section 24.2, Set objects). So the result keeps the first occurrence of each value.
   */
  function Dedup<T(==,!new)>(s: seq<T>): (r: seq<T>)
    ensures NoDups(r)
    ensures forall x :: x in r <==> x in s
  {
    if s == [] then []
    else
      var d := Dedup(s[..|s| - 1]);
      var last := s[|s| - 1];
      if last in d then d else d + [last]
  }

  /** A duplicate-free sequence goes through the Set unchanged. */
  lemma {:induction false} DedupOfNoDups<T(!new)>(s: seq<T>)
    requires NoDups(s)
    ensures Dedup(s) == s
  {
    if s != [] {
      DedupOfNoDups(s[..|s| - 1]);
    }
  }

  /** Dedup keeps values in the order of their first occurrence in the input. */
  lemma {:induction false} DedupFirstOccurrenceOrder<T(!new)>(s: seq<T>)
    ensures forall i, j :: 0 <= i < j < |Dedup(s)| ==> IndexOf(s, Dedup(s)[i]) < IndexOf(s, Dedup(s)[j])
  {
    if s != [] {
      var p := s[..|s| - 1];
      var last := s[|s| - 1];
      DedupFirstOccurrenceOrder(p);
      forall x | x in p
        ensures IndexOf(s, x) == IndexOf(p, x)
      {
        IndexOfPrefix(p, [last], x);
        assert s == p + [last];
      }
      if last !in p {
        assert s[..|s| - 1] == p;
        assert IndexOf(s, last) == |s| - 1;
      }
    }
  }

  /** The first occurrence of a value that occurs in `p` is the same in `p + q`. */
  lemma {:induction false} IndexOfPrefix<T>(p: seq<T>, q: seq<T>, x: T)
    requires x in p
    ensures IndexOf(p + q, x) == IndexOf(p, x)
  {
    if p[0] != x {
      assert (p + q)[1..] == p[1..] + q;
      IndexOfPrefix(p[1..], q, x);
    }
  }
}
