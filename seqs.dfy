/** Sequence operations that stand for the java.util.List and java.util.stream calls of the
    services: order-preserving filter, findFirst, indexOf, remove(Object). */
module Seqs {

  /** stream().filter(p).collect(toList()): the elements satisfying p, in stored order. */
  function Filter<T>(s: seq<T>, p: T -> bool): (r: seq<T>)
    ensures |r| <= |s|
    ensures forall i :: 0 <= i < |r| ==> r[i] in s && p(r[i])
    ensures forall i :: 0 <= i < |s| && p(s[i]) ==> s[i] in r
  {
    if s == [] then [] else (if p(s[0]) then [s[0]] else []) + Filter(s[1..], p)
  }

  /** Filtering distributes over concatenation, so the stored order is kept. */
  lemma {:induction false} FilterAppend<T>(s: seq<T>, t: seq<T>, p: T -> bool)
    ensures Filter(s + t, p) == Filter(s, p) + Filter(t, p)
  {
    if s == [] {
      assert s + t == t;
    } else {
      assert (s + t)[1..] == s[1..] + t;
      FilterAppend(s[1..], t, p);
    }
  }

  /** Filtering by a stronger predicate equals filtering the weaker filter's result again:
      the p-elements of s are exactly the p-elements among the q-elements, in the same order. */
  lemma {:induction false} FilterOfFilter<T>(s: seq<T>, p: T -> bool, q: T -> bool)
    requires forall i :: 0 <= i < |s| && p(s[i]) ==> q(s[i])
    ensures Filter(s, p) == Filter(Filter(s, q), p)
  {
    if s != [] {
      FilterOfFilter(s[1..], p, q);
      var fq := Filter(s, q);
      if q(s[0]) {
        assert fq == [s[0]] + Filter(s[1..], q);
        assert fq[0] == s[0] && fq[1..] == Filter(s[1..], q);
        assert Filter(fq, p) == (if p(s[0]) then [s[0]] else []) + Filter(fq[1..], p);
      } else {
        assert fq == Filter(s[1..], q);
        assert !p(s[0]);
      }
    }
  }

  /** Two predicates that agree on every element give the same filter. */
  lemma {:induction false} FilterAgree<T>(s: seq<T>, p: T -> bool, q: T -> bool)
    requires forall i :: 0 <= i < |s| ==> p(s[i]) == q(s[i])
    ensures Filter(s, p) == Filter(s, q)
  {
    if s != [] {
      FilterAgree(s[1..], p, q);
    }
  }

  /** Index of the first element satisfying p (findFirst), or |s| when there is none. */
  function FirstIndex<T>(s: seq<T>, p: T -> bool): (k: nat)
    ensures k <= |s|
    ensures k < |s| ==> p(s[k])
    ensures forall j :: 0 <= j < k ==> !p(s[j])
  {
    if s == [] then 0 else if p(s[0]) then 0 else 1 + FirstIndex(s[1..], p)
  }

  /** indexOf: position of the first element equal to x, or |s| when x is absent. */
  function IndexOf<T(==)>(s: seq<T>, x: T): (k: nat)
    ensures k <= |s|
    ensures k < |s| <==> x in s
    ensures k < |s| ==> s[k] == x
    ensures forall j :: 0 <= j < k ==> s[j] != x
  {
    if s == [] then 0
    else if s[0] == x then 0
    else
      1 + IndexOf(s[1..], x)
  }

  /** List.remove(Object): drops the first element equal to x; no change when x is absent. */
  function RemoveFirst<T(==)>(s: seq<T>, x: T): (r: seq<T>)
    ensures x !in s ==> r == s
    ensures |r| == if x in s then |s| - 1 else |s|
  {
    if s == [] then []
    else if s[0] == x then s[1..]
    else [s[0]] + RemoveFirst(s[1..], x)
  }

  /** RemoveFirst takes away exactly one occurrence of x, when there is one. */
  lemma {:induction false} RemoveFirstMultiset<T>(s: seq<T>, x: T)
    ensures multiset(RemoveFirst(s, x)) == multiset(s) - multiset{x}
  {
    if s != [] {
      assert s == [s[0]] + s[1..];
      if s[0] != x {
        RemoveFirstMultiset(s[1..], x);
      }
    }
  }

  /** RemoveFirst cuts out exactly the first occurrence and keeps everything else in order. */
  lemma {:induction false} RemoveFirstCutsFirstOccurrence<T>(s: seq<T>, x: T)
    requires x in s
    ensures RemoveFirst(s, x) == s[..IndexOf(s, x)] + s[IndexOf(s, x) + 1..]
  {
    if s[0] == x {
      assert s[..0] == [];
    } else {
      var t := s[1..];
      assert s == [s[0]] + t;
      assert x in t;
      RemoveFirstCutsFirstOccurrence(t, x);
      var k := IndexOf(t, x);
      assert IndexOf(s, x) == k + 1;
      assert RemoveFirst(s, x) == [s[0]] + (t[..k] + t[k + 1..]);
      assert s[..k + 1] == [s[0]] + t[..k];
      assert s[k + 2..] == t[k + 1..];
    }
  }
}
