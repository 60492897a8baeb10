/** The `sorted(comparator)` step of the services' streams: a stable insertion sort of
    elements paired with an integer key (the compared timestamp or date, negated for the
    newest-first orders). */
module Sorting {

  /** Keys are in non-decreasing order. */
  predicate Ascending<T>(s: seq<(int, T)>)
  {
    forall i, j :: 0 <= i < j < |s| ==> s[i].0 <= s[j].0
  }

  /** The elements without their keys. */
  function Values<T>(s: seq<(int, T)>): (r: seq<T>)
    ensures |r| == |s|
    ensures forall i :: 0 <= i < |s| ==> r[i] == s[i].1
  {
    if s == [] then [] else [s[0].1] + Values(s[1..])
  }

  /** Places x before the first element whose key is not smaller, so that x stays ahead of
      every later element with an equal key (stability). */
  function Insert<T>(x: (int, T), s: seq<(int, T)>): (r: seq<(int, T)>)
    requires Ascending(s)
    ensures Ascending(r)
    ensures |r| == |s| + 1
    ensures r[0] == x || (s != [] && r[0] == s[0])
  {
    if s == [] || x.0 <= s[0].0 then
      [x] + s
    else
      var rest := Insert(x, s[1..]);
      var r := [s[0]] + rest;
      assert forall i, j :: 0 <= i < j < |r| ==> r[i].0 <= r[j].0 by {
        forall i, j | 0 <= i < j < |r| ensures r[i].0 <= r[j].0 {
          if i == 0 {
            assert s[0].0 <= rest[0].0;
            assert rest[0].0 <= rest[j - 1].0;
          } else {
            assert r[i] == rest[i - 1] && r[j] == rest[j - 1];
          }
        }
      }
      r
  }

  /** Insert adds exactly one occurrence of x to the keyed elements. */
  lemma {:induction false} InsertPermutes<T>(x: (int, T), s: seq<(int, T)>)
    requires Ascending(s)
    ensures multiset(Insert(x, s)) == multiset(s) + multiset{x}
  {
    if s != [] && x.0 > s[0].0 {
      InsertPermutes(x, s[1..]);
      assert s == [s[0]] + s[1..];
    }
  }

  /** Insert adds exactly one occurrence of x's element to the bare elements. */
  lemma {:induction false} InsertPermutesValues<T>(x: (int, T), s: seq<(int, T)>)
    requires Ascending(s)
    ensures multiset(Values(Insert(x, s))) == multiset(Values(s)) + multiset{x.1}
  {
    if s == [] || x.0 <= s[0].0 {
      assert Values([x] + s) == [x.1] + Values(s);
    } else {
      var rest := Insert(x, s[1..]);
      InsertPermutesValues(x, s[1..]);
      assert Values([s[0]] + rest) == [s[0].1] + Values(rest);
      assert Values(s) == [s[0].1] + Values(s[1..]);
    }
  }

  /** The keyed elements in ascending key order, equal keys in their original order. */
  function SortByKey<T>(s: seq<(int, T)>): (r: seq<(int, T)>)
    ensures Ascending(r)
    ensures |r| == |s|
  {
    if s == [] then [] else Insert(s[0], SortByKey(s[1..]))
  }

  lemma MultisetOfCons<U>(s: seq<U>)
    requires s != []
    ensures multiset(s) == multiset(s[1..]) + multiset{s[0]}
  {
    assert s == [s[0]] + s[1..];
  }

  /** Sorting permutes the keyed elements. */
  lemma {:induction false} SortPermutes<T>(s: seq<(int, T)>)
    ensures multiset(SortByKey(s)) == multiset(s)
  {
    if s != [] {
      var rest := SortByKey(s[1..]);
      SortPermutes(s[1..]);
      InsertPermutes(s[0], rest);
      MultisetOfCons(s);
      assert SortByKey(s) == Insert(s[0], rest);
    }
  }

  /** Sorting permutes the bare elements. */
  lemma {:induction false} SortPermutesValues<T>(s: seq<(int, T)>)
    ensures multiset(Values(SortByKey(s))) == multiset(Values(s))
  {
    if s != [] {
      var rest := SortByKey(s[1..]);
      SortPermutesValues(s[1..]);
      InsertPermutesValues(s[0], rest);
      calc {
        multiset(Values(SortByKey(s)));
        multiset(Values(Insert(s[0], rest)));
        multiset(Values(rest)) + multiset{s[0].1};
        multiset(Values(s[1..])) + multiset{s[0].1};
        { assert Values(s) == [s[0].1] + Values(s[1..]); }
        multiset(Values(s));
      }
    }
  }
}
