/** What Python's `list.remove` does to a sequence: find the first occurrence
    of an element (compared by `==`, for objects by identity) and drop the
    element at that position. */
module Sequences {

  /** Index of the first occurrence of `x` in `s`, or -1 when `x` is absent. */
  function IndexOf<T(==)>(s: seq<T>, x: T): (i: int)
    ensures -1 <= i < |s|
    ensures i == -1 <==> x !in s
    ensures 0 <= i ==> s[i] == x && forall j :: 0 <= j < i ==> s[j] != x
  {
    IndexFrom(s, x, 0)
  }

  /** Index of the first occurrence of `x` at or after `from`, or -1. */
  function IndexFrom<T(==)>(s: seq<T>, x: T, from: nat): (i: int)
    requires from <= |s|
    ensures -1 <= i < |s|
    ensures i == -1 <==> forall j :: from <= j < |s| ==> s[j] != x
    ensures 0 <= i ==> from <= i && s[i] == x && forall j :: from <= j < i ==> s[j] != x
    decreases |s| - from
  {
    if from == |s| then -1
    else if s[from] == x then from
    else IndexFrom(s, x, from + 1)
  }

  /** No element of `s` occurs twice in it: none is among the ones before it. */
  predicate SinRepetir<T(==)>(s: seq<T>)
  {
    forall i {:trigger s[..i]} | 0 <= i < |s| :: s[i] !in s[..i]
  }

  /** Appending an element that is not yet in the list keeps it without
      repetitions. */
  lemma SinRepetirAgregar<T>(s: seq<T>, x: T)
    requires SinRepetir(s) && x !in s
    ensures SinRepetir(s + [x])
  {
    var t := s + [x];
    forall i | 0 <= i < |t|
      ensures t[i] !in t[..i]
    {
      if i < |s| {
        assert t[..i] == s[..i];
        assert t[i] == s[i];
      } else {
        assert t[..i] == s;
      }
    }
  }

  /** A list without repetitions holds different elements at different
      positions. */
  lemma SinRepetirDistintos<T>(s: seq<T>)
    requires SinRepetir(s)
    ensures forall i, j | 0 <= i < j < |s| :: s[i] != s[j]
  {
    forall i, j | 0 <= i < j < |s|
      ensures s[i] != s[j]
    {
      assert s[..j][i] == s[i];
    }
  }

  /** `s` without its element at position `i`. */
  function RemoveAt<T>(s: seq<T>, i: nat): (r: seq<T>)
    requires i < |s|
  {
    seq(|s| - 1, j requires 0 <= j < |s| - 1 => if j < i then s[j] else s[j + 1])
  }

  /** Removal at a position keeps every other element, in order, and loses
      exactly one copy of the removed one. */
  lemma RemoveAtKeepsOthers<T>(s: seq<T>, i: nat)
    requires i < |s|
    ensures |RemoveAt(s, i)| == |s| - 1
    ensures forall j :: 0 <= j < i ==> RemoveAt(s, i)[j] == s[j]
    ensures forall j :: i <= j < |s| - 1 ==> RemoveAt(s, i)[j] == s[j + 1]
    ensures multiset(RemoveAt(s, i)) == multiset(s) - multiset{s[i]}
  {
    assert RemoveAt(s, i) == s[..i] + s[i + 1..];
    assert s == s[..i] + [s[i]] + s[i + 1..];
  }
}
