/**
 * List operations the GUI performs on Python lists: filtering
 * comprehensions, `list(dict.fromkeys(xs))` (duplicates removed, first
 * occurrences kept in order), `list.pop(i)` and `list.insert(i, x)`.
 */
module Sequences {
  predicate NoDuplicates<T(==)>(s: seq<T>)
  {
    forall i, j :: 0 <= i < j < |s| ==> s[i] != s[j]
  }

  /** `[x for x in s if p(x)]`. */
  function Filter<T>(s: seq<T>, p: T -> bool): (r: seq<T>)
    ensures |r| <= |s|
    ensures forall i :: 0 <= i < |r| ==> r[i] in s && p(r[i])
    ensures forall i :: 0 <= i < |s| && p(s[i]) ==> s[i] in r
  {
    if s == [] then [] else (if p(s[0]) then [s[0]] else []) + Filter(s[1..], p)
  }

  /** An element is kept by `Filter` iff it is in the list and satisfies the condition. */
  lemma FilterMembership<T>(s: seq<T>, p: T -> bool, x: T)
    ensures x in Filter(s, p) <==> x in s && p(x)
  {
    if x in Filter(s, p) {
      var r := Filter(s, p);
      var k :| 0 <= k < |r| && r[k] == x;
    }
    if x in s && p(x) {
      var j :| 0 <= j < |s| && s[j] == x;
    }
  }

  /** Walks `s` from the front, keeping each element not seen before (`dict.fromkeys`). */
  function DedupFrom<T(==)>(s: seq<T>, seen: set<T>): (r: seq<T>)
    ensures forall i :: 0 <= i < |r| ==> r[i] in s && r[i] !in seen
    ensures forall i :: 0 <= i < |s| && s[i] !in seen ==> s[i] in r
    ensures NoDuplicates(r)
  {
    if s == [] then []
    else if s[0] in seen then DedupFrom(s[1..], seen)
    else [s[0]] + DedupFrom(s[1..], seen + {s[0]})
  }

  /** `list(dict.fromkeys(s))`. */
  function Dedup<T(==)>(s: seq<T>): (r: seq<T>)
    ensures forall i :: 0 <= i < |r| ==> r[i] in s
    ensures forall i :: 0 <= i < |s| ==> s[i] in r
    ensures NoDuplicates(r)
  {
    DedupFrom(s, {})
  }

  /**
   * Reference definition of the first occurrences of `s`, built from the back:
   * an element is kept iff it was not seen and does not occur earlier in `s`.
   */
  function FirstOccurrences<T(==)>(s: seq<T>, seen: set<T>): seq<T>
  {
    if s == [] then []
    else
      var last := s[|s| - 1];
      var init := s[..|s| - 1];
      FirstOccurrences(init, seen) + (if last in seen || last in init then [] else [last])
  }

  lemma {:induction false} FirstOccurrencesCons<T>(x: T, rest: seq<T>, seen: set<T>)
    ensures FirstOccurrences([x] + rest, seen)
         == if x in seen then FirstOccurrences(rest, seen) else [x] + FirstOccurrences(rest, seen + {x})
    decreases |rest|
  {
    var s := [x] + rest;
    if rest == [] {
      assert s[..|s| - 1] == [];
    } else {
      var last := rest[|rest| - 1];
      var init := rest[..|rest| - 1];
      assert s[|s| - 1] == last;
      assert s[..|s| - 1] == [x] + init;
      FirstOccurrencesCons(x, init, seen);
      assert last in [x] + init <==> last == x || last in init;
    }
  }

  /** `dict.fromkeys` keeps exactly the first occurrence of each element, in order. */
  lemma {:induction false} DedupIsFirstOccurrences<T>(s: seq<T>, seen: set<T>)
    ensures DedupFrom(s, seen) == FirstOccurrences(s, seen)
    decreases |s|
  {
    if s != [] {
      FirstOccurrencesCons(s[0], s[1..], seen);
      assert [s[0]] + s[1..] == s;
      if s[0] in seen {
        DedupIsFirstOccurrences(s[1..], seen);
      } else {
        DedupIsFirstOccurrences(s[1..], seen + {s[0]});
      }
    }
  }

  /** `s.pop(i)` for an index in range: the list without its i-th element. */
  function RemoveAt<T>(s: seq<T>, i: int): (r: seq<T>)
    requires 0 <= i < |s|
    ensures |r| == |s| - 1
    ensures forall j :: 0 <= j < i ==> r[j] == s[j]
    ensures forall j :: i <= j < |r| ==> r[j] == s[j + 1]
  {
    s[..i] + s[i + 1..]
  }

  /** `s.insert(i, x)` for an index in range. */
  function InsertAt<T>(s: seq<T>, i: int, x: T): (r: seq<T>)
    requires 0 <= i <= |s|
    ensures |r| == |s| + 1
    ensures r[i] == x
    ensures forall j :: 0 <= j < i ==> r[j] == s[j]
    ensures forall j :: i < j < |r| ==> r[j] == s[j - 1]
  {
    s[..i] + [x] + s[i..]
  }

  lemma RemoveAtMultiset<T>(s: seq<T>, i: int)
    requires 0 <= i < |s|
    ensures multiset(RemoveAt(s, i)) + multiset{s[i]} == multiset(s)
  {
    assert s == s[..i] + [s[i]] + s[i + 1..];
  }

  lemma InsertAtMultiset<T>(s: seq<T>, i: int, x: T)
    requires 0 <= i <= |s|
    ensures multiset(InsertAt(s, i, x)) == multiset(s) + multiset{x}
  {
    assert s == s[..i] + s[i..];
  }

  /** `s.index(x)`: the first index holding `x`. */
  function IndexOf<T(==)>(s: seq<T>, x: T): (i: int)
    requires x in s
    ensures 0 <= i < |s| && s[i] == x
    ensures forall j :: 0 <= j < i ==> s[j] != x
  {
    if s[0] == x then 0 else 1 + IndexOf(s[1..], x)
  }


  /** `s.remove(x)`: the list without the first occurrence of `x`; unchanged when `x` is absent. */
  function RemoveFirst<T(==)>(s: seq<T>, x: T): (r: seq<T>)
    ensures x in s ==> |r| == |s| - 1
    ensures x !in s ==> r == s
  {
    if x in s then RemoveAt(s, IndexOf(s, x)) else s
  }

  /** Removing a present element takes exactly one copy of it out. */
  lemma RemoveFirstMultiset<T>(s: seq<T>, x: T)
    requires x in s
    ensures multiset(RemoveFirst(s, x)) + multiset{x} == multiset(s)
  {
    RemoveAtMultiset(s, IndexOf(s, x));
  }

  /** Removing `x` where its first occurrence is at `k` cuts out index `k`. */
  lemma RemoveFirstAt<T>(s: seq<T>, x: T, k: int)
    requires 0 <= k < |s| && s[k] == x
    requires forall j :: 0 <= j < k ==> s[j] != x
    ensures RemoveFirst(s, x) == s[..k] + s[k + 1..]
  {
    assert IndexOf(s, x) == k;
  }

  /**
   * Moving the first `x` to the front and then removing the first `y`,
   * where `x` comes first at `i` and `y` first at a later `j`: `x`, the
   * elements before `j` other than that `x`, and the elements after `j`.
   */
  lemma MoveThenRemove<T>(s: seq<T>, x: T, y: T, i: int, j: int)
    requires 0 <= i < j < |s| && s[i] == x && s[j] == y
    requires x !in s[..i] && y !in s[..j]
    ensures RemoveFirst([x] + RemoveFirst(s, x), y) == [x] + s[..i] + s[i + 1..j] + s[j + 1..]
  {
    assert forall k :: 0 <= k < i ==> s[k] == s[..i][k];
    RemoveFirstAt(s, x, i);
    var moved := [x] + (s[..i] + s[i + 1..]);
    var front := [x] + s[..i] + s[i + 1..j];
    assert s[..j] == s[..i] + [x] + s[i + 1..j];
    assert y != x && y !in front;
    assert moved == front + [y] + s[j + 1..];
    assert forall k :: 0 <= k < j ==> moved[k] == front[k];
    RemoveFirstAt(moved, y, j);
    assert moved[..j] == front && moved[j + 1..] == s[j + 1..];
  }
}
