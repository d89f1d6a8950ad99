/** Lists without repeats, sorted lists, and moving one track within a list. */
module Sequences {
  import opened Wire

  ghost predicate Distinct<T(!new)>(s: seq<T>) {
    forall i, j :: 0 <= i < j < |s| ==> s[i] != s[j]
  }

  function IndexOf<T(==)>(s: seq<T>, k: T): (i: nat)
    requires k in s
    ensures i < |s| && s[i] == k
  {
    if s[0] == k then 0 else 1 + IndexOf(s[1..], k)
  }

  lemma IndexUnique<T(!new)>(s: seq<T>, i: nat)
    requires Distinct(s) && i < |s|
    ensures IndexOf(s, s[i]) == i
  {
  }

  ghost function Elements<T(!new)>(s: seq<T>): set<T> {
    set k | k in s
  }

  lemma {:induction false} DistinctSize<T(!new)>(s: seq<T>)
    requires Distinct(s)
    ensures |Elements(s)| == |s|
  {
    if s == [] {
      assert Elements(s) == {};
    } else {
      DistinctSize(s[1..]);
      assert s == [s[0]] + s[1..];
      assert Elements(s) == Elements(s[1..]) + {s[0]};
    }
  }

  ghost predicate Sorted<T(!new)>(before: (T, T) -> bool, s: seq<T>) {
    forall i, j :: 0 <= i < j < |s| ==> before(s[i], s[j])
  }

  /** A strict order has only one sorted list of given elements. */
  lemma {:induction false} SortedUnique<T(!new)>(before: (T, T) -> bool, s1: seq<T>, s2: seq<T>)
    requires forall x, y :: before(x, y) ==> !before(y, x)
    requires Sorted(before, s1) && Sorted(before, s2) && Elements(s1) == Elements(s2)
    ensures s1 == s2
    decreases |s1|
  {
    NoElements(s1);
    NoElements(s2);
    if s1 != [] {
      assert s1[0] in Elements(s2) && s2[0] in Elements(s1);
      HeadsAgree(before, s1, s2);
      forall k ensures k in Elements(s1[1..]) <==> k in Elements(s2[1..]) {
        assert k in Elements(s1) <==> k in Elements(s2);
        assert k in s1[1..] <==> k in s1 && k != s1[0] by { TailElements(before, s1, k); }
        assert k in s2[1..] <==> k in s2 && k != s2[0] by { TailElements(before, s2, k); }
      }
      SortedUnique(before, s1[1..], s2[1..]);
    }
  }

  lemma NoElements<T(!new)>(s: seq<T>)
    ensures Elements(s) == {} <==> s == []
  {
    if s != [] {
      assert s[0] in Elements(s);
    }
  }

  lemma HeadsAgree<T(!new)>(before: (T, T) -> bool, s1: seq<T>, s2: seq<T>)
    requires forall x, y :: before(x, y) ==> !before(y, x)
    requires Sorted(before, s1) && Sorted(before, s2) && s1 != [] && s2 != []
    requires s1[0] in s2 && s2[0] in s1
    ensures s1[0] == s2[0]
  {
    FirstIsBefore(before, s1, s2[0]);
    FirstIsBefore(before, s2, s1[0]);
  }

  lemma FirstIsBefore<T(!new)>(before: (T, T) -> bool, s: seq<T>, k: T)
    requires Sorted(before, s) && k in s
    ensures k == s[0] || before(s[0], k)
  {
    var i := IndexOf(s, k);
  }

  lemma TailElements<T(!new)>(before: (T, T) -> bool, s: seq<T>, k: T)
    requires forall x, y :: before(x, y) ==> !before(y, x)
    requires Sorted(before, s) && s != []
    ensures k in s[1..] <==> k in s && k != s[0]
  {
    assert s == [s[0]] + s[1..];
    if k in s[1..] {
      var i := IndexOf(s[1..], k);
      assert s[i + 1] == k;
    }
  }

  /** Cut element c out of s and splice it in at index d. */
  function Spliced(s: seq<TrackId>, c: nat, d: nat): (r: seq<TrackId>)
    requires c < |s| && d < |s|
    ensures |r| == |s|
  {
    var rest := s[..c] + s[c + 1..];
    rest[..d] + [s[c]] + rest[d..]
  }
}
