/** Frames that overtake each other: which pairs of adjacent frames a copy may apply in
    either order. */
module FrameOrder {
  import opened Wire
  import opened Sequences
  import opened PlaylistModel
  import opened PlaylistProofs
  import opened PlaylistRuns

  /** A copy that stands at s ends up the same, whichever of the two frames comes first. */
  predicate Commute(s: seq<TrackId>, e: Payload, f: Payload) {
    OnEvent(OnEvent(s, e), f) == OnEvent(OnEvent(s, f), e)
  }

  /** An addition and a move of the new track, in both orders. */
  lemma OvertakingDiverges()
    ensures Replay([1], [TrackAdded(2), TrackMoved(2, 1)]) == [2, 1]
    ensures Replay([1], [TrackMoved(2, 1), TrackAdded(2)]) == [1, 2]
  {
    assert OnEvent([1], TrackAdded(2)) == [1, 2];
    IndexUnique([1, 2], 1);
    assert Without([1, 2], 2) == [1];
    assert Reinsert([1, 2], 2, 1) == [2, 1];
    assert [TrackAdded(2), TrackMoved(2, 1)][1..] == [TrackMoved(2, 1)];
    assert [TrackMoved(2, 1), TrackAdded(2)][1..] == [TrackAdded(2)];
    assert [TrackMoved(2, 1)][1..] == [] && [TrackAdded(2)][1..] == [];
  }

  // ---------- positions ----------

  /** The position of k, counted from 1. */
  function At(s: seq<TrackId>, k: TrackId): nat
    requires k in s
  {
    IndexOf(s, k) + 1
  }

  ghost predicate SameTracks(s: seq<TrackId>, r: seq<TrackId>) {
    Distinct(s) && Distinct(r) && |s| == |r| && forall k :: k in s <==> k in r
  }

  /** Two lists of the same tracks are equal if and only if every track has one position. */
  lemma SamePositions(u: seq<TrackId>, v: seq<TrackId>)
    requires SameTracks(u, v)
    ensures u == v <==> forall k :: k in u ==> At(u, k) == At(v, k)
  {
    if forall k :: k in u ==> At(u, k) == At(v, k) {
      forall i | 0 <= i < |u| ensures u[i] == v[i] {
        IndexUnique(u, i);
        assert v[IndexOf(v, u[i])] == u[i];
      }
    }
  }

  /** r is s after a move of a to p: every track has the position that the table computes. */
  ghost predicate Moves(s: seq<TrackId>, r: seq<TrackId>, a: TrackId, p: int) {
    && a in s && SameTracks(s, r)
    && (forall k :: k in s ==> At(r, k) == Shifted(At(s, k), At(s, a), p))
  }

  /** r is s after the removal of a: the tracks behind it have moved up by one. */
  ghost predicate Removes(s: seq<TrackId>, r: seq<TrackId>, a: TrackId) {
    && a in s && Distinct(r) && |r| == |s| - 1
    && (forall k :: k in r <==> k in s && k != a)
    && (forall k :: k in r ==> At(r, k) == if At(s, k) > At(s, a) then At(s, k) - 1 else At(s, k))
  }

  /** Where b stands once a is out. */
  lemma WithoutIndex(s: seq<TrackId>, a: TrackId, b: TrackId)
    requires Distinct(s) && a in s && b in s && a != b
    ensures b in Without(s, a)
    ensures IndexOf(Without(s, a), b) == if IndexOf(s, b) < IndexOf(s, a) then IndexOf(s, b) else IndexOf(s, b) - 1
  {
    WithoutElements(s, a);
    var i, j := IndexOf(s, a), IndexOf(s, b);
    var m := if j < i then j else j - 1;
    assert Without(s, a)[m] == b;
    IndexUnique(Without(s, a), m);
  }

  lemma MoveAt(s: seq<TrackId>, a: TrackId, p: int, k: TrackId)
    requires Distinct(s) && a in s && 1 <= p <= |s| && k in s
    ensures k in Reinsert(s, a, p) && At(Reinsert(s, a, p), k) == Shifted(At(s, k), At(s, a), p)
  {
    var c := IndexOf(s, a);
    ReinsertIsSplice(s, a, p);
    SplicedDistinct(s, c, p - 1);
    var m := Shifted(At(s, k), c + 1, p) - 1;
    SplicedAt(s, c, p - 1, m);
    IndexUnique(Spliced(s, c, p - 1), m);
  }

  lemma MoveKeeps(s: seq<TrackId>, a: TrackId, p: int)
    requires Distinct(s) && a in s && 1 <= p <= |s|
    ensures SameTracks(s, Reinsert(s, a, p))
  {
    ReinsertIsSplice(s, a, p);
    SplicedDistinct(s, IndexOf(s, a), p - 1);
    forall k ensures k in Reinsert(s, a, p) <==> k in s {
      SplicedElement(s, IndexOf(s, a), p - 1, k);
    }
  }

  lemma AfterMove(s: seq<TrackId>, a: TrackId, p: int) returns (r: seq<TrackId>)
    requires Distinct(s) && a in s && 1 <= p <= |s|
    ensures r == OnEvent(s, TrackMoved(a, p)) && Moves(s, r, a, p)
  {
    r := Reinsert(s, a, p);
    MoveKeeps(s, a, p);
    forall k | k in s ensures At(r, k) == Shifted(At(s, k), At(s, a), p) {
      MoveAt(s, a, p, k);
    }
  }

  lemma AfterRemoval(s: seq<TrackId>, a: TrackId) returns (r: seq<TrackId>)
    requires Distinct(s) && a in s
    ensures r == OnEvent(s, TrackRemoved(a)) && Removes(s, r, a)
  {
    r := Without(s, a);
    WithoutElements(s, a);
    forall k | k in r ensures At(r, k) == if At(s, k) > At(s, a) then At(s, k) - 1 else At(s, k) {
      WithoutIndex(s, a, k);
    }
  }

  lemma TwoRemovals(s: seq<TrackId>, r: seq<TrackId>, u: seq<TrackId>, w: seq<TrackId>, v: seq<TrackId>, a: TrackId, b: TrackId)
    requires a != b && Removes(s, r, a) && Removes(r, u, b) && Removes(s, w, b) && Removes(w, v, a)
    ensures u == v
  {
    SamePositions(u, v);
    forall k | k in u ensures At(u, k) == At(v, k) {
      Different(s, k, a);
      Different(s, k, b);
      Different(s, a, b);
    }
  }

  lemma Different(s: seq<TrackId>, j: TrackId, k: TrackId)
    requires j in s && k in s && j != k
    ensures At(s, j) != At(s, k)
  {
  }

  // ---------- additions and removals ----------

  lemma AddsCommuteIff(s: seq<TrackId>, a: TrackId, b: TrackId)
    ensures Commute(s, TrackAdded(a), TrackAdded(b)) <==> a == b
  {
    assert (s + [a] + [b])[|s|] == a && (s + [b] + [a])[|s|] == b;
  }

  lemma RemovesCommute(s: seq<TrackId>, a: TrackId, b: TrackId)
    requires Distinct(s)
    ensures Commute(s, TrackRemoved(a), TrackRemoved(b))
  {
    if a !in s {
      WithoutAbsent(s, b, a);
    } else if b !in s {
      WithoutAbsent(s, a, b);
    } else if a != b {
      var r := AfterRemoval(s, a);
      var u := AfterRemoval(r, b);
      var w := AfterRemoval(s, b);
      var v := AfterRemoval(w, a);
      TwoRemovals(s, r, u, w, v, a, b);
    }
  }

  lemma WithoutAbsent(s: seq<TrackId>, a: TrackId, b: TrackId)
    requires Distinct(s) && b !in s
    ensures Without(Without(s, a), b) == Without(s, a) && Without(s, b) == s
  {
    if a in s {
      WithoutElements(s, a);
    }
  }

  /** A removal may overtake an addition, or be overtaken, unless it is of the same track. */
  lemma AddRemoveCommuteIff(s: seq<TrackId>, a: TrackId, b: TrackId)
    requires Distinct(s) && a !in s
    ensures Commute(s, TrackAdded(a), TrackRemoved(b)) <==> a != b
  {
    if a == b {
      IndexUnique(s + [a], |s|);
      assert Without(s + [a], a) == s;
      assert |s + [a]| != |s|;
    } else if b in s {
      AppendIndex(s, a, b);
      assert Without(s + [a], b) == Without(s, b) + [a];
    }
  }

  lemma {:induction false} AppendIndex(s: seq<TrackId>, a: TrackId, b: TrackId)
    requires b in s
    ensures b in s + [a] && IndexOf(s + [a], b) == IndexOf(s, b)
  {
    assert (s + [a])[0] == s[0];
    if s[0] != b {
      assert (s + [a])[1..] == s[1..] + [a];
      AppendIndex(s[1..], a, b);
    }
  }

  // ---------- moves ----------

  /** Two moves of different tracks commute if and only if, in either order, the second
      leaves the first track where the first move has put it; two moves of one track if
      and only if they are the same. */
  lemma MovesCommuteIff(s: seq<TrackId>, a: TrackId, p: int, b: TrackId, q: int)
    requires Distinct(s) && a in s && b in s && 1 <= p <= |s| && 1 <= q <= |s|
    ensures Commute(s, TrackMoved(a, p), TrackMoved(b, q)) <==>
            if a == b then p == q
            else Shifted(p, Shifted(At(s, b), At(s, a), p), q) == p && Shifted(q, Shifted(At(s, a), At(s, b), q), p) == q
  {
    var r := AfterMove(s, a, p);
    var u := AfterMove(r, b, q);
    var w := AfterMove(s, b, q);
    var v := AfterMove(w, a, p);
    TwoMoves(s, r, u, w, v, a, p, b, q);
  }

  /** From s by r to u, and by w to v. */
  lemma TwoMoves(s: seq<TrackId>, r: seq<TrackId>, u: seq<TrackId>, w: seq<TrackId>, v: seq<TrackId>,
                 a: TrackId, p: int, b: TrackId, q: int)
    requires Moves(s, r, a, p) && Moves(r, u, b, q) && Moves(s, w, b, q) && Moves(w, v, a, p)
    ensures u == v <==>
            if a == b then p == q
            else Shifted(p, Shifted(At(s, b), At(s, a), p), q) == p && Shifted(q, Shifted(At(s, a), At(s, b), q), p) == q
  {
    SamePositions(u, v);
    if At(u, a) == At(v, a) && At(u, b) == At(v, b) {
      forall k | k in u ensures At(u, k) == At(v, k) {
        if k != a && k != b {
          Different(s, k, a);
          Different(s, k, b);
          OthersFollow(At(s, k), At(s, a), p, At(s, b), q);
        }
      }
    }
    if a != b {
      Different(s, a, b);
    }
  }

  /** Where the moved tracks end up decides about all the others. */
  lemma OthersFollow(x: int, pa: int, p: int, pb: int, q: int)
    requires x != pa && x != pb && (pa == pb ==> p == q)
    requires Shifted(p, Shifted(pb, pa, p), q) == Shifted(Shifted(pa, pb, q), Shifted(pa, pb, q), p)
    requires Shifted(Shifted(pb, pa, p), Shifted(pb, pa, p), q) == Shifted(q, Shifted(pa, pb, q), p)
    ensures Shifted(Shifted(x, pa, p), Shifted(pb, pa, p), q) == Shifted(Shifted(x, pb, q), Shifted(pa, pb, q), p)
  {
  }

  /** A move of the added track commutes only if it is out of range before the addition,
      where it has no effect in either order or makes the track the last, which it is; a
      move of another track unless it needs the longer list. */
  lemma AddMoveCommuteIff(s: seq<TrackId>, a: TrackId, b: TrackId, p: int)
    requires Distinct(s) && a !in s
    ensures Commute(s, TrackAdded(a), TrackMoved(b, p)) <==>
            (b == a ==> !(1 <= p <= |s|)) && (b in s ==> p != |s| + 1)
  {
    if b == a {
      AddThenMoveIt(s, a, p);
    } else if b in s {
      AddThenMoveOther(s, a, b, p);
    }
  }

  lemma AddThenMoveIt(s: seq<TrackId>, a: TrackId, p: int)
    requires Distinct(s) && a !in s
    ensures Reinsert(s + [a], a, p) == s + [a] <==> !(1 <= p <= |s|)
  {
    IndexUnique(s + [a], |s|);
    assert Without(s + [a], a) == s;
    if 1 <= p <= |s| {
      assert Reinsert(s + [a], a, p)[p - 1] == a && (s + [a])[p - 1] == s[p - 1];
    }
  }

  lemma AddThenMoveOther(s: seq<TrackId>, a: TrackId, b: TrackId, p: int)
    requires Distinct(s) && a !in s && b in s
    ensures Reinsert(s + [a], b, p) == Reinsert(s, b, p) + [a] <==> p != |s| + 1
  {
    AppendIndex(s, a, b);
    WithoutElements(s, b);
    var rest := Without(s, b);
    WithoutLonger(s, a, b);
    if 1 <= p <= |s| {
      InsertBeforeLast(rest, a, b, p - 1);
    } else if p == |s| + 1 {
      LastDiffers(rest + [a], s, a, b);
    }
  }

  lemma WithoutLonger(s: seq<TrackId>, a: TrackId, b: TrackId)
    requires b in s && b in s + [a] && IndexOf(s + [a], b) == IndexOf(s, b)
    ensures Without(s + [a], b) == Without(s, b) + [a]
  {
  }

  lemma LastDiffers(r: seq<TrackId>, s: seq<TrackId>, a: TrackId, b: TrackId)
    requires a != b && |r| == |s|
    ensures r[..|s|] + [b] + r[|s|..] != s + [a]
  {
    assert (r[..|s|] + [b] + r[|s|..])[|s|] == b && (s + [a])[|s|] == a;
  }

  lemma InsertBeforeLast(rest: seq<TrackId>, a: TrackId, b: TrackId, i: nat)
    requires i <= |rest|
    ensures (rest + [a])[..i] + [b] + (rest + [a])[i..] == rest[..i] + [b] + rest[i..] + [a]
  {
  }

  /** A removal commutes with a move of another track, not to the very end, if and only if
      after the move the removed track is behind the moved one. */
  lemma RemoveMoveCommuteIff(s: seq<TrackId>, a: TrackId, b: TrackId, p: int)
    requires Distinct(s) && a in s && b in s && a != b && 1 <= p < |s|
    ensures Commute(s, TrackRemoved(a), TrackMoved(b, p)) <==> p < Shifted(At(s, a), At(s, b), p)
  {
    var w, u, r, v := BothOrders(s, a, b, p);
    RemoveThenMove(s, w, u, r, v, a, b, p);
  }

  /** With a move to the very end, if and only if the moved track already stands last but
      for the removed one. */
  lemma RemoveMoveLastCommuteIff(s: seq<TrackId>, a: TrackId, b: TrackId)
    requires Distinct(s) && a in s && b in s && a != b
    ensures Commute(s, TrackRemoved(a), TrackMoved(b, |s|)) <==>
            At(s, b) == |s| || (At(s, a) == |s| && At(s, b) == |s| - 1)
  {
    var w, r, v := BothOrdersAtEnd(s, a, b);
    RemoveThenLast(s, w, r, v, a, b);
  }

  lemma BothOrders(s: seq<TrackId>, a: TrackId, b: TrackId, p: int)
    returns (w: seq<TrackId>, u: seq<TrackId>, r: seq<TrackId>, v: seq<TrackId>)
    requires Distinct(s) && a in s && b in s && a != b && 1 <= p < |s|
    ensures Removes(s, w, a) && Moves(w, u, b, p) && Moves(s, r, b, p) && Removes(r, v, a)
    ensures Commute(s, TrackRemoved(a), TrackMoved(b, p)) <==> u == v
  {
    w := AfterRemoval(s, a);
    u := AfterMove(w, b, p);
    r := AfterMove(s, b, p);
    v := AfterRemoval(r, a);
  }

  lemma BothOrdersAtEnd(s: seq<TrackId>, a: TrackId, b: TrackId)
    returns (w: seq<TrackId>, r: seq<TrackId>, v: seq<TrackId>)
    requires Distinct(s) && a in s && b in s && a != b
    ensures Removes(s, w, a) && Moves(s, r, b, |s|) && Removes(r, v, a)
    ensures Commute(s, TrackRemoved(a), TrackMoved(b, |s|)) <==> w == v
  {
    w := AfterRemoval(s, a);
    OutOfRange(w, b, |s|);
    r := AfterMove(s, b, |s|);
    v := AfterRemoval(r, a);
  }

  lemma OutOfRange(s: seq<TrackId>, b: TrackId, p: int)
    requires Distinct(s) && b in s && !(1 <= p <= |s|)
    ensures OnEvent(s, TrackMoved(b, p)) == s
  {
    WithoutElements(s, b);
  }

  /** From s by w to u, the removal first, and by r to v, the move first. */
  lemma RemoveThenMove(s: seq<TrackId>, w: seq<TrackId>, u: seq<TrackId>, r: seq<TrackId>, v: seq<TrackId>,
                       a: TrackId, b: TrackId, p: int)
    requires a != b && Removes(s, w, a) && Moves(w, u, b, p) && Moves(s, r, b, p) && Removes(r, v, a)
    ensures u == v <==> p < Shifted(At(s, a), At(s, b), p)
  {
    SamePositions(u, v);
    Different(r, a, b);
    if p < Shifted(At(s, a), At(s, b), p) {
      forall k | k in u ensures At(u, k) == At(v, k) {
        Different(s, k, a);
        if k != b {
          Different(s, k, b);
        }
        RestFollows(At(s, k), At(s, a), At(s, b), p);
      }
    } else {
      assert b in u && At(u, b) == p && At(v, b) == p - 1;
    }
  }

  /** Removal first on the left, move first on the right. */
  lemma RestFollows(x: int, pa: int, pb: int, p: int)
    requires x != pa && pa != pb && p < Shifted(pa, pb, p)
    ensures Shifted(if x > pa then x - 1 else x, if pb > pa then pb - 1 else pb, p)
            == (if Shifted(x, pb, p) > Shifted(pa, pb, p) then Shifted(x, pb, p) - 1 else Shifted(x, pb, p))
  {
  }

  /** The same for a move to the very end, which has no effect on the shorter list. */
  lemma RemoveThenLast(s: seq<TrackId>, w: seq<TrackId>, r: seq<TrackId>, v: seq<TrackId>, a: TrackId, b: TrackId)
    requires a != b && Removes(s, w, a) && Moves(s, r, b, |s|) && Removes(r, v, a)
    ensures w == v <==> At(s, b) == |s| || (At(s, a) == |s| && At(s, b) == |s| - 1)
  {
    SamePositions(w, v);
    Different(s, a, b);
    Different(r, a, b);
    assert b in w && At(v, b) == |s| - 1;
    if At(s, b) == |s| || (At(s, a) == |s| && At(s, b) == |s| - 1) {
      forall k | k in w ensures At(w, k) == At(v, k) {
        Different(s, k, a);
        if k != b {
          Different(s, k, b);
        }
      }
    }
  }
}
