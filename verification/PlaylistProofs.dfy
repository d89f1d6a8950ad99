/** The position arithmetic refines operations on lists, density is kept by every
    atomic request, and a replica fed by the events converges. */
module PlaylistProofs {
  import opened Wire
  import opened Sequences
  import opened PlaylistModel

  // ---------- tables and lists ----------

  /** A table stands for at most one list. */
  lemma RepresentsUnique(t: Table, p: PlaylistId, s1: seq<TrackId>, s2: seq<TrackId>)
    requires Represents(t, p, s1) && Represents(t, p, s2)
    ensures s1 == s2
  {
    LengthIsCount(t, p, s1);
    LengthIsCount(t, p, s2);
    forall i | 0 <= i < |s1| ensures s1[i] == s2[i] {
      assert s1[i] in s2;
      assert s2[IndexOf(s2, s1[i])] == s1[i];
    }
  }

  lemma LengthIsCount(t: Table, p: PlaylistId, s: seq<TrackId>)
    requires Lists(t, p, s)
    ensures |s| == |TracksOf(t, p)|
  {
    assert Elements(s) == TracksOf(t, p);
    DistinctSize(s);
  }

  /** Every ordered answer over dense positions is the list itself. */
  lemma OrderedIsList(t: Table, p: PlaylistId, s: seq<TrackId>)
    requires Dense(t, p) && Ordered(t, p, s)
    ensures Represents(t, p, s)
  {
    LengthIsCount(t, p, s);
    forall i | 0 <= i < |s| ensures Pos(t, s[i]) == i + 1 {
      AtLeast(t, p, s, i);
      AtMost(t, p, s, i);
    }
  }

  lemma {:induction false} AtLeast(t: Table, p: PlaylistId, s: seq<TrackId>, i: nat)
    requires Dense(t, p) && Ordered(t, p, s) && i < |s|
    ensures Pos(t, s[i]) >= i + 1
  {
    assert s[i] in TracksOf(t, p);
    if i > 0 {
      AtLeast(t, p, s, i - 1);
      assert s[i - 1] in TracksOf(t, p);
    }
  }

  lemma {:induction false} AtMost(t: Table, p: PlaylistId, s: seq<TrackId>, i: nat)
    requires Dense(t, p) && Ordered(t, p, s) && i < |s| == |TracksOf(t, p)|
    ensures Pos(t, s[i]) <= i + 1
    decreases |s| - i
  {
    assert s[i] in TracksOf(t, p);
    if i + 1 < |s| {
      AtMost(t, p, s, i + 1);
      assert s[i + 1] in TracksOf(t, p);
    }
  }

  lemma {:induction false} OrderedExists(t: Table, p: PlaylistId, ks: set<TrackId>) returns (s: seq<TrackId>)
    requires ks <= TracksOf(t, p)
    ensures Distinct(s) && (forall k :: k in s <==> k in ks)
    ensures forall i, j :: 0 <= i < j < |s| ==> Pos(t, s[i]) <= Pos(t, s[j])
  {
    if ks == {} {
      s := [];
    } else {
      MaxExists(t, ks);
      var m :| m in ks && forall j :: j in ks ==> t[j].position <= t[m].position;
      var rest := OrderedExists(t, p, ks - {m});
      s := rest + [m];
    }
  }

  /** Positions are exactly 1..n if and only if the table stands for a list. */
  lemma DenseMeansList(t: Table, p: PlaylistId)
    ensures Dense(t, p) <==> exists s :: Represents(t, p, s)
  {
    if Dense(t, p) {
      var s := OrderedExists(t, p, TracksOf(t, p));
      OrderedIsList(t, p, s);
    }
    forall s | Represents(t, p, s) ensures Dense(t, p) {
      ListIsDense(t, p, s);
    }
  }

  lemma ListIsDense(t: Table, p: PlaylistId, s: seq<TrackId>)
    requires Represents(t, p, s)
    ensures Dense(t, p) && Ordered(t, p, s)
  {
    LengthIsCount(t, p, s);
    forall k | k in TracksOf(t, p) ensures t[k].position == IndexOf(s, k) + 1 {
      assert k in s;
    }
  }

  // ---------- AddTrack ----------

  lemma MaxIsLength(t: Table, p: PlaylistId, s: seq<TrackId>)
    requires Represents(t, p, s)
    ensures MaxPosition(t, p) == |s|
  {
    if s != [] {
      var last := s[|s| - 1];
      assert last in TracksOf(t, p);
      forall k | k in TracksOf(t, p) ensures t[k].position <= t[last].position {
        assert k in s && t[k].position == IndexOf(s, k) + 1;
      }
    }
  }

  lemma AddAppends(t: Table, p: PlaylistId, s: seq<TrackId>, id: TrackId, external: string)
    requires Represents(t, p, s) && id !in t
    ensures Represents(t[id := Row(p, external, MaxPosition(t, p) + 1)], p, s + [id])
  {
    MaxIsLength(t, p, s);
    var t' := t[id := Row(p, external, |s| + 1)];
    assert id !in s;
    assert TracksOf(t', p) == TracksOf(t, p) + {id};
  }

  /** An insert keeps the positions exactly 1..n if and only if the maximum that the
      subquery saw is still the maximum. */
  lemma InsertKeepsDenseIff(t: Table, p: PlaylistId, s: seq<TrackId>, id: TrackId, external: string, seen: int)
    requires Represents(t, p, s) && id !in t
    ensures Dense(t[id := Row(p, external, seen + 1)], p) <==> seen == MaxPosition(t, p)
  {
    MaxIsLength(t, p, s);
    LengthIsCount(t, p, s);
    var t' := t[id := Row(p, external, seen + 1)];
    assert TracksOf(t', p) == TracksOf(t, p) + {id};
    if seen == |s| {
      AddAppends(t, p, s, id, external);
      ListIsDense(t', p, s + [id]);
    } else if 1 <= seen + 1 <= |s| {
      assert s[seen] in TracksOf(t', p) && Pos(t', s[seen]) == t'[id].position && s[seen] != id;
    } else {
      assert id in TracksOf(t', p) && |TracksOf(t', p)| == |s| + 1;
    }
  }

  /** Two AddTracks that both read the maximum before either inserts leave a repeat. */
  lemma RacingAddsCollide(t: Table, p: PlaylistId, s: seq<TrackId>, a: TrackId, b: TrackId, ea: string, eb: string)
    requires Represents(t, p, s) && a !in t && b !in t && a != b
    ensures var seen := MaxPosition(t, p);
            !Dense(t[a := Row(p, ea, seen + 1)][b := Row(p, eb, seen + 1)], p)
  {
    var seen := MaxPosition(t, p);
    var t1 := t[a := Row(p, ea, seen + 1)];
    AddAppends(t, p, s, a, ea);
    MaxIsLength(t, p, s);
    MaxIsLength(t1, p, s + [a]);
    InsertKeepsDenseIff(t1, p, s + [a], b, eb, seen);
  }

  // ---------- RemoveTrack ----------

  /** Self-repair. Whatever the positions were, the recompaction makes them exactly
      1..n, and rows whose positions differed keep their order. */
  lemma RenumberRepairs(t: Table, p: PlaylistId, s: seq<TrackId>)
    requires Ordered(t, p, s)
    ensures Represents(Renumbered(t, s), p, s) && Dense(Renumbered(t, s), p)
    ensures forall j, k :: j in TracksOf(t, p) && k in TracksOf(t, p) && t[j].position < t[k].position ==>
                             Renumbered(t, s)[j].position < Renumbered(t, s)[k].position
  {
    var t' := Renumbered(t, s);
    assert TracksOf(t', p) == TracksOf(t, p);
    forall i | 0 <= i < |s| ensures Pos(t', s[i]) == i + 1 {
      assert s[i] in TracksOf(t, p);
      IndexUnique(s, i);
    }
    ListIsDense(t', p, s);
    forall j, k | j in TracksOf(t, p) && k in TracksOf(t, p) && t[j].position < t[k].position
      ensures t'[j].position < t'[k].position
    {
      assert Pos(t, s[IndexOf(s, j)]) < Pos(t, s[IndexOf(s, k)]);
    }
  }

  lemma WithoutElements(s: seq<TrackId>, k: TrackId)
    requires Distinct(s) && k in s
    ensures Distinct(Without(s, k)) && |Without(s, k)| == |s| - 1
    ensures forall j :: j in Without(s, k) <==> j in s && j != k
  {
    var i := IndexOf(s, k);
    var r := Without(s, k);
    WithoutAt(s, i, r);
    forall j | j in s && j != k ensures j in r {
      var m := IndexOf(s, j);
      assert j == if m < i then r[m] else r[m - 1];
    }
  }

  /** The list without its element at i. */
  lemma WithoutAt(s: seq<TrackId>, i: nat, r: seq<TrackId>)
    requires Distinct(s) && i < |s| && r == s[..i] + s[i + 1..]
    ensures |r| == |s| - 1 && forall m :: 0 <= m < |r| ==> r[m] == if m < i then s[m] else s[m + 1]
    ensures Distinct(r) && s[i] !in r
  {
  }

  lemma RemoveDeletes(t: Table, p: PlaylistId, s: seq<TrackId>, id: TrackId, order: seq<TrackId>)
    requires Represents(t, p, s) && id in s && Ordered(t - {id}, p, order)
    ensures order == Without(s, id) && Represents(Renumbered(t - {id}, order), p, Without(s, id))
  {
    var rest := Without(s, id);
    WithoutElements(s, id);
    assert TracksOf(t - {id}, p) == TracksOf(t, p) - {id};
    forall i, j | 0 <= i < j < |rest| ensures Pos(t, rest[i]) < Pos(t, rest[j]) {
      var c := IndexOf(s, id);
      assert rest[i] == s[if i < c then i else i + 1] && rest[j] == s[if j < c then j else j + 1];
    }
    SameOrder(t - {id}, p, rest, order);
    RenumberRepairs(t - {id}, p, order);
  }

  /** With distinct positions there is only one ordered answer. */
  lemma SameOrder(t: Table, p: PlaylistId, s1: seq<TrackId>, s2: seq<TrackId>)
    requires Lists(t, p, s1) && Ordered(t, p, s2)
    requires forall i, j :: 0 <= i < j < |s1| ==> Pos(t, s1[i]) < Pos(t, s1[j])
    ensures s1 == s2
  {
    var before := (j, k) => Pos(t, j) < Pos(t, k);
    assert Elements(s1) == Elements(s2) == TracksOf(t, p);
    forall i, j | 0 <= i < j < |s2| ensures before(s2[i], s2[j]) {
      assert s2[i] in TracksOf(t, p) && s2[j] in TracksOf(t, p);
      var x, y := IndexOf(s1, s2[i]), IndexOf(s1, s2[j]);
      assert s1[x] == s2[i] && s1[y] == s2[j];
    }
    SortedUnique(before, s1, s2);
  }

  // ---------- MoveTrack ----------

  lemma SplicedAt(s: seq<TrackId>, c: nat, d: nat, m: nat)
    requires c < |s| && d < |s| && m < |s|
    ensures 1 <= Shifted(m + 1, d + 1, c + 1) <= |s|
    ensures Spliced(s, c, d)[m] == s[Shifted(m + 1, d + 1, c + 1) - 1]
  {
    var rest := s[..c] + s[c + 1..];
    assert Spliced(s, c, d)[m] == if m < d then rest[m] else if m == d then s[c] else rest[m - 1];
  }

  lemma ReinsertIsSplice(s: seq<TrackId>, k: TrackId, pos: int)
    requires k in s && 1 <= pos <= |s|
    ensures Reinsert(s, k, pos) == Spliced(s, IndexOf(s, k), pos - 1)
  {
  }

  /** The spliced list has the same elements, each once. */
  lemma SplicedLists(t: Table, p: PlaylistId, s: seq<TrackId>, c: nat, d: nat)
    requires Lists(t, p, s) && c < |s| && d < |s|
    ensures Lists(t, p, Spliced(s, c, d))
  {
    SplicedDistinct(s, c, d);
    forall k ensures k in Spliced(s, c, d) <==> k in s {
      SplicedElement(s, c, d, k);
    }
  }

  lemma SplicedDistinct(s: seq<TrackId>, c: nat, d: nat)
    requires Distinct(s) && c < |s| && d < |s|
    ensures Distinct(Spliced(s, c, d))
  {
    forall i, j | 0 <= i < j < |s| ensures Spliced(s, c, d)[i] != Spliced(s, c, d)[j] {
      SplicedAt(s, c, d, i);
      SplicedAt(s, c, d, j);
    }
  }

  lemma SplicedElement(s: seq<TrackId>, c: nat, d: nat, k: TrackId)
    requires c < |s| && d < |s|
    ensures k in Spliced(s, c, d) <==> k in s
  {
    var r := Spliced(s, c, d);
    if k in r {
      var m := IndexOf(r, k);
      SplicedAt(s, c, d, m);
    }
    if k in s {
      var i := IndexOf(s, k);
      SplicedAt(s, c, d, Shifted(i + 1, c + 1, d + 1) - 1);
    }
  }

  /** MoveTrack on the rows is "take the track out and insert it at newPos" on the list. */
  lemma MoveRefinesReinsert(t: Table, p: PlaylistId, s: seq<TrackId>, id: TrackId, newPos: int)
    requires Represents(t, p, s) && id in s && 1 <= newPos <= |s|
    ensures Represents(Moved(t, p, id, newPos), p, Reinsert(s, id, newPos))
  {
    var t' := Moved(t, p, id, newPos);
    var c := IndexOf(s, id);
    var r := Reinsert(s, id, newPos);
    ReinsertIsSplice(s, id, newPos);
    SplicedLists(t, p, s, c, newPos - 1);
    MoveKeepsTracks(t, p, id, newPos, r);
    forall m | 0 <= m < |r| ensures Pos(t', r[m]) == m + 1 {
      SplicedPosition(t, p, s, id, newPos, m);
    }
  }

  lemma SplicedPosition(t: Table, p: PlaylistId, s: seq<TrackId>, id: TrackId, newPos: int, m: nat)
    requires Represents(t, p, s) && id in s && 1 <= newPos <= |s| && m < |s|
    ensures id in t && Pos(Moved(t, p, id, newPos), Spliced(s, IndexOf(s, id), newPos - 1)[m]) == m + 1
  {
    var c := IndexOf(s, id);
    SplicedAt(s, c, newPos - 1, m);
    var q := Unshifted(m + 1, c + 1, newPos);
    assert q == Shifted(m + 1, newPos, c + 1);
    MovedPosition(t, p, s, id, newPos, q - 1);
  }

  lemma MoveKeepsTracks(t: Table, p: PlaylistId, id: TrackId, newPos: int, r: seq<TrackId>)
    requires id in t
    ensures TracksOf(Moved(t, p, id, newPos), p) == TracksOf(t, p)
    ensures Lists(t, p, r) ==> Lists(Moved(t, p, id, newPos), p, r)
  {
  }

  lemma MovedPosition(t: Table, p: PlaylistId, s: seq<TrackId>, id: TrackId, newPos: int, i: nat)
    requires Represents(t, p, s) && id in s && i < |s|
    ensures id in t && Pos(Moved(t, p, id, newPos), s[i]) == Shifted(i + 1, IndexOf(s, id) + 1, newPos)
  {
    assert s[i] in TracksOf(t, p) && id in TracksOf(t, p);
    IndexUnique(s, i);
    assert Pos(t, s[IndexOf(s, id)]) == IndexOf(s, id) + 1;
  }

  /** The inverse of Shifted: moving back. */
  function Unshifted(position: int, cur: int, newPos: int): (q: int)
    requires 1 <= cur && 1 <= newPos && 1 <= position
    ensures Shifted(q, cur, newPos) == position && 1 <= q
    ensures q == Shifted(position, newPos, cur)
  {
    Shifted(position, newPos, cur)
  }

  /** Only rows between the old and the new position change, each by exactly one. */
  lemma MoveChangesOnlyBetween(t: Table, p: PlaylistId, id: TrackId, newPos: int, k: TrackId)
    requires id in t && k in t && k != id
    ensures k in Moved(t, p, id, newPos)
    ensures var before, after, cur := t[k], Moved(t, p, id, newPos)[k], t[id].position;
            && after == before.(position := after.position)
            && (before.playlist != p ==> after == before)
            && (before.position < cur && before.position < newPos ==> after == before)
            && (before.position > cur && before.position > newPos ==> after == before)
            && (before.playlist == p && cur < before.position <= newPos ==> after.position == before.position - 1)
            && (before.playlist == p && newPos <= before.position < cur ==> after.position == before.position + 1)
  {
  }

  /** Moving a track back to its old position restores the table. */
  lemma MoveBackRestores(t: Table, p: PlaylistId, id: TrackId, newPos: int)
    requires Dense(t, p) && id in TracksOf(t, p) && 1 <= newPos <= |TracksOf(t, p)|
    ensures Moved(Moved(t, p, id, newPos), p, id, t[id].position) == t
  {
    var cur := t[id].position;
    var t1 := Moved(t, p, id, newPos);
    var t2 := Moved(t1, p, id, cur);
    assert t2.Keys == t.Keys;
    forall k | k in t ensures t2[k] == t[k] {
      if k != id && t[k].playlist == p {
        assert k in TracksOf(t, p);
        var q := Unshifted(Shifted(t[k].position, cur, newPos), cur, newPos);
      }
    }
  }
}
