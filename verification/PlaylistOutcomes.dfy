/** When each playlist request succeeds, how it fails otherwise, and which tracks a
    playlist has after a whole history. */
module PlaylistOutcomes {
  import opened Wire
  import opened PlaylistModel
  import opened PlaylistRuns

  // ---------- one request ----------

  /** The answer of a request that reaches the table is determined by the table. */
  lemma OutcomeIff(t: Table, p: PlaylistId, r: Request, t': Table, o: Outcome)
    requires Step(t, p, r, t', o) && o != Refused && (r.Add? ==> r.id !in t)
    ensures match r
            case Add(_, external) => (o == Ok <==> !Taken(t, p, external)) && (o == Duplicate <==> Taken(t, p, external))
            case Remove(id) => (o == Ok <==> id in TracksOf(t, p)) && (o == NotFound <==> id !in TracksOf(t, p))
            case Move(id, pos) =>
              && (o == BadRequest <==> pos < 1)
              && (o == OutOfRange <==> pos >= 1 && pos > |TracksOf(t, p)|)
              && (o == NotFound <==> 1 <= pos <= |TracksOf(t, p)| && id !in TracksOf(t, p))
              && (o == Ok <==> 1 <= pos <= |TracksOf(t, p)| && id in TracksOf(t, p))
    ensures o != Ok ==> t' == t
  {
  }

  /** Which rows there are after a request, and that a row keeps its playlist and its
      external id for good. */
  lemma RowsStep(t: Table, p: PlaylistId, r: Request, t': Table, o: Outcome, k: TrackId)
    requires Step(t, p, r, t', o)
    ensures k in t' <==> (o == Ok && r.Add? && r.id == k) || (k in t && !(o == Ok && r == Remove(k)))
    ensures o == Ok && r.Add? && r.id == k ==> k !in t && t'[k].playlist == p && t'[k].external == r.external
    ensures k in t && k in t' ==> t'[k].playlist == t[k].playlist && t'[k].external == t[k].external
    ensures o == Ok && r == Remove(k) ==> k in t && t[k].playlist == p
  {
    if o == Ok && r.Remove? {
      var s :| Ordered(t - {r.id}, p, s) && t' == Renumbered(t - {r.id}, s);
    }
  }

  // ---------- histories ----------

  /** No playlist has two tracks with one external id. */
  ghost predicate ExternalsUnique(t: Table) {
    forall j, k :: j in t && k in t && SameExternal(t[j], t[k]) ==> j == k
  }

  predicate SameExternal(a: Row, b: Row) {
    a.playlist == b.playlist && a.external == b.external
  }

  lemma UniqueStep(t: Table, p: PlaylistId, r: Request, t': Table, o: Outcome)
    requires ExternalsUnique(t) && Step(t, p, r, t', o)
    ensures ExternalsUnique(t')
  {
    forall j, k | j in t' && k in t' && SameExternal(t'[j], t'[k]) ensures j == k {
      RowsStep(t, p, r, t', o, j);
      RowsStep(t, p, r, t', o, k);
      if j in t && k in t {
        assert SameExternal(t[j], t[k]);
      }
    }
  }

  /** Along every history no playlist ever has the same track twice. */
  lemma {:induction false} NoTrackTwice(ts: seq<Table>, es: seq<Entry>, n: nat)
    requires History(ts, es) && ExternalsUnique(ts[0]) && n < |ts|
    ensures ExternalsUnique(ts[n])
  {
    if n > 0 {
      NoTrackTwice(ts, es, n - 1);
      var e := es[n - 1];
      UniqueStep(ts[n - 1], e.p, e.r, ts[n], e.o);
    }
  }

  /** Track k of playlist p was added before n, with this external id, and not removed since. */
  ghost predicate AddedSince(es: seq<Entry>, n: nat, p: PlaylistId, k: TrackId, external: string)
    requires n <= |es|
  {
    exists i :: 0 <= i < n && es[i] == Entry(p, Add(k, external), Ok)
                && forall j :: i < j < n ==> es[j] != Entry(p, Remove(k), Ok)
  }

  /** A playlist has exactly the tracks that were added to it and not removed since, under
      the external ids with which they were added. */
  lemma {:induction false} TracksAreThoseAdded(ts: seq<Table>, es: seq<Entry>, n: nat, p: PlaylistId, k: TrackId, external: string)
    requires History(ts, es) && ts[0] == map[] && n < |ts|
    ensures k in ts[n] && ts[n][k].playlist == p && ts[n][k].external == external <==> AddedSince(es, n, p, k, external)
  {
    if n > 0 {
      TracksAreThoseAdded(ts, es, n - 1, p, k, external);
      var e := es[n - 1];
      RowsStep(ts[n - 1], e.p, e.r, ts[n], e.o, k);
      AddedStep(es, n, p, k, external);
    }
  }

  lemma AddedStep(es: seq<Entry>, n: nat, p: PlaylistId, k: TrackId, external: string)
    requires 0 < n <= |es|
    ensures AddedSince(es, n, p, k, external) <==>
            || es[n - 1] == Entry(p, Add(k, external), Ok)
            || (AddedSince(es, n - 1, p, k, external) && es[n - 1] != Entry(p, Remove(k), Ok))
  {
    if AddedSince(es, n - 1, p, k, external) && es[n - 1] != Entry(p, Remove(k), Ok) {
      var i :| 0 <= i < n - 1 && es[i] == Entry(p, Add(k, external), Ok)
        && forall j :: i < j < n - 1 ==> es[j] != Entry(p, Remove(k), Ok);
      assert forall j :: i < j < n ==> es[j] != Entry(p, Remove(k), Ok);
    }
  }
}
