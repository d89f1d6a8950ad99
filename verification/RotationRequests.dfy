/** What becomes of one request through the interceptor, over whole runs. */
module RotationRequests {
  import opened Wire
  import opened TokenModel
  import opened RotationModel
  import opened RotationExact

  // ---------- one step ----------

  /** How far a request is: it is retried at most once, and its handler is completed
      at most once, because it only moves forward. */
  function Progress(pc: Pc): nat {
    match pc
    case Sent => 0
    case WaitingOn(_) => 1
    case Leading(phase) =>
      (match phase
       case ReadStored => 1
       case Posting(_) => 2
       case SavingAccess(_) => 3
       case SavingRefresh(_) => 4
       case RetryingFirst(_) => 9
       case ClearingAccess => 5
       case ClearingRefresh => 6
       case ExpiringAccess => 7
       case ExpiringRefresh => 8)
    case Retrying(_) => 9
    case Resolved => 10
    case Failed => 10
    case Hung => 10
  }

  /** The request that an action is about. */
  function ActsOn(a: Action): Option<ReqId> {
    match a
    case Answered(r) => Some(r)
    case OtherError(r) => Some(r)
    case Got401(r) => Some(r)
    case LeaderRead(r) => Some(r)
    case LeaderReadFails(r) => Some(r)
    case LeaderAnswer(r) => Some(r)
    case LeaderGivesUp(r) => Some(r)
    case LeaderSaveAccess(r) => Some(r)
    case LeaderSaveRefresh(r) => Some(r)
    case LeaderSaveFails(r) => Some(r)
    case LeaderRetryOk(r) => Some(r)
    case LeaderRetryFails(r) => Some(r)
    case LeaderClear(r) => Some(r)
    case LeaderClearFails(r) => Some(r)
    case LeaderExpireFails(r) => Some(r)
    case WaiterResume(r) => Some(r)
    case WaiterRetry(r, _) => Some(r)
    case _ => None
  }

  lemma OthersStay(w: World, a: Action, r: ReqId)
    requires Enabled(w, a) && !a.Crash? && r < |w.reqs| && ActsOn(a) != Some(r)
    ensures r < |Apply(w, a).reqs| && Apply(w, a).reqs[r] == w.reqs[r]
  {
  }

  lemma OneStepForward(w: World, a: Action, r: ReqId)
    requires Enabled(w, a) && !a.Crash? && r < |w.reqs|
    ensures r < |Apply(w, a).reqs|
    ensures var before, after := w.reqs[r].pc, Apply(w, a).reqs[r].pc;
            && (after == before || Progress(after) > Progress(before))
            && (after.Hung? && !before.Hung? <==>
                !before.Hung? && (a == LeaderRetryFails(r) || a == LeaderClearFails(r)))
  {
    if ActsOn(a) != Some(r) {
      OthersStay(w, a, r);
    } else if a.LeaderClear? {
      assert Apply(w, a) == Clear(w, r);
    }
  }

  // ---------- runs of one life of the app ----------

  /** ws[i] is the world before action i, ws[i + 1] the one after it; the app is not killed. */
  ghost predicate Life(ws: seq<World>, acts: seq<Action>) {
    && |ws| == |acts| + 1
    && (forall i {:trigger acts[i]} :: 0 <= i < |acts| ==>
          Enabled(ws[i], acts[i]) && ws[i + 1] == Apply(ws[i], acts[i]) && !acts[i].Crash?)
  }

  predicate InRetry(pc: Pc) {
    pc.Retrying? || (pc.Leading? && pc.phase.RetryingFirst?)
  }

  predicate IsCompleted(pc: Pc) {
    pc.Resolved? || pc.Failed?
  }

  /** Action number i makes request r enter its retry. */
  predicate EntersRetry(ws: seq<World>, i: nat, r: ReqId)
    requires i + 1 < |ws|
  {
    && r < |ws[i + 1].reqs| && InRetry(ws[i + 1].reqs[r].pc)
    && (r < |ws[i].reqs| ==> !InRetry(ws[i].reqs[r].pc))
  }

  /** Action number i completes the handler of request r. */
  predicate Completes(ws: seq<World>, i: nat, r: ReqId)
    requires i + 1 < |ws|
  {
    && r < |ws[i + 1].reqs| && IsCompleted(ws[i + 1].reqs[r].pc)
    && (r < |ws[i].reqs| ==> !IsCompleted(ws[i].reqs[r].pc))
  }

  lemma {:induction false} Forward(ws: seq<World>, acts: seq<Action>, i: nat, j: nat, r: ReqId)
    requires Life(ws, acts) && i <= j < |ws| && r < |ws[i].reqs|
    ensures r < |ws[j].reqs|
    ensures ws[j].reqs[r].pc == ws[i].reqs[r].pc || Progress(ws[j].reqs[r].pc) > Progress(ws[i].reqs[r].pc)
    decreases j
  {
    if i < j {
      Forward(ws, acts, i, j - 1, r);
      OneStepForward(ws[j - 1], acts[j - 1], r);
    }
  }

  /** A request is retried at most once and its handler completed at most once, and it
      is not retried any more once it is completed. */
  lemma RetriedAndCompletedOnce(ws: seq<World>, acts: seq<Action>, i: nat, j: nat, r: ReqId)
    requires Life(ws, acts) && i < j < |acts|
    ensures !(EntersRetry(ws, i, r) && EntersRetry(ws, j, r))
    ensures !(Completes(ws, i, r) && Completes(ws, j, r))
    ensures !(Completes(ws, i, r) && EntersRetry(ws, j, r))
  {
    if r < |ws[i + 1].reqs| {
      Forward(ws, acts, i + 1, j, r);
      OneStepForward(ws[j], acts[j], r);
    }
  }

  predicate LeavesHanging(a: Action, r: ReqId) {
    a == LeaderRetryFails(r) || a == LeaderClearFails(r)
  }

  /** A handler is left uncompleted for good exactly when its retry failed after a good
      refresh, or a delete in the catch block failed. */
  lemma {:induction false} HungIff(ws: seq<World>, acts: seq<Action>, n: nat, r: ReqId)
    requires Life(ws, acts) && ws[0].reqs == [] && n < |ws|
    ensures r < |ws[n].reqs| && ws[n].reqs[r].pc.Hung? <==> exists i :: 0 <= i < n && LeavesHanging(acts[i], r)
    decreases n
  {
    if n > 0 {
      HungIff(ws, acts, n - 1, r);
      var w, a := ws[n - 1], acts[n - 1];
      if r < |w.reqs| {
        OneStepForward(w, a, r);
      } else {
        NewRequest(w, a, r);
      }
    }
  }

  lemma NewRequest(w: World, a: Action, r: ReqId)
    requires Enabled(w, a) && !a.Crash? && r >= |w.reqs|
    ensures r < |Apply(w, a).reqs| ==> Apply(w, a).reqs[r].pc.Sent?
    ensures !LeavesHanging(a, r)
  {
  }

  /** A run after which a handler is never completed, although the refresh went well. */
  lemma GoodRefreshHangs() returns (w: World)
    ensures Possible(w) && |w.reqs| == 1 && w.reqs[0].pc.Hung? && w.stored == Some(11) && Active(w.db, 11)
  {
    var w0 := Posted();
    var w1 := Do(w0, ServeRefresh(0, 11, 0, NoFault));
    assert w1.posts[0].answer == Got(11) && Active(w1.db, 11);
    var w2 := Do(w1, LeaderAnswer(0));
    assert w2.reqs[0].pc == Leading(SavingAccess(11)) && w2.db == w1.db;
    w := SaveAndFail(w2);
  }

  lemma SaveAndFail(w2: World) returns (w: World)
    requires Possible(w2) && |w2.reqs| == 1 && w2.reqs[0].pc == Leading(SavingAccess(11))
    ensures Possible(w) && |w.reqs| == 1 && w.reqs[0].pc.Hung? && w.stored == Some(11) && w.db == w2.db
  {
    var w3 := Do(w2, LeaderSaveAccess(0));
    assert w3.reqs[0].pc == Leading(SavingRefresh(11));
    var w4 := Do(w3, LeaderSaveRefresh(0));
    assert w4.reqs[0].pc == Leading(RetryingFirst(11)) && w4.stored == Some(11);
    w := Do(w4, LeaderRetryFails(0));
  }
}
