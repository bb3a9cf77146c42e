/**
 Every request is answered: while a handler is busy, all threads together can make only so many steps.
 */
module Progress {
  import Cobs
  import opened Protocol
  import opened Service
  import C = CoreMachine
  import D = Dispatch
  import R = FrameReader
  import W = JobWorker

  /** Steps the handler has before it, a stop it will push included. */
  function HandlerSteps(h: Handler): nat {
    match h
    case Ready => 0
    case StartWait(_, _) => 6
    case StartStop(_, _) => 5
    case StartJoin(_, _) => 4
    case StartCreate(_, _) => 3
    case StartArm(_, _, _) => 2
    case StartSpawn(_, _, _) => 1
    case StopFlag(_) => 7
    case StopJoin(_) => 6
    case StopSubmit(_) => 5
    case StopWait(_) => 1
    case CommandWait(_) => 1
  }

  /** Steps the dispatcher's worker has before it: three for every queued task. */
  function HubSteps(h: D.Hub): nat {
    3 * |h.queue| + match h.phase case Taken(_) => 2 case Answered(_, _) => 1 case _ => 0
  }

  /** Steps the job's thread has before it, and the worker for its finish. */
  function ThreadSteps(j: W.Job): int {
    if j.pc.Over? then 0 else W.Rank(j) + 3
  }

  function Remaining(w: World): int {
    HandlerSteps(w.handler) + HubSteps(w.hub) + ThreadSteps(w.job)
  }

  /** The clock moves and no job is under way. */
  predicate IdleTick(w: World, e: Event) {
    e == Work(W.Tick) && w.job.pc.Over?
  }

  ghost predicate Calm(e: Event) {
    e.Work? ==> W.Calm(e.jobEvent)
  }

  // ---------- jobs stay undisturbed ----------

  lemma JobStep(j: W.Job, f: W.Event)
    requires W.Undisturbed(j) && W.Enabled(j, f) && W.Calm(f)
    ensures W.Undisturbed(W.Apply(j, f))
    ensures f.RequestStop? ==> ThreadSteps(W.Apply(j, f)) == ThreadSteps(j)
    ensures !f.RequestStop? && !j.pc.Over? ==> ThreadSteps(W.Apply(j, f)) < ThreadSteps(j)
    ensures f.Submit? ==> ThreadSteps(W.Apply(j, f)) + 4 <= ThreadSteps(j)
    ensures f.Tick? && j.pc.Over? ==> ThreadSteps(W.Apply(j, f)) == ThreadSteps(j)
  {
    hide W.Inv, W.Apply, W.Enabled, W.Late, W.Phase, W.Rank, W.Span;
    var k := W.Apply(j, f);
    if j.pc.Over? {
      OverStep(j, f);
    } else {
      W.Progress(j, f);
      W.PhaseBounds(j);
      W.PhaseBounds(k);
      W.SameSpan(j, f);
      W.RankNonNegative(j);
      W.RankNonNegative(k);
      PcStep(j, f);
      if f.RequestStop? {
        W.SameRank(j, k);
      } else {
        W.RankFalls(j, k);
      }
    }
  }

  lemma OverStep(j: W.Job, f: W.Event)
    requires W.Undisturbed(j) && j.pc.Over? && W.Enabled(j, f)
    ensures W.Undisturbed(W.Apply(j, f)) && W.Apply(j, f).pc.Over? && !f.Submit?
  {
    W.StepInv(j, f);
  }

  lemma PcStep(j: W.Job, f: W.Event)
    requires W.Enabled(j, f) && !j.pc.Over?
    ensures f.Submit? <==> W.Apply(j, f).pc.Over?
    ensures f.Submit? ==> W.Rank(j) == 1
  {
    hide R.Settle, Cobs.Decode;
  }

  lemma StepUndisturbed(w: World, e: Event)
    requires Inv(w) && W.Undisturbed(w.job) && Enabled(w, e) && Calm(e)
    ensures W.Undisturbed(Apply(w, e).job)
  {
    hide W.Inv, W.Apply, W.Enabled, D.Apply, D.Inv, C.EffectOf, C.Uppercase, C.ReplyAt, ThreadSteps, Live;
    hide HubOk, OwnerOk, LiveOk, FinishOk, ClaimOk, WaitOk, StopOk, StartsOk, PlaceOk, OrphanOk, AskOk;
    StepJob(w, e);
    JobFacts(w.job);
    match e
    case Advance(_) =>
      if w.handler.StartStop? || w.handler.StopFlag? {
        JobStep(w.job, W.RequestStop);
      }
    case Work(f) => JobStep(w.job, f);
    case _ =>
  }

  lemma {:induction false} RunUndisturbed(ws: seq<World>, es: seq<Event>, i: nat)
    requires Run(ws, es) && i < |ws| && ws[0].job.reopen >= 1
    requires forall k :: 0 <= k < i ==> Calm(es[k])
    ensures W.Undisturbed(ws[i].job)
  {
    hide Apply, Enabled, Calm, Inv, JobHistory.LogInv;
    if i == 0 {
    } else {
      RunUndisturbed(ws, es, i - 1);
      RunInv(ws, es, i - 1);
      StepUndisturbed(ws[i - 1], es[i - 1]);
    }
  }

  // ---------- every step is one of the remaining ones ----------

  lemma AdvanceFalls(w: World, newId: string)
    requires Inv(w) && W.Undisturbed(w.job) && Enabled(w, Advance(newId))
    ensures !Apply(w, Advance(newId)).handler.Ready? ==> Remaining(Apply(w, Advance(newId))) < Remaining(w)
  {
    hide W.Inv, W.Apply, W.Enabled, W.Rank, D.Inv, C.EffectOf, C.ReplyAt;
    hide HubOk, OwnerOk, LiveOk, FinishOk, WaitOk, StopOk, StartsOk, PlaceOk, OrphanOk, AskOk;
    JobFacts(w.job);
    if w.handler.StartStop? || w.handler.StopFlag? {
      hide ThreadSteps;
      JobStep(w.job, W.RequestStop);
    }
  }

  lemma ServeFalls(w: World, f: D.Event)
    requires Enabled(w, Serve(f))
    ensures Remaining(Apply(w, Serve(f))) < Remaining(w)
  {
    hide W.Rank, C.EffectOf, C.Reply, C.Next;
  }

  lemma WorkFalls(w: World, f: W.Event)
    requires W.Undisturbed(w.job) && Enabled(w, Work(f)) && W.Calm(f)
    ensures if IdleTick(w, Work(f)) then Remaining(Apply(w, Work(f))) == Remaining(w)
            else Remaining(Apply(w, Work(f))) < Remaining(w)
  {
    hide W.Inv, W.Apply, ThreadSteps, C.EffectOf;
    JobStep(w.job, f);
  }

  lemma StepFalls(w: World, e: Event)
    requires Inv(w) && W.Undisturbed(w.job) && Enabled(w, e) && Calm(e)
    ensures !w.handler.Ready? && !Apply(w, e).handler.Ready? ==>
              Remaining(Apply(w, e)) + (if IdleTick(w, e) then 0 else 1) <= Remaining(w)
  {
    hide Inv, W.Undisturbed, W.Calm, Remaining;
    match e
    case Advance(newId) => AdvanceFalls(w, newId);
    case Serve(f) => ServeFalls(w, f);
    case Work(f) => WorkFalls(w, f);
    case _ =>
  }

  /** Steps made from `i` to `j`, not counting the clock while no job is under way. */
  function Steps(ws: seq<World>, es: seq<Event>, i: nat, j: nat): nat
    requires i <= j <= |es| < |ws|
  {
    if i == j then 0 else Steps(ws, es, i, j - 1) + if IdleTick(ws[j - 1], es[j - 1]) then 0 else 1
  }

  lemma {:induction false} StepsAreRanked(ws: seq<World>, es: seq<Event>, i: nat, j: nat)
    requires Run(ws, es) && i <= j <= |es| && ws[0].job.reopen >= 1
    requires forall k :: 0 <= k < j ==> Calm(es[k])
    requires forall k :: i <= k <= j ==> !ws[k].handler.Ready?
    ensures Steps(ws, es, i, j) + Remaining(ws[j]) <= Remaining(ws[i])
    decreases j
  {
    hide Apply, Enabled, Inv, JobHistory.LogInv, W.Undisturbed, Remaining, IdleTick, Calm;
    if i == j {
    } else {
      StepsAreRanked(ws, es, i, j - 1);
      RunUndisturbed(ws, es, j - 1);
      RunInv(ws, es, j - 1);
      StepFalls(ws[j - 1], es[j - 1]);
    }
  }

  lemma RemainingNonNegative(w: World)
    requires W.Undisturbed(w.job)
    ensures Remaining(w) >= 0
  {
    hide W.Inv, W.Rank;
    W.RankNonNegative(w.job);
  }

  /**
   Every request is answered: with a reopen delay of at least 1 ms and no interrupted turn, the threads
   make at most `Remaining` steps while a handler is busy, whatever the scheduler does.  `Remaining` is
   fixed by the handler's place, the queue and the time left to the job under way.
   */
  lemma RequestsAreAnswered(ws: seq<World>, es: seq<Event>, i: nat, j: nat)
    requires Run(ws, es) && i <= j <= |es| && ws[0].job.reopen >= 1
    requires forall k :: 0 <= k < j ==> Calm(es[k])
    requires forall k :: i <= k <= j ==> !ws[k].handler.Ready?
    ensures Steps(ws, es, i, j) <= Remaining(ws[i])
    ensures Remaining(ws[i]) <= 7 + HubSteps(ws[i].hub) + JobSteps(ws[i].job.deadline - ws[i].job.started)
  {
    hide Remaining, Inv, W.Undisturbed, Calm, Apply, Enabled;
    StepsAreRanked(ws, es, i, j);
    RunUndisturbed(ws, es, i);
    RunUndisturbed(ws, es, j);
    RemainingNonNegative(ws[j]);
    RemainingBound(ws[i]);
  }

  /** Steps a job with this timeout can take. */
  function JobSteps(timeoutMs: int): int {
    R.Max(0, timeoutMs + 20) * (15 + 3 * R.Max(0, timeoutMs)) + 18 + 3 * R.Max(0, timeoutMs)
  }

  lemma RemainingBound(w: World)
    requires W.Undisturbed(w.job)
    ensures Remaining(w) <= 7 + HubSteps(w.hub) + JobSteps(w.job.deadline - w.job.started)
  {
    hide HubSteps;
    W.PhaseBounds(w.job);
    LateBound(w.job);
    hide W.Inv, W.Late, W.Phase, W.Undisturbed;
    var most := R.Max(0, w.job.deadline - w.job.started + W.PAUSE_MS);
    if W.Late(w.job) < most {
      W.OneMore(W.Late(w.job), most, W.Span(w.job));
    }
  }

  lemma LateBound(j: W.Job)
    requires W.Undisturbed(j)
    ensures W.Late(j) <= R.Max(0, j.deadline - j.started + W.PAUSE_MS)
  {
    hide W.DataInv, W.StopInv, W.FlagInv, W.PaceInv;
  }

  /**
   No deadlock: while a request is being served, the handler, the dispatcher or the job's thread can
   make one of the steps counted above, provided an unused id is at hand.
   */
  lemma NoDeadlock(ws: seq<World>, es: seq<Event>, i: nat, unused: string) returns (e: Event)
    requires Run(ws, es) && i < |ws| && !ws[i].handler.Ready? && unused !in ws[i].store
    ensures Enabled(ws[i], e) && (e.Advance? || e.Serve? || e.Work?) && !IdleTick(ws[i], e)
  {
    hide C.EffectOf, C.Reply, C.ReplyAt, JobHistory.LogInv, FinishOk, StartsOk, PlaceOk, OrphanOk, AskOk, R.Settle;
    RunInv(ws, es, i);
    var w := ws[i];
    if Enabled(w, Advance(unused)) {
      e := Advance(unused);
    } else if w.handler.StartJoin? || w.handler.StopJoin? {
      var f := W.CanGoOn(w.job);
      e := Work(f);
    } else {
      assert w.handler.ticket < |w.hub.pushed|;
      e := Serve(if w.hub.phase.Idle? then D.Take else if w.hub.phase.Taken? then D.Execute else D.Fulfil);
    }
  }
}
