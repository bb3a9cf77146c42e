/**
 What happens to jobs over a run: the log of creations, outcomes and finishes is a sequence of
 complete triples, the last of which may still be under way, and the store says what the log says.
 */
module JobHistory {
  import opened Cobs
  import opened Protocol
  import C = CoreMachine
  import D = Dispatch
  import R = FrameReader
  import W = JobWorker
  import S = JobStore

  /** How far the current job's triple has got: 0 no job, 1 created, 2 outcome written. */
  function Stage(w: World): nat {
    if w.handler.StartArm? || w.handler.StartSpawn? then 1
    else if w.job.pc.Over? then 0
    else if w.job.pc.Clearing? || w.job.pc.Submitting? then 2
    else 1
  }

  /** The creation of the job under way. */
  function Current(w: World): (x: Entry)
    ensures x.Created?
  {
    if w.handler.StartArm? || w.handler.StartSpawn? then Created(w.handler.id, w.handler.timeoutMs, w.handler.ticket)
    else Created(w.job.id, w.job.deadline - w.job.started, w.seat)
  }

  predicate Creates(x: Entry, id: string) {
    x.Created? && x.id == id
  }

  /** Created, then one outcome with its verdict, then one finish, for one job after the other. */
  ghost predicate Triples(log: seq<Entry>) {
    forall k: nat :: k < |log| ==> TripleAt(log, k)
  }

  ghost predicate TripleAt(log: seq<Entry>, k: nat)
    requires k < |log|
  {
    && (k % 3 == 0 ==> log[k].Created?)
    && (k % 3 == 1 ==> log[k].Wrote? && log[k].verdict.pc.Recording? && W.Inv(log[k].verdict)
                       && Creates(log[k - 1], log[k].verdict.id)
                       && log[k].verdict.deadline == log[k].verdict.started + log[k - 1].timeoutMs)
    && (k % 3 == 2 ==> log[k].Finished? && Creates(log[k - 2], log[k].id))
  }

  ghost predicate DistinctIds(log: seq<Entry>) {
    forall a, b :: 0 <= a < b < |log| && log[a].Created? && log[b].Created? ==> log[a].id != log[b].id
  }

  /** The result the log gives to the job created at position `k`. */
  function LoggedResult(log: seq<Entry>, k: nat): S.JobResult
    requires k < |log|
  {
    if k + 1 < |log| && log[k + 1].Wrote? && log[k + 1].verdict.pc.Recording?
    then S.ResultOf(log[k + 1].verdict.pc.outcome) else S.NEW
  }

  ghost predicate StoreMatches(w: World) {
    && (forall k: nat :: k < |w.log| && w.log[k].Created? ==>
          w.log[k].id in w.store && w.store[w.log[k].id] == LoggedResult(w.log, k))
    && (forall id :: id in w.store ==> Logged(w.log, id))
  }

  ghost predicate Logged(log: seq<Entry>, id: string) {
    exists k: nat :: k < |log| && Creates(log[k], id)
  }

  ghost predicate StageMatches(w: World) {
    && |w.log| % 3 == Stage(w)
    && (Stage(w) == 1 ==> w.log[|w.log| - 1] == Current(w))
    && (Stage(w) == 2 ==> w.log[|w.log| - 2] == Current(w))
  }

  function FinishCount(ops: seq<C.Op>): nat {
    if ops == [] then 0 else FinishCount(ops[..|ops| - 1]) + if ops[|ops| - 1].FinishJob? then 1 else 0
  }

  /** Operation `ticket` is the finish of the job created for start `start`. */
  predicate FinishFor(w: World, ticket: nat, start: nat) {
    && start < ticket < |w.hub.pushed| && w.hub.pushed[ticket].FinishJob?
    && ticket in w.finishes && w.finishes[ticket] == start
  }

  /** Every finish the dispatcher ever got is some job's, and each job's finish is in the dispatcher's history. */
  ghost predicate FinishesMatch(w: World) {
    && FinishCount(w.hub.pushed) == |w.log| / 3
    && forall k: nat :: k < |w.log| && w.log[k].Finished? ==>
         k >= 2 && w.log[k - 2].Created? && FinishFor(w, w.log[k].ticket, w.log[k - 2].start)
  }

  /** Every job was created for a granted start that asked for its timeout. */
  ghost predicate StartsMatch(w: World) {
    forall k: nat :: k < |w.log| && w.log[k].Created? ==>
      && w.log[k].start < |w.hub.pushed| && w.hub.pushed[w.log[k].start] == C.StartJob(w.log[k].timeoutMs)
      && Granted(w, w.log[k].start)
  }

  /** No start was granted for two jobs. */
  ghost predicate StartsRise(log: seq<Entry>) {
    forall a: nat, b: nat :: a < b < |log| && log[a].Created? && log[b].Created? ==> log[a].start < log[b].start
  }

  ghost predicate LogInv(w: World) {
    && Triples(w.log) && DistinctIds(w.log) && StoreMatches(w) && StageMatches(w) && FinishesMatch(w)
    && StartsMatch(w) && StartsRise(w.log)
  }

  // ---------- every step keeps it ----------

  /** Steps of the job's thread and the clock. */
  lemma StageOfThread(w: World, f: W.Event)
    requires Inv(w) && Enabled(w, Work(f))
    ensures var w' := Apply(w, Work(f));
            && (f.Write? ==> Stage(w) == 1 && Stage(w') == 2)
            && (f.Submit? ==> Stage(w) == 2 && Stage(w') == 0)
            && (!f.Write? && !f.Submit? ==> Stage(w') == Stage(w))
            && Current(w') == Current(w)
            && (!f.Tick? ==> Current(w) == Created(w.job.id, w.job.deadline - w.job.started, w.seat))
  {
    hide D.Apply, D.Inv, C.EffectOf, R.Settle, Decode, W.Inv, C.ReplyAt;
    hide FinishOk, StartsOk, PlaceOk, OrphanOk, AskOk, StopOk, WaitOk;
  }

  lemma StageChanges(w: World, e: Event)
    requires Inv(w) && Enabled(w, e)
    ensures var w' := Apply(w, e);
            && (e.Advance? && w.handler.StartCreate? ==>
                  && Stage(w) == 0 && Stage(w') == 1
                  && Current(w') == Created(e.newId, w.handler.timeoutMs, w.handler.ticket))
            && (e == Work(W.Write) ==> Stage(w) == 1 && Stage(w') == 2)
            && (e == Work(W.Submit) ==> Stage(w) == 2 && Stage(w') == 0)
            && (!(e.Advance? && w.handler.StartCreate?) && e != Work(W.Write) && e != Work(W.Submit) ==>
                  Stage(w') == Stage(w))
            && (Stage(w) > 0 ==> Current(w') == Current(w) || Stage(w') == 0)
            && (e.Work? && !e.jobEvent.Tick? ==>
                  Current(w) == Created(w.job.id, w.job.deadline - w.job.started, w.seat))
  {
    hide D.Apply, D.Inv, C.EffectOf, C.Uppercase, W.Inv, C.ReplyAt;
    hide HubOk, OwnerOk, FinishOk, StartsOk, PlaceOk, OrphanOk, AskOk, StopOk, WaitOk;
    if e.Work? {
      hide Stage, Current, Apply, Enabled, LiveOk, ClaimOk;
      StageOfThread(w, e.jobEvent);
    }
  }

  /** Only three steps touch the log and the store. */
  lemma LogChanges(w: World, e: Event)
    requires Enabled(w, e)
    ensures var w' := Apply(w, e);
            if e.Advance? && w.handler.StartCreate? then
              && w'.log == w.log + [Created(e.newId, w.handler.timeoutMs, w.handler.ticket)]
              && e.newId !in w.store && w'.store == w.store[e.newId := S.NEW]
            else if e == Work(W.Write) then
              && w'.log == w.log + [Wrote(w.job)] && w.job.pc.Recording?
              && w'.store == w.store[w.job.id := S.ResultOf(w.job.pc.outcome)]
            else if e == Work(W.Submit) then
              w'.log == w.log + [Finished(w.job.id, |w.hub.pushed|)] && w'.store == w.store
            else w'.log == w.log && w'.store == w.store
  {
    hide D.Apply, C.EffectOf, C.Uppercase, W.Apply, S.ResultOf;
  }

  lemma {:induction false} CountPush(ops: seq<C.Op>, op: C.Op)
    ensures FinishCount(ops + [op]) == FinishCount(ops) + if op.FinishJob? then 1 else 0
  {
    assert (ops + [op])[..|ops|] == ops;
  }

  /** A thread reports its job finished. */
  lemma SubmitFinishes(w: World)
    requires Inv(w) && LogInv(w) && Enabled(w, Work(W.Submit))
    ensures FinishesMatch(Apply(w, Work(W.Submit)))
  {
    hide W.Inv, D.Inv, C.EffectOf, C.ReplyAt, FinishCount, Holds, Stage, Current;
    hide FinishOk, ClaimOk, WaitOk, StopOk, StartsOk, PlaceOk, OrphanOk, AskOk;
    hide StoreMatches, DistinctIds, StartsMatch, StartsRise, Triples;
    StageChanges(w, Work(W.Submit));
    TaskFacts(w.hub);
    CountPush(w.hub.pushed, C.FinishJob);
  }

  lemma StepFinishes(w: World, e: Event)
    requires Inv(w) && LogInv(w) && Enabled(w, e)
    ensures FinishesMatch(Apply(w, e))
  {
    hide W.Apply, W.Enabled, W.Inv, D.Inv, D.Apply, C.EffectOf, C.Uppercase, C.ReplyAt, FinishCount, Stage, Current;
    hide HubOk, OwnerOk, LiveOk, FinishOk, ClaimOk, WaitOk, StartsOk, PlaceOk, OrphanOk, AskOk;
    hide StoreMatches, DistinctIds, StartsMatch, StartsRise, Triples;
    if e == Work(W.Submit) {
      SubmitFinishes(w);
    } else {
      StageChanges(w, e);
      LogChanges(w, e);
      var op := HubChanges(w, e);
      if op.Some? {
        CountPush(w.hub.pushed, op.value);
        EffectFacts(op.value);
      } else {
        assert w.hub.pushed + [] == w.hub.pushed;
      }
      FinishesKept(w, e);
    }
  }

  lemma FinishesKept(w: World, e: Event)
    requires Enabled(w, e) && e != Work(W.Submit)
    ensures Apply(w, e).finishes == w.finishes
  {
    hide W.Apply, W.Enabled, D.Apply, C.EffectOf, C.Uppercase;
  }

  lemma StepStartsMatch(w: World, e: Event)
    requires Inv(w) && LogInv(w) && Enabled(w, e)
    ensures StartsMatch(Apply(w, e))
  {
    hide W.Apply, W.Enabled, W.Inv, D.Inv, C.EffectOf, C.Uppercase, C.ReplyAt, Granted, FinishCount;
    hide LiveOk, FinishOk, WaitOk, StopOk, StartsOk, PlaceOk, OrphanOk, AskOk;
    hide StoreMatches, DistinctIds, FinishesMatch, Triples, StageMatches, StartsRise;
    LogChanges(w, e);
    TaskFacts(w.hub);
    GrantedIsRun(w);
    var op := HubChanges(w, e);
    SameGrants(w, Apply(w, e), op);
  }

  /** A new job's start came after the finishes of all earlier jobs. */
  lemma NewestStart(w: World, k: nat)
    requires Inv(w) && LogInv(w) && w.handler.StartCreate? && Stage(w) == 0
    requires k < |w.log| && w.log[k].Created?
    ensures w.log[k].start < w.handler.ticket
  {
    hide W.Inv, D.Inv, C.EffectOf, C.ReplyAt, Granted, FinishCount, Stage, Current;
    hide LiveOk, FinishOk, WaitOk, StopOk, StartsOk, PlaceOk, OrphanOk, AskOk;
    hide StoreMatches, DistinctIds, StartsMatch, StartsRise, Triples;
    JobsComplete(w, k);
    TripleIsWhole(w.log, k);
    AllEffectFacts(w);
    assert Holds(w, w.handler.ticket);
  }

  lemma TripleIsWhole(log: seq<Entry>, k: nat)
    requires Triples(log) && k + 2 < |log| && log[k].Created?
    ensures log[k + 1].Wrote? && log[k + 2].Finished?
  {
    hide W.Inv;
    assert TripleAt(log, k) && TripleAt(log, k + 1) && TripleAt(log, k + 2);
  }

  lemma StepRise(w: World, e: Event)
    requires Inv(w) && LogInv(w) && Enabled(w, e)
    ensures StartsRise(Apply(w, e).log)
  {
    hide W.Apply, W.Inv, D.Apply, C.Uppercase, Inv, Stage, Current;
    hide Triples, DistinctIds, StoreMatches, StageMatches, FinishesMatch, StartsMatch;
    StageChanges(w, e);
    LogChanges(w, e);
    if e.Advance? && w.handler.StartCreate? {
      forall k: nat | k < |w.log| && w.log[k].Created? ensures w.log[k].start < w.handler.ticket {
        NewestStart(w, k);
      }
    }
  }

  lemma TriplesGrow(log: seq<Entry>, x: Entry)
    requires Triples(log) && TripleAt(log + [x], |log|)
    ensures Triples(log + [x])
  {
    hide W.Inv;
    forall k: nat | k < |log| ensures TripleAt(log + [x], k) {
      assert TripleAt(log, k);
    }
  }

  lemma IdsGrow(log: seq<Entry>, x: Entry)
    requires DistinctIds(log)
    requires x.Created? ==> forall k: nat :: k < |log| && log[k].Created? ==> log[k].id != x.id
    ensures DistinctIds(log + [x])
  {
  }

  lemma StepLog(w: World, e: Event)
    requires Inv(w) && LogInv(w) && Enabled(w, e)
    ensures Triples(Apply(w, e).log) && DistinctIds(Apply(w, e).log)
    ensures StageMatches(Apply(w, e))
  {
    hide Apply, Enabled, W.Inv, S.ResultOf, Stage, Current;
    hide Triples, DistinctIds, FinishesMatch, StartsMatch, StartsRise;
    hide HubOk, OwnerOk, LiveOk, FinishOk, ClaimOk, WaitOk, StopOk, StartsOk, PlaceOk, OrphanOk, AskOk;
    StageChanges(w, e);
    LogChanges(w, e);
    var w' := Apply(w, e);
    if w'.log != w.log {
      var x := w'.log[|w.log|];
      TriplesGrow(w.log, x);
      IdsGrow(w.log, x);
    }
  }

  /** A new entry leaves the results of earlier jobs as they were, except the one just decided. */
  lemma ResultsStay(log: seq<Entry>, x: Entry, k: nat)
    requires k < |log|
    ensures LoggedResult(log + [x], k) ==
            if k + 1 == |log| && x.Wrote? && x.verdict.pc.Recording? then S.ResultOf(x.verdict.pc.outcome)
            else LoggedResult(log, k)
  {
  }

  lemma StepStore(w: World, e: Event)
    requires Inv(w) && LogInv(w) && Enabled(w, e)
    ensures StoreMatches(Apply(w, e))
  {
    hide Apply, Enabled, Inv, LoggedResult, S.ResultOf, FinishesMatch, StartsMatch, StartsRise, Stage, Current, Triples;
    StageChanges(w, e);
    LogChanges(w, e);
    var w' := Apply(w, e);
    if w'.log != w.log {
      StoreGrows(w, w', w'.log[|w.log|]);
    }
  }

  /** The store follows the log: a new job is new, and an outcome goes to the job under way. */
  lemma StoreGrows(w: World, w': World, x: Entry)
    requires StoreMatches(w) && DistinctIds(w.log) && w'.log == w.log + [x]
    requires x.Created? ==> x.id !in w.store && w'.store == w.store[x.id := S.NEW]
    requires x.Wrote? ==> w.log != [] && Creates(w.log[|w.log| - 1], x.verdict.id) && x.verdict.pc.Recording?
    requires x.Wrote? ==> w'.store == w.store[x.verdict.id := S.ResultOf(x.verdict.pc.outcome)]
    requires x.Finished? ==> w'.store == w.store
    ensures StoreMatches(w')
  {
    hide LoggedResult, S.ResultOf, Logged;
    LastResult(w'.log);
    forall k: nat | k < |w.log| && w.log[k].Created?
      ensures w.log[k].id in w'.store && w'.store[w.log[k].id] == LoggedResult(w'.log, k)
    {
      ResultsStay(w.log, x, k);
    }
    forall id | id in w'.store ensures Logged(w'.log, id) {
      LoggedGrows(w.log, x, id);
    }
  }

  lemma LoggedGrows(log: seq<Entry>, x: Entry, id: string)
    ensures Logged(log + [x], id) <==> Logged(log, id) || Creates(x, id)
  {
    if k: nat :| k < |log| && Creates(log[k], id) {
      assert Creates((log + [x])[k], id);
    }
    assert (log + [x])[|log|] == x;
  }

  lemma LastResult(log: seq<Entry>)
    requires log != []
    ensures LoggedResult(log, |log| - 1) == S.NEW
  {
  }

  // ---------- what the log says ----------

  /** Where the entries of the job created at position `k` are. */
  lemma JobPositions(log: seq<Entry>, k: nat)
    requires Triples(log) && DistinctIds(log) && k < |log| && log[k].Created?
    ensures k % 3 == 0
    ensures forall m: nat :: m < |log| ==> (log[m].Wrote? && log[m].verdict.id == log[k].id <==> m == k + 1)
    ensures forall m: nat :: m < |log| ==> (log[m].Finished? && log[m].id == log[k].id <==> m == k + 2)
    ensures forall m: nat :: m < |log| && Creates(log[m], log[k].id) ==> m == k
  {
    hide W.Inv;
    assert TripleAt(log, k);
    forall m: nat | m < |log|
      ensures log[m].Wrote? && log[m].verdict.id == log[k].id <==> m == k + 1
      ensures log[m].Finished? && log[m].id == log[k].id <==> m == k + 2
    {
      assert TripleAt(log, m);
    }
  }

  /** Only the job under way lacks an entry. */
  lemma JobsComplete(w: World, k: nat)
    requires Triples(w.log) && StageMatches(w) && k < |w.log| && w.log[k].Created?
    ensures k + 2 < |w.log| || (w.log[k].id == Current(w).id && Stage(w) == |w.log| - k)
  {
    hide W.Inv, Stage, Current;
    assert TripleAt(w.log, k);
  }

  /** A job is pending exactly while it is under way and its outcome is not written. */
  lemma PendingIsCurrent(w: World, id: string)
    requires LogInv(w) && id in w.store
    ensures w.store[id].status.Pending? <==> id == Current(w).id && Stage(w) == 1
  {
    hide W.Inv, Stage, Current, FinishesMatch, Triples, StageMatches, DistinctIds;
    var k: nat :| k < |w.log| && Creates(w.log[k], id);
    JobsComplete(w, k);
    JobPositions(w.log, k);
    if k + 1 < |w.log| { VerdictIsRecorded(w.log, k + 1); }
    if Stage(w) == 1 { LastIsCurrent(w); }
  }

  lemma VerdictIsRecorded(log: seq<Entry>, k: nat)
    requires Triples(log) && k < |log| && log[k].Wrote?
    ensures log[k].verdict.pc.Recording? && W.Inv(log[k].verdict)
    ensures k > 0 && log[k - 1].Created? && log[k].verdict.deadline == log[k].verdict.started + log[k - 1].timeoutMs
  {
    hide W.Inv;
    assert TripleAt(log, k);
  }

  lemma LastIsCurrent(w: World)
    requires StageMatches(w) && Stage(w) == 1
    ensures w.log != [] && w.log[|w.log| - 1] == Current(w)
  {
    hide Stage, Current;
  }
}
