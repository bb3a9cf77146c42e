/** What holds over every run of the service. */
module Service {
  import opened Cobs
  import opened Protocol
  import opened JobHistory
  import C = CoreMachine
  import D = Dispatch
  import R = FrameReader
  import W = JobWorker
  import S = JobStore

  /** One interleaving from the service's start: the worlds it goes through and the events between them. */
  ghost predicate Run(ws: seq<World>, es: seq<Event>) {
    && |ws| == |es| + 1
    && ws[0] == Initial(ws[0].job.reopen) && ws[0].job.reopen >= 0
    && forall i :: 0 <= i < |es| ==> Enabled(ws[i], es[i]) && ws[i + 1] == Apply(ws[i], es[i])
  }

  lemma InitialInv(reopen: int)
    requires reopen >= 0
    ensures Inv(Initial(reopen)) && LogInv(Initial(reopen))
  {
    assert D.START.pushed[..0] == [];
  }

  lemma StepInv(w: World, e: Event)
    requires Inv(w) && Enabled(w, e)
    ensures Inv(Apply(w, e))
  {
    hide Apply, HubOk, OwnerOk, LiveOk, FinishOk, ClaimOk, WaitOk, StopOk, StartsOk, PlaceOk, OrphanOk, AskOk, W.Inv;
    StepHub(w, e);
    StepJob(w, e);
    StepOwner(w, e);
    StepLive(w, e);
    StepFinish(w, e);
    StepClaim(w, e);
    StepWait(w, e);
    StepStop(w, e);
    StepStarts(w, e);
    StepPlace(w, e);
    StepOrphan(w, e);
    StepAsk(w, e);
  }

  lemma StepLogInv(w: World, e: Event)
    requires Inv(w) && LogInv(w) && Enabled(w, e)
    ensures LogInv(Apply(w, e))
  {
    hide Apply, Inv, Triples, DistinctIds, StoreMatches, StageMatches, FinishesMatch, StartsMatch, StartsRise;
    StepLog(w, e);
    StepStore(w, e);
    StepFinishes(w, e);
    StepStartsMatch(w, e);
    StepRise(w, e);
  }

  lemma {:induction false} RunInv(ws: seq<World>, es: seq<Event>, i: nat)
    requires Run(ws, es) && i < |ws|
    ensures Inv(ws[i]) && LogInv(ws[i])
  {
    hide Apply, Enabled, Inv, LogInv;
    if i == 0 {
      InitialInv(ws[0].job.reopen);
    } else {
      RunInv(ws, es, i - 1);
      StepInv(ws[i - 1], es[i - 1]);
      StepLogInv(ws[i - 1], es[i - 1]);
    }
  }

  // ---------- the core and its jobs ----------

  /**
   The core is running exactly when one of four things holds, and never two at once: a granted start
   whose handler has not started the thread, a thread that has not submitted its finish, a finish that
   has not run, or a granted start whose handler had given up.
   */
  lemma OneOwner(ws: seq<World>, es: seq<Event>, i: nat)
    requires Run(ws, es) && i < |ws|
    ensures var w := ws[i];
            && (w.hub.core.Running? <==> AtHandler(w) || AtThread(w) || AtFinish(w) || Orphaned(w))
            && !(AtHandler(w) && AtThread(w)) && !(AtHandler(w) && AtFinish(w)) && !(AtHandler(w) && Orphaned(w))
            && !(AtThread(w) && AtFinish(w)) && !(AtThread(w) && Orphaned(w)) && !(AtFinish(w) && Orphaned(w))
  {
    hide D.Inv, W.Inv, C.EffectOf, C.ReplyAt, LogInv;
    RunInv(ws, es, i);
  }

  /**
   The fourth, read off the dispatcher's history: a start that was given up has been granted and the core
   has run no stop since.
   */
  lemma OrphanedExactly(ws: seq<World>, es: seq<Event>, i: nat)
    requires Run(ws, es) && i < |ws|
    ensures var w := ws[i];
            Orphaned(w) <==>
            exists t: nat :: && t in w.abandoned && t < |w.hub.pushed| && w.hub.pushed[t].StartJob? && Granted(w, t)
                             && forall k: nat :: t < k < w.hub.executed ==> Effect(w, k) != C.Halt
  {
    hide D.Inv, W.Inv, C.EffectOf, C.ReplyAt, LogInv, Granted;
    hide LiveOk, FinishOk, ClaimOk, WaitOk, StopOk, StartsOk, PlaceOk;
    RunInv(ws, es, i);
    var w := ws[i];
    GrantedIsRun(w);
    if Orphaned(w) {
      assert Holds(w, w.owner.value);
    }
    if t: nat :| t in w.abandoned && t < |w.hub.pushed| && Granted(w, t)
                 && forall k: nat :: t < k < w.hub.executed ==> Effect(w, k) != C.Halt {
      assert NoHaltSince(w, t);
    }
  }

  /** And the starts given up are those whose handler's wait timed out. */
  lemma {:induction false} AbandonedExactly(ws: seq<World>, es: seq<Event>, i: nat, t: nat)
    requires Run(ws, es) && i < |ws|
    ensures t in ws[i].abandoned <==>
            exists k: nat :: k < i && es[k].GiveUp? && ws[k].handler.StartWait? && ws[k].handler.ticket == t
  {
    hide Apply, Enabled;
    if i == 0 {
    } else {
      AbandonedExactly(ws, es, i - 1, t);
      AbandonedChanges(ws[i - 1], es[i - 1]);
    }
  }

  /** An orphaned core stays running for nobody, and no job is created, until a stop runs. */
  lemma {:induction false} OrphanedUntilStop(ws: seq<World>, es: seq<Event>, i: nat, j: nat)
    requires Run(ws, es) && i <= j <= |es| && Orphaned(ws[i])
    requires forall k :: i <= k < j && es[k] == Serve(D.Execute) ==> !C.Does(ws[k].hub.phase.task.op, C.Halt)
    ensures Orphaned(ws[j]) && ws[j].hub.core.Running? && ws[j].log == ws[i].log
    decreases j
  {
    hide Apply, Enabled, Orphaned, AtHandler, AtThread, AtFinish;
    if i == j {
    } else {
      OrphanedUntilStop(ws, es, i, j - 1);
      OrphanedStep(ws, es, j - 1);
    }
    OneOwner(ws, es, j);
  }

  lemma OrphanedStep(ws: seq<World>, es: seq<Event>, k: nat)
    requires Run(ws, es) && k < |es| && Orphaned(ws[k])
    requires es[k] == Serve(D.Execute) ==> !C.Does(ws[k].hub.phase.task.op, C.Halt)
    ensures Orphaned(ws[k + 1]) && ws[k + 1].log == ws[k].log
  {
    hide D.Inv, W.Inv, W.Apply, W.Enabled, C.EffectOf, C.Reply, C.Next, C.ReplyAt, LogInv, Live;
    hide WaitOk, StartsOk, PlaceOk, OrphanOk, AskOk, StopOk;
    RunInv(ws, es, k);
    TaskFacts(ws[k].hub);
    LiveChanges(ws[k], es[k]);
    LogChanges(ws[k], es[k]);
    if es[k] == Serve(D.Execute) {
      C.EffectsByWord(ws[k].hub.phase.task.op);
      assert Pending(ws[k], ws[k].hub.executed);
    }
  }

  /** A handler that gives up on a start can orphan the core: this run does. */
  lemma OrphanHappens() returns (ws: seq<World>, es: seq<Event>)
    ensures Run(ws, es) && Orphaned(ws[|es|]) && ws[|es|].hub.core.Running?
    ensures !AtHandler(ws[|es|]) && !AtThread(ws[|es|]) && !AtFinish(ws[|es|])
  {
    hide Run, C.ReplyAt, AtHandler, AtThread, AtFinish, C.Uppercase;
    InitCommand();
    var w := Initial(1000);
    ws, es := [w], [];
    NoStep(1000);
    ws, es, w := Extend(ws, es, Arrive(Command("INIT")));
    ws, es, w := Extend(ws, es, Serve(D.Take));
    ws, es, w := Extend(ws, es, Serve(D.Execute));
    ws, es, w := Extend(ws, es, Serve(D.Fulfil));
    ws, es, w := Extend(ws, es, Advance(""));
    ws, es, w := Extend(ws, es, Arrive(Start(1000)));
    ws, es, w := Extend(ws, es, GiveUp);
    ws, es, w := Extend(ws, es, Serve(D.Take));
    ws, es, w := Extend(ws, es, Serve(D.Execute));
    assert |ws| == |es| + 1;
    OneOwner(ws, es, |es|);
  }

  lemma InitCommand()
    ensures C.Uppercase("INIT") == "INIT" && C.EffectOf(C.Command("INIT")) == C.Initialise
  {
    assert "INIT"[1..] == "NIT" && "NIT"[1..] == "IT" && "IT"[1..] == "T" && "T"[1..] == "";
    assert C.Uppercase("T") == "T";
    assert C.Uppercase("IT") == "IT";
    assert C.Uppercase("NIT") == "NIT";
  }

  lemma NoStep(reopen: int)
    requires reopen >= 0
    ensures Run([Initial(reopen)], [])
  {
  }

  /** A run and one more step. */
  lemma Extend(ws: seq<World>, es: seq<Event>, e: Event) returns (ws': seq<World>, es': seq<Event>, w: World)
    requires Run(ws, es) && Enabled(ws[|es|], e)
    ensures Run(ws', es') && |es'| == |es| + 1 && |ws'| == |ws| + 1
    ensures w == ws'[|es'|] == Apply(ws[|es|], e)
  {
    hide Apply, Enabled;
    w := Apply(ws[|es|], e);
    ws', es' := ws + [w], es + [e];
  }

  /** Every finish runs while the core is running for its own job, so it is accepted and ends that job only. */
  lemma FinishEndsItsOwnJob(ws: seq<World>, es: seq<Event>, i: nat)
    requires Run(ws, es) && i < |es| && es[i] == Serve(D.Execute) && ws[i].hub.phase.task.op.FinishJob?
    ensures var w, w', t := ws[i], ws[i + 1], ws[i].hub.phase.task.ticket;
            && w.hub.core.Running? && t in w.finishes && w.owner == Some(w.finishes[t]) && Holds(w, w.finishes[t])
            && !Live(w) && Claim(w.handler).None?
            && w'.hub.core.Init? && w'.owner.None? && w'.hub.phase.reply.ok
  {
    hide D.Inv, W.Inv, C.Reply, C.EffectOf, C.ReplyAt, LogInv, W.Enabled, W.Apply;
    RunInv(ws, es, i);
    var w := ws[i];
    TaskFacts(w.hub);
    EffectFacts(C.FinishJob);
    assert Pending(w, w.hub.executed) && Effect(w, w.hub.executed) == C.Complete;
    C.ReplyIsHonest(w.hub.core, C.FinishJob);
  }

  /** A stop that ends a run only ever ends an orphan: any job's finish has run before it. */
  lemma StopEndsOnlyOrphans(ws: seq<World>, es: seq<Event>, i: nat)
    requires Run(ws, es) && i < |es| && es[i] == Serve(D.Execute) && ws[i].hub.core.Running?
    requires C.Does(ws[i].hub.phase.task.op, C.Halt)
    ensures Orphaned(ws[i])
  {
    hide D.Inv, W.Inv, C.Reply, C.EffectOf, C.ReplyAt, LogInv, W.Enabled, W.Apply, Holds, OrphanOk, AskOk, StartsOk;
    RunInv(ws, es, i);
    TaskFacts(ws[i].hub);
    C.EffectsByWord(ws[i].hub.phase.task.op);
    assert Pending(ws[i], ws[i].hub.executed);
  }

  /** Every finish the core has run found it running. */
  ghost predicate FinishesEnd(ops: seq<C.Op>) {
    forall k: nat :: k < |ops| && ops[k].FinishJob? ==> C.Fold(ops[..k]).Running?
  }

  lemma {:induction false} CountEnds(ops: seq<C.Op>)
    requires FinishesEnd(ops)
    ensures C.Ends(ops, C.Complete) == FinishCount(ops)
  {
    hide C.EffectOf, C.EndAt, C.Fold;
    if ops == [] {
    } else {
      var n := |ops| - 1;
      assert forall k: nat :: k < n ==> ops[..n][..k] == ops[..k];
      CountEnds(ops[..n]);
      C.EndedWhenRunning(ops, n, C.Complete);
    }
  }

  lemma {:induction false} RunFinishesEnd(ws: seq<World>, es: seq<Event>, i: nat)
    requires Run(ws, es) && i < |ws|
    ensures ws[i].hub.executed <= |ws[i].hub.pushed| && FinishesEnd(ws[i].hub.pushed[..ws[i].hub.executed])
  {
    hide Apply, W.Enabled, LogInv, W.Inv, D.Ordered, C.Fold, C.EffectOf;
    hide OwnerOk, LiveOk, FinishOk, ClaimOk, WaitOk, StopOk, StartsOk, PlaceOk, OrphanOk, AskOk;
    if i == 0 {
    } else {
      RunFinishesEnd(ws, es, i - 1);
      RunInv(ws, es, i - 1);
      RunInv(ws, es, i);
      var h, h' := ws[i - 1].hub, ws[i].hub;
      var op := HubChanges(ws[i - 1], es[i - 1]);
      TaskFacts(h);
      var ran, ran' := h.pushed[..h.executed], h'.pushed[..h'.executed];
      assert ran'[..h.executed] == ran;
      assert forall k: nat :: k <= h.executed ==> ran'[..k] == ran[..k];
      assert forall k: nat :: k < h.executed ==> ran'[k] == ran[k];
      if es[i - 1] == Serve(D.Execute) && h.phase.task.op.FinishJob? {
        FinishEndsItsOwnJob(ws, es, i - 1);
      }
    }
  }

  /**
   Granted starts are conserved: each one has ended with the finish of its job, was an orphan that a stop
   ended, or the core is running for it.
   */
  lemma StartsAreAccountedFor(ws: seq<World>, es: seq<Event>, i: nat)
    requires Run(ws, es) && i < |ws|
    ensures var h := ws[i].hub;
            && h.executed <= |h.pushed|
            && C.Grants(h.pushed[..h.executed]) ==
               FinishCount(h.pushed[..h.executed]) + C.Ends(h.pushed[..h.executed], C.Halt)
               + if h.core.Running? then 1 else 0
  {
    hide LogInv, W.Inv, D.Ordered, C.Fold, C.EffectOf, C.Grants, C.Ends, FinishCount, FinishesEnd;
    hide OwnerOk, LiveOk, FinishOk, ClaimOk, WaitOk, StopOk, StartsOk, PlaceOk, OrphanOk, AskOk;
    RunInv(ws, es, i);
    RunFinishesEnd(ws, es, i);
    var ran := ws[i].hub.pushed[..ws[i].hub.executed];
    CountEnds(ran);
    C.StartsAreConserved(ran);
  }

  /** A granted start never cancels a job: the thread it asks to stop is already gone. */
  lemma StartCancelsNobody(ws: seq<World>, es: seq<Event>, i: nat)
    requires Run(ws, es) && i < |ws| && Claim(ws[i].handler).Some?
    ensures !Live(ws[i]) && ws[i].hub.core.Running?
    ensures ws[i].hub.executed == |ws[i].hub.pushed|
  {
    hide D.Inv, W.Inv, C.EffectOf, C.ReplyAt, LogInv;
    RunInv(ws, es, i);
  }

  // ---------- requests ----------

  /** A request asks for this operation. */
  predicate Asks(r: Request, op: C.Op) {
    match op
    case StartJob(timeoutMs) => r == Start(timeoutMs)
    case Stop => r == Stop
    case Command(text) => r.Command? && text == C.Uppercase(r.text)
    case FinishJob => false
  }

  predicate Stopping(h: Handler) {
    h.StopFlag? || h.StopJoin? || h.StopSubmit?
  }

  /** A stop being carried out was asked for by a stop request, or by the command STOP. */
  lemma {:induction false} StopWasAskedFor(ws: seq<World>, es: seq<Event>, i: nat) returns (b: nat)
    requires Run(ws, es) && i < |ws| && Stopping(ws[i].handler)
    ensures b < i && es[b].Arrive? && Asks(es[b].request, ws[i].handler.op) && C.Does(ws[i].handler.op, C.Halt)
  {
    hide Apply, Enabled, Asks, C.Does;
    StopEnters(ws[i - 1], es[i - 1]);
    if Stopping(ws[i - 1].handler) {
      b := StopWasAskedFor(ws, es, i - 1);
    } else {
      b := i - 1;
    }
  }

  /** Only an arriving stop request makes the handler stop things, and it does so as asked. */
  lemma StopEnters(w: World, e: Event)
    requires Enabled(w, e)
    ensures Stopping(Apply(w, e).handler) && Stopping(w.handler) ==> Apply(w, e).handler.op == w.handler.op
    ensures Stopping(Apply(w, e).handler) && !Stopping(w.handler) ==>
              e.Arrive? && Asks(e.request, Apply(w, e).handler.op) && C.Does(Apply(w, e).handler.op, C.Halt)
  {
    hide D.Apply, W.Apply, W.Enabled, C.EffectOf, C.Uppercase;
    if e.Arrive? && e.request.Command? {
      C.UppercaseTwice(e.request.text);
    }
  }

  /** The step that pushes an operation. */
  lemma PushStep(w: World, e: Event)
    requires Inv(w) && Enabled(w, e) && w.hub.pushed != Apply(w, e).hub.pushed
    ensures |Apply(w, e).hub.pushed| == |w.hub.pushed| + 1
    ensures var op := Apply(w, e).hub.pushed[|w.hub.pushed|];
            || (op.FinishJob? && e == Work(W.Submit))
            || (e.Arrive? && Asks(e.request, op))
            || (e.Advance? && w.handler == StopSubmit(op) && C.Does(op, C.Halt))
  {
    hide Apply, Enabled, W.Inv, D.Inv, C.EffectOf, C.Uppercase, C.ReplyAt, C.Does;
    hide HubOk, LiveOk, FinishOk, ClaimOk, WaitOk, StartsOk, PlaceOk, OrphanOk, AskOk, OwnerOk;
    var op := HubChanges(w, e);
    assert op.None? ==> w.hub.pushed + [] == w.hub.pushed;
    if w.handler.StopSubmit? {
      C.EffectsByWord(w.handler.op);
      assert C.Does(w.handler.op, C.Halt);
    }
  }

  /**
   Every operation the dispatcher is given was asked for: a finish by the thread that submits it, anything
   else by a request, at the moment it arrives unless it is a stop.
   */
  lemma {:induction false} AskedFor(ws: seq<World>, es: seq<Event>, i: nat, t: nat) returns (a: nat, b: nat)
    requires Run(ws, es) && i < |ws| && t < |ws[i].hub.pushed|
    ensures b <= a < i && |ws[a].hub.pushed| == t
    ensures var op := ws[i].hub.pushed[t];
            if op.FinishJob? then es[a] == Work(W.Submit)
            else es[b].Arrive? && Asks(es[b].request, op) && (a == b || C.Does(op, C.Halt))
  {
    hide Apply, Enabled, Inv, LogInv, Asks, C.Does;
    RunInv(ws, es, i - 1);
    if t < |ws[i - 1].hub.pushed| {
      a, b := AskedFor(ws, es, i - 1, t);
      var op := HubChanges(ws[i - 1], es[i - 1]);
    } else {
      PushStep(ws[i - 1], es[i - 1]);
      a, b := i - 1, i - 1;
      if es[a].Advance? {
        b := StopWasAskedFor(ws, es, a);
      }
      NobodyAsksToFinish(es[a]);
    }
  }

  lemma NobodyAsksToFinish(e: Event)
    ensures !C.Does(C.FinishJob, C.Halt) && (e.Arrive? ==> !Asks(e.request, C.FinishJob))
  {
  }

  /**
   A stop request reaches the job: a live job has been asked to stop exactly while a stop request waits for
   it, and it decides within 50 ms or the reopen delay, whichever is longer.
   */
  lemma StopReachesTheJob(ws: seq<World>, es: seq<Event>, i: nat)
    requires Run(ws, es) && i < |ws| && Live(ws[i])
    ensures var j := ws[i].job;
            && (ws[i].handler.StopJoin? <==> j.stopAt.Some?)
            && (j.stopAt.Some? ==> j.stopAt.value <= j.now)
            && (j.stopAt.Some? && W.Undecided(j) ==> j.now <= j.stopAt.value + R.Max(50, j.reopen))
  {
    hide D.Inv, C.EffectOf, C.ReplyAt, LogInv, W.DataInv, W.FlagInv;
    hide HubOk, OwnerOk, LiveOk, FinishOk, ClaimOk, WaitOk, StopOk, StartsOk, PlaceOk, OrphanOk;
    RunInv(ws, es, i);
  }

  /** A job ends as cancelled only if a stop request came. */
  lemma {:induction false} CancelledWasAskedFor(ws: seq<World>, es: seq<Event>, i: nat, id: string)
    returns (b: nat, op: C.Op)
    requires Run(ws, es) && i < |ws| && id in ws[i].store && ws[i].store[id].status.Cancelled?
    ensures b < i && es[b].Arrive? && Asks(es[b].request, op) && C.Does(op, C.Halt)
  {
    hide Apply, Enabled, Inv, LogInv, Asks, C.Does;
    LogChanges(ws[i - 1], es[i - 1]);
    if id in ws[i - 1].store && ws[i - 1].store[id].status.Cancelled? {
      b, op := CancelledWasAskedFor(ws, es, i - 1, id);
    } else {
      AbortIsAsked(ws, es, i - 1);
      b := StopWasAskedFor(ws, es, i - 1);
      op := ws[i - 1].handler.op;
    }
  }

  lemma AbortIsAsked(ws: seq<World>, es: seq<Event>, i: nat)
    requires Run(ws, es) && i < |es| && es[i] == Work(W.Write) && ws[i].job.pc == W.Recording(S.Aborted)
    ensures ws[i].handler.StopJoin?
  {
    hide D.Inv, C.EffectOf, C.ReplyAt, LogInv, Apply, Enabled;
    hide HubOk, OwnerOk, LiveOk, FinishOk, ClaimOk, WaitOk, StopOk, StartsOk, PlaceOk, OrphanOk;
    RunInv(ws, es, i);
  }

  // ---------- stopping ----------

  ghost predicate NobodyPending(w: World) {
    forall id :: id in w.store ==> !w.store[id].status.Pending?
  }

  lemma NoJobUnderWay(w: World)
    requires LogInv(w) && Stage(w) == 0
    ensures NobodyPending(w)
    ensures forall k: nat :: k < |w.log| && w.log[k].Created? ==>
              k + 2 < |w.log| && w.log[k + 1].Wrote? && w.log[k + 2].Finished?
  {
    hide W.Inv, Stage, Current, Triples, DistinctIds, StageMatches, FinishesMatch;
    forall k: nat | k < |w.log| && w.log[k].Created?
      ensures k + 2 < |w.log| && w.log[k + 1].Wrote? && w.log[k + 2].Finished?
    {
      JobPositions(w.log, k);
      JobsComplete(w, k);
    }
    forall id | id in w.store ensures !w.store[id].status.Pending? {
      PendingIsCurrent(w, id);
    }
  }

  /** Whenever the core is not running, no thread is live, no finish is waiting and no job is pending. */
  lemma QuietUnlessRunning(ws: seq<World>, es: seq<Event>, i: nat)
    requires Run(ws, es) && i < |ws| && !ws[i].hub.core.Running?
    ensures !Live(ws[i]) && !AtFinish(ws[i]) && NobodyPending(ws[i])
  {
    hide D.Inv, W.Inv, C.EffectOf, C.ReplyAt;
    RunInv(ws, es, i);
    NoJobUnderWay(ws[i]);
  }

  /** When a stop request's answer is there, the core is stopped and nothing at all is queued or running. */
  lemma StopAnswers(ws: seq<World>, es: seq<Event>, i: nat)
    requires Run(ws, es) && i < |ws|
    requires ws[i].handler.StopWait? && ws[i].handler.ticket in ws[i].hub.answers
    ensures var w := ws[i];
            && w.hub.answers[w.handler.ticket].ok && w.hub.answers[w.handler.ticket].state.Stopped?
            && w.hub.core.Stopped? && !Live(w) && w.hub.executed == |w.hub.pushed| && NobodyPending(w)
  {
    hide D.Inv, W.Inv, C.EffectOf, C.Reply, C.ReplyAt, LogInv, NobodyPending, AtFinish;
    hide LiveOk, FinishOk, WaitOk, ClaimOk, StartsOk, PlaceOk, OrphanOk, AskOk;
    RunInv(ws, es, i);
    var w := ws[i];
    TaskFacts(w.hub);
    QuietUnlessRunning(ws, es, i);
    HaltReply(w.hub.pushed, w.handler.ticket);
  }

  lemma HaltReply(ops: seq<C.Op>, t: nat)
    requires t < |ops| && C.EffectOf(ops[t]) == C.Halt
    ensures C.ReplyAt(ops, t).ok && C.ReplyAt(ops, t).state.Stopped?
  {
    hide C.Fold;
  }

  /** From there on, until an INIT runs, the core stays stopped and no job is created, decided or finished. */
  lemma {:induction false} StaysStopped(ws: seq<World>, es: seq<Event>, i: nat, j: nat)
    requires Run(ws, es) && i <= j <= |es| && ws[i].hub.core.Stopped?
    requires forall k :: i <= k < j && es[k] == Serve(D.Execute) ==>
               var op := ws[k].hub.phase.task.op; !(op.Command? && C.Uppercase(op.text) == "INIT")
    ensures ws[j].hub.core.Stopped? && ws[j].log == ws[i].log && !Live(ws[j])
    decreases j
  {
    hide Apply, Enabled, Inv, LogInv, NobodyPending, AtFinish;
    if i == j {
    } else {
      StaysStopped(ws, es, i, j - 1);
      StoppedStep(ws, es, j - 1);
    }
    QuietUnlessRunning(ws, es, j);
  }

  lemma StoppedStep(ws: seq<World>, es: seq<Event>, k: nat)
    requires Run(ws, es) && k < |es| && ws[k].hub.core.Stopped?
    requires es[k] == Serve(D.Execute) ==> !C.Does(ws[k].hub.phase.task.op, C.Initialise)
    ensures ws[k + 1].hub.core.Stopped? && ws[k + 1].log == ws[k].log
  {
    hide D.Inv, W.Inv, W.Apply, W.Enabled, C.EffectOf, C.Reply, C.ReplyAt, LogInv, Live;
    hide FinishOk, WaitOk, StartsOk, PlaceOk, OrphanOk, AskOk, StopOk;
    RunInv(ws, es, k);
    LiveChanges(ws[k], es[k]);
    LogChanges(ws[k], es[k]);
    if es[k] == Serve(D.Execute) { C.EffectsByWord(ws[k].hub.phase.task.op); }
    var op := HubChanges(ws[k], es[k]);
  }

  // ---------- jobs ----------

  /**
   A job created at position `k` of the log has its outcome written once, right after, and its finish
   submitted once, right after that; only the last job may still lack them.  No other job has its id or
   was created for the same granted start.
   */
  lemma EachJobOnce(ws: seq<World>, es: seq<Event>, i: nat, k: nat)
    requires Run(ws, es) && i < |ws| && k < |ws[i].log| && ws[i].log[k].Created?
    ensures var log, id := ws[i].log, ws[i].log[k].id;
            && (forall m: nat :: m < |log| ==> (log[m].Wrote? && log[m].verdict.id == id <==> m == k + 1))
            && (forall m: nat :: m < |log| ==> (log[m].Finished? && log[m].id == id <==> m == k + 2))
            && (forall m: nat :: m < |log| && Creates(log[m], id) ==> m == k)
            && (forall m: nat :: m < |log| && log[m].Created? && log[m].start == log[k].start ==> m == k)
            && (k + 2 < |log| || (id == Current(ws[i]).id && Stage(ws[i]) > 0))
  {
    hide Inv, StartsMatch, Stage, Current, Triples, DistinctIds, StageMatches, StoreMatches, FinishesMatch;
    RunInv(ws, es, i);
    JobPositions(ws[i].log, k);
    JobsComplete(ws[i], k);
  }

  /** The dispatcher has been given one finish for every job whose triple is complete, and no other. */
  lemma OneFinishEach(ws: seq<World>, es: seq<Event>, i: nat)
    requires Run(ws, es) && i < |ws|
    ensures FinishCount(ws[i].hub.pushed) == |ws[i].log| / 3
  {
    hide Inv, FinishCount;
    RunInv(ws, es, i);
  }

  /** When a job is created, every earlier job has its outcome and its finish. */
  lemma CreatedAlone(ws: seq<World>, es: seq<Event>, i: nat)
    requires Run(ws, es) && i < |es| && es[i].Advance? && ws[i].handler.StartCreate?
    ensures NobodyPending(ws[i]) && es[i].newId !in ws[i].store
    ensures forall k: nat :: k < |ws[i].log| && ws[i].log[k].Created? ==>
              k + 2 < |ws[i].log| && ws[i].log[k + 1].Wrote? && ws[i].log[k + 2].Finished?
  {
    hide LogInv, NobodyPending, W.Inv, Apply;
    hide HubOk, WaitOk, FinishOk, StartsOk, PlaceOk, OrphanOk, AskOk;
    RunInv(ws, es, i);
    StageChanges(ws[i], es[i]);
    NoJobUnderWay(ws[i]);
  }

  /** At most one job is ever pending: exactly the current one, before its outcome is written. */
  lemma AtMostOnePending(ws: seq<World>, es: seq<Event>, i: nat, id: string)
    requires Run(ws, es) && i < |ws| && id in ws[i].store
    ensures ws[i].store[id].status.Pending? <==> id == Current(ws[i]).id && Stage(ws[i]) == 1
  {
    hide Inv, LogInv, Stage, Current;
    RunInv(ws, es, i);
    PendingIsCurrent(ws[i], id);
  }

  /** The thread always finds its job in the store, pending, when it writes the outcome. */
  lemma WritesFindTheJob(ws: seq<World>, es: seq<Event>, i: nat)
    requires Run(ws, es) && i < |es| && es[i] == Work(W.Write)
    ensures ws[i].job.id in ws[i].store && ws[i].store[ws[i].job.id] == S.NEW
  {
    hide W.Inv, W.Apply, D.Apply, Apply, HubOk, WaitOk, FinishOk, StartsOk, PlaceOk, OrphanOk, AskOk, FinishCount;
    RunInv(ws, es, i);
    StageChanges(ws[i], es[i]);
    LastResult(ws[i].log);
  }

  /** A result, once it is not pending, never changes. */
  lemma {:induction false} ResultsAreFinal(ws: seq<World>, es: seq<Event>, i: nat, j: nat, id: string)
    requires Run(ws, es) && i <= j <= |es| && id in ws[i].store && !ws[i].store[id].status.Pending?
    ensures id in ws[j].store && ws[j].store[id] == ws[i].store[id]
    decreases j
  {
    hide Apply, Enabled, S.ResultOf;
    if i == j {
    } else {
      ResultsAreFinal(ws, es, i, j - 1, id);
      LogChanges(ws[j - 1], es[j - 1]);
      if es[j - 1] == Work(W.Write) {
        WritesFindTheJob(ws, es, j - 1);
      }
    }
  }

  /**
   A thread earns the result it writes for a job given `timeoutMs`: its deadline is that long after its
   start, and it is done with the decoding of a frame it read in time that starts with "QR:", timed out
   after its deadline, cancelled after it was asked to stop; and in every case soon enough after its
   deadline, and after being asked to stop.
   */
  ghost predicate Earns(v: W.Job, timeoutMs: int, r: S.JobResult) {
    && v.deadline == v.started + timeoutMs
    && (r.status.Done? ==>
          r.qr.Some? && W.Evidence(v.taken, r.qr.value) && v.now <= v.deadline + 50 * v.eintrs)
    && (r.status.TimedOut? ==> v.deadline <= v.now)
    && (r.status.Cancelled? ==> v.stopAt.Some? && v.stopAt.value <= v.now)
    && v.now <= R.Max(v.started, v.deadline + 20 + 50 * v.eintrs)
    && (v.stopAt.Some? ==> v.now <= v.stopAt.value + R.Max(50, v.reopen))
  }

  lemma VerdictEarns(v: W.Job, timeoutMs: int)
    requires W.Inv(v) && v.pc.Recording? && v.deadline == v.started + timeoutMs
    ensures Earns(v, timeoutMs, S.ResultOf(v.pc.outcome))
  {
    hide W.Evidence;
  }

  /**
   Every job in the store was created once, for a granted start that request `es[a]` asked for; its result is
   earned by the thread that wrote it, within the timeout of that request, and a value is stored exactly for
   done jobs.
   */
  lemma ResultsAreEarned(ws: seq<World>, es: seq<Event>, i: nat, id: string) returns (k: nat, a: nat)
    requires Run(ws, es) && i < |ws| && id in ws[i].store
    ensures var w, r := ws[i], ws[i].store[id];
            && k < |w.log| && Creates(w.log[k], id) && Granted(w, w.log[k].start)
            && a < i && es[a] == Arrive(Start(w.log[k].timeoutMs)) && |ws[a].hub.pushed| == w.log[k].start
            && S.Sound(r)
            && (!r.status.Pending? ==>
                  && k + 1 < |w.log| && w.log[k + 1].Wrote? && w.log[k + 1].verdict.id == id
                  && Earns(w.log[k + 1].verdict, w.log[k].timeoutMs, r))
  {
    hide Inv, W.Inv, Earns, Stage, Current, StageMatches, FinishesMatch, Triples, DistinctIds, Granted, StartsRise;
    RunInv(ws, es, i);
    var log := ws[i].log;
    k :| k < |log| && Creates(log[k], id);
    JobPositions(log, k);
    var b: nat;
    a, b := AskedFor(ws, es, i, log[k].start);
    if k + 1 < |log| {
      VerdictIsRecorded(log, k + 1);
      VerdictEarns(log[k + 1].verdict, log[k].timeoutMs);
    }
  }
}
