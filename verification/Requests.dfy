/** What every request comes to, from its arrival to the moment the handler is ready for another. */
module Requests {
  import opened Protocol
  import opened JobHistory
  import opened Service
  import C = CoreMachine
  import D = Dispatch
  import W = JobWorker

  /** The handler carries out a stop that was asked for as `op`. */
  predicate CarriesStop(w: World, op: C.Op) {
    || (Stopping(w.handler) && w.handler.op == op)
    || (w.handler.StopWait? && w.handler.ticket < |w.hub.pushed| && w.hub.pushed[w.handler.ticket] == op)
  }

  /** The handler carries out a start of `timeoutMs`, pushed as operation `t`. */
  predicate CarriesStart(w: World, timeoutMs: int, t: nat) {
    && (w.handler.StartWait? || Claim(w.handler).Some?) && w.handler.ticket == t && w.handler.timeoutMs == timeoutMs
    && t < |w.hub.pushed| && w.hub.pushed[t] == C.StartJob(timeoutMs)
    && (w.handler.StartArm? || w.handler.StartSpawn? ==>
          w.log != [] && w.log[|w.log| - 1] == Created(w.handler.id, timeoutMs, t))
  }

  predicate CarriesCommand(w: World, text: string, t: nat) {
    w.handler == CommandWait(t) && t < |w.hub.pushed| && w.hub.pushed[t] == C.Command(C.Uppercase(text))
  }

  /** The handler serves request `r`, which arrived when `t` operations had been pushed. */
  predicate Carries(w: World, r: Request, t: nat) {
    match r
    case Start(timeoutMs) => CarriesStart(w, timeoutMs, t)
    case Stop => CarriesStop(w, C.Stop)
    case Command(text) =>
      if C.Uppercase(text) == "STOP" then CarriesStop(w, C.Command("STOP")) else CarriesCommand(w, text, t)
  }

  lemma ArrivalCarries(w: World, r: Request)
    requires Enabled(w, Arrive(r))
    ensures Carries(Apply(w, Arrive(r)), r, |w.hub.pushed|)
  {
    hide C.Uppercase;
  }

  lemma AdvanceStart(w: World, newId: string, ms: int, t: nat)
    requires Enabled(w, Advance(newId)) && CarriesStart(w, ms, t)
    ensures Apply(w, Advance(newId)).handler.Ready? || CarriesStart(Apply(w, Advance(newId)), ms, t)
  {
    hide W.Apply;
  }

  lemma AdvanceStop(w: World, newId: string, op: C.Op)
    requires Enabled(w, Advance(newId)) && CarriesStop(w, op)
    ensures Apply(w, Advance(newId)).handler.Ready? || CarriesStop(Apply(w, Advance(newId)), op)
  {
    hide W.Apply;
  }

  lemma AdvanceCommand(w: World, newId: string, text: string, t: nat)
    requires Enabled(w, Advance(newId)) && CarriesCommand(w, text, t)
    ensures Apply(w, Advance(newId)).handler.Ready?
  {
    hide W.Apply, C.Uppercase;
  }

  lemma AdvanceCarries(w: World, newId: string, r: Request, t: nat)
    requires Enabled(w, Advance(newId)) && Carries(w, r, t)
    ensures Apply(w, Advance(newId)).handler.Ready? || Carries(Apply(w, Advance(newId)), r, t)
  {
    hide Apply, Enabled, C.Uppercase, CarriesStart, CarriesStop, CarriesCommand;
    match r
    case Start(ms) => AdvanceStart(w, newId, ms, t);
    case Stop => AdvanceStop(w, newId, C.Stop);
    case Command(text) =>
      if C.Uppercase(text) == "STOP" {
        AdvanceStop(w, newId, C.Command("STOP"));
      } else {
        AdvanceCommand(w, newId, text, t);
      }
  }

  /** Another thread's step leaves the handler where it is. */
  lemma OtherCarries(w: World, e: Event, r: Request, t: nat)
    requires Inv(w) && Enabled(w, e) && Carries(w, r, t) && (e.Serve? || e.Work?)
    ensures Carries(Apply(w, e), r, t)
  {
    hide C.Uppercase, C.EffectOf, C.ReplyAt, W.Inv, D.Inv, Apply, Enabled, Live;
    hide HubOk, OwnerOk, LiveOk, FinishOk, WaitOk, StopOk, StartsOk, PlaceOk, OrphanOk, AskOk;
    LiveChanges(w, e);
    LogChanges(w, e);
    OthersKeep(w, e);
    var op := HubChanges(w, e);
  }

  lemma OthersKeep(w: World, e: Event)
    requires Enabled(w, e) && (e.Serve? || e.Work?)
    ensures Apply(w, e).handler == w.handler
  {
    hide W.Apply, W.Enabled, D.Apply, C.EffectOf;
  }

  lemma {:induction false} Carried(ws: seq<World>, es: seq<Event>, a: nat, k: nat)
    requires Run(ws, es) && a < k < |ws| && es[a].Arrive?
    requires forall m :: a < m <= k ==> !ws[m].handler.Ready?
    ensures Carries(ws[k], es[a].request, |ws[a].hub.pushed|)
    decreases k
  {
    hide Carries, Inv, LogInv, Apply;
    if k == a + 1 {
      ArrivalCarries(ws[a], es[a].request);
    } else {
      var r, t, w, e := es[a].request, |ws[a].hub.pushed|, ws[k - 1], es[k - 1];
      Carried(ws, es, a, k - 1);
      RunInv(ws, es, k - 1);
      assert ws[k - 1 + 1] == Apply(w, e);
      match e
      case Advance(newId) => AdvanceCarries(w, newId, r, t);
      case GiveUp => GiveUpReadies(w);
      case Arrive(_) =>
      case _ => OtherCarries(w, e, r, t);
    }
  }

  lemma GiveUpReadies(w: World)
    requires Enabled(w, GiveUp)
    ensures Apply(w, GiveUp).handler.Ready?
  {
  }

  /** A start that is over: refused, or turned into a job with the timeout asked for. */
  ghost predicate StartDone(w: World, w': World, timeoutMs: int, t: nat) {
    if w.handler.StartWait? then
      t in w.hub.answers && !w.hub.answers[t].ok && w'.job == w.job && w'.log == w.log && w'.store == w.store
    else
      && w.handler.StartSpawn? && Granted(w, t) && w'.seat == t
      && w'.job == W.NewJob(w.handler.id, timeoutMs, w.job.reopen, w.job.now)
      && w'.log != [] && w'.log[|w'.log| - 1] == Created(w.handler.id, timeoutMs, t)
      && w.handler.id in w'.store && w'.store[w.handler.id].status.Pending?
  }

  /** A stop that is over: the operation asked for has been answered, and nothing is left running. */
  ghost predicate StopDone(w: World, op: C.Op) {
    && w.handler.StopWait? && w.handler.ticket in w.hub.answers && w.handler.ticket < |w.hub.pushed|
    && w.hub.pushed[w.handler.ticket] == op && w.hub.answers[w.handler.ticket].ok
    && w.hub.core.Stopped? && !Live(w) && w.hub.executed == |w.hub.pushed| && NobodyPending(w)
  }

  /** A command that is over: it has been answered as the core answers it in its turn. */
  ghost predicate CommandDone(w: World, text: string, t: nat) {
    && t in w.hub.answers && t < |w.hub.pushed| && w.hub.pushed[t] == C.Command(C.Uppercase(text))
    && w.hub.answers[t] == C.ReplyAt(w.hub.pushed, t)
  }

  ghost predicate Done(w: World, w': World, r: Request, t: nat) {
    match r
    case Start(timeoutMs) => StartDone(w, w', timeoutMs, t)
    case Stop => StopDone(w, C.Stop)
    case Command(text) =>
      if C.Uppercase(text) == "STOP" then StopDone(w, C.Command("STOP")) else CommandDone(w, text, t)
  }

  lemma StartEnds(ws: seq<World>, es: seq<Event>, j: nat, ms: int, t: nat)
    requires Run(ws, es) && j < |es| && es[j].Advance? && CarriesStart(ws[j], ms, t) && ws[j + 1].handler.Ready?
    ensures StartDone(ws[j], ws[j + 1], ms, t)
  {
    hide W.Inv, D.Inv, D.Apply, C.EffectOf, C.ReplyAt, FinishCount;
    hide Triples, DistinctIds, StartsMatch, StartsRise, FinishesMatch;
    hide LiveOk, FinishOk, WaitOk, StopOk, StartsOk, PlaceOk, OrphanOk, AskOk;
    RunInv(ws, es, j);
  }

  lemma StopEnds(ws: seq<World>, es: seq<Event>, j: nat, op: C.Op)
    requires Run(ws, es) && j < |es| && es[j].Advance? && CarriesStop(ws[j], op) && ws[j + 1].handler.Ready?
    ensures StopDone(ws[j], op)
  {
    hide W.Apply, D.Apply, NobodyPending, Live;
    StopAnswers(ws, es, j);
  }

  lemma CommandEnds(ws: seq<World>, es: seq<Event>, j: nat, text: string, t: nat)
    requires Run(ws, es) && j < |es| && es[j].Advance? && CarriesCommand(ws[j], text, t)
    ensures CommandDone(ws[j], text, t)
  {
    hide W.Inv, C.Uppercase, C.ReplyAt, C.EffectOf, LogInv, Apply, D.Inv;
    hide OwnerOk, LiveOk, FinishOk, ClaimOk, WaitOk, StopOk, StartsOk, PlaceOk, OrphanOk, AskOk;
    RunInv(ws, es, j);
    TaskFacts(ws[j].hub);
  }

  /** The operation a handler waits for. */
  ghost predicate StillUnanswered(w: World, r: Request) {
    && (w.handler.StartWait? || w.handler.StopWait? || w.handler.CommandWait?)
    && w.handler.ticket < |w.hub.pushed| && Asks(r, w.hub.pushed[w.handler.ticket])
    && w.handler.ticket !in w.hub.answers
  }

  /**
   Every request is carried out as asked: when the handler is ready again, either its wait timed out with the
   operation the request asked for unanswered, or a start has been refused or turned into a job with the
   timeout asked for, a stop has left nothing running, a command has been answered by the core.
   */
  lemma CarriedOut(ws: seq<World>, es: seq<Event>, a: nat, j: nat)
    requires Run(ws, es) && a < j < |es| && es[a].Arrive?
    requires (forall m :: a < m <= j ==> !ws[m].handler.Ready?) && ws[j + 1].handler.Ready?
    ensures var r, t := es[a].request, |ws[a].hub.pushed|;
            if es[j].GiveUp? then StillUnanswered(ws[j], r)
            else es[j].Advance? && Done(ws[j], ws[j + 1], r, t)
  {
    hide CarriesStart, CarriesStop, CarriesCommand, StartDone, StopDone, CommandDone;
    hide StillUnanswered, C.Uppercase, Apply;
    Carried(ws, es, a, j);
    var w, e, r, t := ws[j], es[j], es[a].request, |ws[a].hub.pushed|;
    if e.Serve? || e.Work? { OthersKeep(w, e); }
    if e.GiveUp? {
      Unanswered(w, r, t);
    } else if e.Advance? {
      match r
      case Start(ms) => StartEnds(ws, es, j, ms, t);
      case Stop => StopEnds(ws, es, j, C.Stop);
      case Command(text) =>
        if C.Uppercase(text) == "STOP" {
          StopEnds(ws, es, j, C.Command("STOP"));
        } else {
          CommandEnds(ws, es, j, text, t);
        }
    }
  }

  lemma Unanswered(w: World, r: Request, t: nat)
    requires Enabled(w, GiveUp) && Carries(w, r, t)
    ensures StillUnanswered(w, r)
  {
    hide C.Uppercase;
  }
}
