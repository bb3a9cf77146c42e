/**
 The whole service as interleaved threads: the request handler, the dispatcher's worker and the
 thread of the current job, sharing the dispatcher's queue, the running flag and the job store.

 Requests are served one at a time; the other two threads run freely between any two steps of a
 handler.  A handler that waits for the dispatcher may give up at any moment before its answer is
 there, leaving its operation in the queue.
 */
module Protocol {
  import opened Cobs
  import C = CoreMachine
  import D = Dispatch
  import W = JobWorker
  import R = FrameReader
  import S = JobStore

  datatype Request = Start(timeoutMs: int) | Stop | Command(text: string)

  /** Where the handler is.  `ticket` names the operation it waits for or was granted. */
  datatype Handler =
    | Ready
    // POST /start
    | StartWait(ticket: nat, timeoutMs: int)                // waiting for the core's answer
    | StartStop(ticket: nat, timeoutMs: int)                // granted; clear the running flag
    | StartJoin(ticket: nat, timeoutMs: int)                // wait for the previous thread to be gone
    | StartCreate(ticket: nat, timeoutMs: int)              // enter a new job in the store
    | StartArm(ticket: nat, timeoutMs: int, id: string)     // set the running flag
    | StartSpawn(ticket: nat, timeoutMs: int, id: string)   // start the thread and reply
    // POST /stop, POST /command with STOP
    | StopFlag(op: C.Op)                                    // clear the running flag
    | StopJoin(op: C.Op)                                    // wait for the thread to be gone
    | StopSubmit(op: C.Op)                                  // push the stop
    | StopWait(ticket: nat)
    // POST /command otherwise
    | CommandWait(ticket: nat)

  /**
   What happened to jobs, in order.  `start` is the granted start a job was created for, `verdict` the
   job's thread as it wrote its outcome, `ticket` the operation that reports it finished.
   */
  datatype Entry =
    | Created(id: string, timeoutMs: int, start: nat)
    | Wrote(verdict: W.Job)
    | Finished(id: string, ticket: nat)

  /**
   The last five fields are history: the start operation the core is running for, the one the current
   thread was started for, the start each finish belongs to, the starts whose handler gave up, and
   the log of jobs.
   */
  datatype World = World(hub: D.Hub, job: W.Job, handler: Handler, store: map<string, S.JobResult>,
                         owner: Option<nat>, seat: nat, finishes: map<nat, nat>, abandoned: set<nat>,
                         log: seq<Entry>)

  datatype Event =
    | Arrive(request: Request)   // a request reaches an idle handler
    | Advance(newId: string)     // the handler's next step; `newId` is the id it generates, if any
    | GiveUp                     // the handler's wait times out
    | Serve(hubEvent: D.Event)   // the dispatcher's worker
    | Work(jobEvent: W.Event)    // the job's thread, or the clock

  function Initial(reopen: int): World {
    World(D.START, W.Job("", 0, 0, reopen, W.Over, false, 0, None, [], 0, 0), Ready, map[],
          None, 0, map[], {}, [])
  }

  predicate Enabled(w: World, e: Event) {
    match e
    case Arrive(_) => w.handler.Ready?
    case Advance(newId) =>
      (match w.handler
       case Ready => false
       case StartWait(t, _) => t in w.hub.answers
       case StartJoin(_, _) => w.job.pc.Over?
       case StartCreate(_, _) => newId !in w.store
       case StopJoin(_) => w.job.pc.Over?
       case StopWait(t) => t in w.hub.answers
       case CommandWait(t) => t in w.hub.answers
       case _ => true)
    case GiveUp =>
      (match w.handler
       case StartWait(t, _) => t !in w.hub.answers
       case StopWait(t) => t !in w.hub.answers
       case CommandWait(t) => t !in w.hub.answers
       case _ => false)
    case Serve(f) => (f.Take? || f.Execute? || f.Fulfil?) && D.Enabled(w.hub, f)
    case Work(f) => !f.RequestStop? && W.Enabled(w.job, f)
  }

  function Pushed(w: World, op: C.Op): World {
    w.(hub := D.Apply(w.hub, D.Push(op)))
  }

  function Arrived(w: World, r: Request): World {
    var ticket := |w.hub.pushed|;
    match r
    case Start(timeoutMs) => Pushed(w, C.StartJob(timeoutMs)).(handler := StartWait(ticket, timeoutMs))
    case Stop => w.(handler := StopFlag(C.Stop))
    case Command(text) =>
      var verb := C.Uppercase(text);
      if verb == "STOP" then w.(handler := StopFlag(C.Command(verb)))
      else Pushed(w, C.Command(verb)).(handler := CommandWait(ticket))
  }

  function Advanced(w: World, newId: string): World
    requires Enabled(w, Advance(newId))
  {
    match w.handler
    case StartWait(t, ms) => w.(handler := if w.hub.answers[t].ok then StartStop(t, ms) else Ready)
    case StartStop(t, ms) => w.(job := W.Apply(w.job, W.RequestStop), handler := StartJoin(t, ms))
    case StartJoin(t, ms) => w.(handler := StartCreate(t, ms))
    case StartCreate(t, ms) =>
      w.(store := w.store[newId := S.NEW], log := w.log + [Created(newId, ms, t)],
         handler := StartArm(t, ms, newId))
    case StartArm(t, ms, id) => w.(job := w.job.(running := true), handler := StartSpawn(t, ms, id))
    case StartSpawn(t, ms, id) => 
      w.(job := W.NewJob(id, ms, w.job.reopen, w.job.now).(running := w.job.running), seat := t, handler := Ready)
    case StopFlag(op) => w.(job := W.Apply(w.job, W.RequestStop), handler := StopJoin(op))
    case StopJoin(op) => w.(handler := StopSubmit(op))
    case StopSubmit(op) => Pushed(w, op).(handler := StopWait(|w.hub.pushed|))
    case StopWait(_) => w.(handler := Ready)
    case CommandWait(_) => w.(handler := Ready)
  }

  /** The core ran the task in the worker's hands: who is it running for now? */
  function OwnerAfter(w: World, t: D.Task): Option<nat> {
    var e := C.EffectOf(t.op);
    if e == C.Launch && w.hub.core.Init? then Some(t.ticket)
    else if e == C.Halt || (e == C.Complete && w.hub.core.Running?) then None
    else w.owner
  }

  function Worked(w: World, f: W.Event): World
    requires W.Enabled(w.job, f)
  {
    var v := w.(job := W.Apply(w.job, f));
    match f
    case Write => v.(store := w.store[w.job.id := S.ResultOf(w.job.pc.outcome)], log := w.log + [Wrote(w.job)])
    case Submit =>
      var ticket := |w.hub.pushed|;
      Pushed(v, C.FinishJob).(finishes := w.finishes[ticket := w.seat], log := w.log + [Finished(w.job.id, ticket)])
    case _ => v
  }

  function Apply(w: World, e: Event): World
    requires Enabled(w, e)
  {
    match e
    case Arrive(r) => Arrived(w, r)
    case Advance(newId) => Advanced(w, newId)
    case GiveUp =>
      w.(handler := Ready, abandoned := if w.handler.StartWait? then w.abandoned + {w.handler.ticket} else w.abandoned)
    case Serve(f) =>
      var v := w.(hub := D.Apply(w.hub, f));
      if f.Execute? then v.(owner := OwnerAfter(w, w.hub.phase.task)) else v
    case Work(f) => Worked(w, f)
  }

  // ---------- the invariant ----------

  predicate Live(w: World) {
    !w.job.pc.Over?
  }

  /** Operation `i` has been pushed and the core has not run it yet. */
  predicate Pending(w: World, i: nat) {
    w.hub.executed <= i < |w.hub.pushed|
  }

  function Effect(w: World, i: nat): C.Effect
    requires i < |w.hub.pushed|
  {
    C.EffectOf(w.hub.pushed[i])
  }

  /** The core granted start `t`. */
  predicate Granted(w: World, t: nat) {
    t < w.hub.executed <= |w.hub.pushed| && C.ReplyAt(w.hub.pushed, t).ok
  }

  /** The start a handler is carrying out, once it has read that it was granted. */
  function Claim(h: Handler): Option<nat> {
    match h
    case StartStop(t, _) => Some(t)
    case StartJoin(t, _) => Some(t)
    case StartCreate(t, _) => Some(t)
    case StartArm(t, _, _) => Some(t)
    case StartSpawn(t, _, _) => Some(t)
    case _ => None
  }

  ghost predicate HubOk(w: World) {
    D.Inv(w.hub) && !w.hub.stopping && !w.hub.phase.Exited?
  }

  /** Start `t` was granted and nothing the core has run since has ended it. */
  ghost predicate Holds(w: World, t: nat) {
    && Granted(w, t) && w.hub.pushed[t].StartJob?
    && forall k: nat :: t < k < w.hub.executed ==> Effect(w, k) != C.Halt && Effect(w, k) != C.Complete
  }

  /** The owner is what the dispatcher's history says: the one granted start that nothing has ended. */
  ghost predicate OwnerOk(w: World) {
    && (w.hub.core.Running? <==> w.owner.Some?)
    && (w.owner.Some? ==> w.owner.value < w.hub.executed)
    && forall t: nat :: Holds(w, t) <==> w.owner == Some(t)
  }

  /** While the job's thread is live, the core runs for it and nothing queued can end that. */
  ghost predicate LiveOk(w: World) {
    Live(w) ==>
      && w.owner == Some(w.seat) && w.seat !in w.abandoned
      && Claim(w.handler).None? && !w.handler.StopSubmit? && !w.handler.StopWait?
      && forall i: nat :: Pending(w, i) ==> Effect(w, i) != C.Halt && Effect(w, i) != C.Complete
  }

  /** A finish that has not run yet is the only one, the core runs for its start, and no stop is ahead of it. */
  ghost predicate FinishOk(w: World) {
    forall i: nat :: Pending(w, i) && Effect(w, i) == C.Complete ==>
      && i in w.finishes && w.owner == Some(w.finishes[i]) && w.finishes[i] !in w.abandoned
      && !Live(w)
      && (forall j: nat :: Pending(w, j) && j < i ==> Effect(w, j) != C.Halt)
      && (forall j: nat :: Pending(w, j) && j != i ==> Effect(w, j) != C.Complete)
  }

  /** A handler that read its grant holds the core, and everything queued has run. */
  ghost predicate ClaimOk(w: World) {
    Claim(w.handler).Some? ==>
      && w.owner == Claim(w.handler) && w.owner.value !in w.abandoned
      && !Live(w) && w.hub.executed == |w.hub.pushed|
      && w.owner.value < |w.hub.pushed| && w.hub.pushed[w.owner.value] == C.StartJob(w.handler.timeoutMs)
      && (w.handler.StartSpawn? ==> w.job.running)
  }

  /** A handler waiting to start is followed only by a finish; once granted, by nothing. */
  ghost predicate WaitOk(w: World) {
    w.handler.StartWait? ==>
      var t := w.handler.ticket;
      && t < |w.hub.pushed| && w.hub.pushed[t] == C.StartJob(w.handler.timeoutMs) && t !in w.abandoned
      && (forall i: nat :: t < i < |w.hub.pushed| ==> Effect(w, i) == C.Complete)
      && (Live(w) ==> w.seat < t)
      && (forall i: nat :: Pending(w, i) && Effect(w, i) == C.Complete && i in w.finishes ==> w.finishes[i] < t)
      && (Granted(w, t) ==> w.owner == Some(t) && !Live(w) && w.hub.executed == |w.hub.pushed|)
  }

  /** A stop is pushed only after the thread is gone, and nothing follows it while its handler waits. */
  ghost predicate StopOk(w: World) {
    && (w.handler.StopFlag? || w.handler.StopJoin? || w.handler.StopSubmit? ==> C.EffectOf(w.handler.op) == C.Halt)
    && (w.handler.StopSubmit? ==> !Live(w))
    && (w.handler.CommandWait? ==> w.handler.ticket < |w.hub.pushed|)
    && (w.handler.StopWait? ==>
          && !Live(w)
          && |w.hub.pushed| == w.handler.ticket + 1
          && Effect(w, w.handler.ticket) == C.Halt
          && (w.hub.executed == |w.hub.pushed| ==> w.hub.core.Stopped?))
  }

  /** Nobody forgets a start: its handler waits for it or gave it up. */
  ghost predicate StartsOk(w: World) {
    && (forall i: nat :: i in w.abandoned ==> i < |w.hub.pushed|)
    && forall i: nat :: Pending(w, i) && Effect(w, i) == C.Launch ==>
      i in w.abandoned || (w.handler.StartWait? && w.handler.ticket == i)
  }

  // The four places the right to run can be.

  /** A granted start whose handler has not yet started the thread. */
  predicate AtHandler(w: World) {
    Claim(w.handler).Some? || (w.handler.StartWait? && Granted(w, w.handler.ticket))
  }

  /** A thread that has not yet submitted its finish. */
  predicate AtThread(w: World) {
    Live(w)
  }

  /** A finish that the core has not run yet. */
  ghost predicate AtFinish(w: World) {
    exists i: nat :: Pending(w, i) && Effect(w, i) == C.Complete
  }

  /** A granted start whose handler had given up: the core runs for nobody. */
  predicate Orphaned(w: World) {
    w.owner.Some? && w.owner.value in w.abandoned
  }

  /** A start given up and granted keeps the core until a stop runs: no finish can end it. */
  ghost predicate OrphanOk(w: World) {
    forall t: nat :: t in w.abandoned && t < |w.hub.pushed| ==>
      && w.hub.pushed[t].StartJob?
      && (Granted(w, t) && NoHaltSince(w, t) ==> w.owner == Some(t))
  }

  /** The core has run no stop after operation `t`. */
  ghost predicate NoHaltSince(w: World, t: nat)
    requires w.hub.executed <= |w.hub.pushed|
  {
    forall k: nat :: t < k < w.hub.executed ==> Effect(w, k) != C.Halt
  }

  /** A live job has been asked to stop exactly while a stop request waits for it. */
  ghost predicate AskOk(w: World) {
    Live(w) ==> (w.job.stopAt.Some? <==> w.handler.StopJoin?)
  }

  ghost predicate PlaceOk(w: World) {
    w.owner.Some? ==> AtHandler(w) || AtThread(w) || AtFinish(w) || Orphaned(w)
  }

  ghost predicate Inv(w: World) {
    && HubOk(w) && W.Inv(w.job) && OwnerOk(w) && LiveOk(w) && FinishOk(w) && ClaimOk(w) && WaitOk(w)
    && StopOk(w) && StartsOk(w) && PlaceOk(w) && OrphanOk(w) && AskOk(w)
  }

  // ---------- every step keeps it ----------

  /** What the worker holds is the oldest operation the core has not run. */
  lemma TaskFacts(h: D.Hub)
    requires D.Inv(h)
    ensures h.executed <= |h.pushed|
    ensures h.phase.Taken? ==> h.executed < |h.pushed| && h.phase.task == D.Task(h.pushed[h.executed], h.executed)
    ensures h.phase.Taken? ==> C.ReplyAt(h.pushed, h.executed) == C.Reply(h.core, h.pushed[h.executed])
    ensures forall t: nat :: t in h.answers ==> t < h.executed && h.answers[t] == C.ReplyAt(h.pushed, t)
  {
    hide C.Reply, C.EffectOf, C.Next, C.Fold;
  }

  /** Effects of the operations the service pushes, without looking into command texts. */
  lemma EffectFacts(op: C.Op)
    ensures op.StartJob? <==> C.EffectOf(op) == C.Launch
    ensures op.FinishJob? <==> C.EffectOf(op) == C.Complete
    ensures op.Stop? ==> C.EffectOf(op) == C.Halt
    ensures forall st: C.State :: op.StartJob? ==> (C.Reply(st, op).ok <==> st.Init?)
  {
  }

  lemma AllEffectFacts(w: World)
    ensures forall i: nat :: i < |w.hub.pushed| ==>
              && (w.hub.pushed[i].StartJob? <==> Effect(w, i) == C.Launch)
              && (w.hub.pushed[i].FinishJob? <==> Effect(w, i) == C.Complete)
  {
    hide C.EffectOf;
    forall i: nat | i < |w.hub.pushed| {
      EffectFacts(w.hub.pushed[i]);
    }
  }

  /** A command other than STOP, as the handler pushes it, never halts. */
  lemma CommandFacts(text: string)
    ensures var verb := C.Uppercase(text);
            && (verb == "STOP" ==> C.EffectOf(C.Command(verb)) == C.Halt)
            && (verb != "STOP" ==> C.EffectOf(C.Command(verb)) in {C.Initialise, C.Nothing})
  {
    C.UppercaseTwice(text);
  }

  lemma StepHub(w: World, e: Event)
    requires Inv(w) && Enabled(w, e)
    ensures HubOk(Apply(w, e))
  {
    hide D.Inv, C.EffectOf, C.Reply, C.Next, W.Inv, W.Apply, W.Enabled, C.Uppercase;
    hide LiveOk, FinishOk, ClaimOk, WaitOk, StopOk, StartsOk, PlaceOk, OrphanOk, AskOk;
    match e
    case Arrive(Start(ms)) => D.StepInv(w.hub, D.Push(C.StartJob(ms)));
    case Arrive(Command(text)) => D.StepInv(w.hub, D.Push(C.Command(C.Uppercase(text))));
    case Advance(_) => if w.handler.StopSubmit? { D.StepInv(w.hub, D.Push(w.handler.op)); }
    case Serve(f) => D.StepInv(w.hub, f);
    case Work(f) => if f.Submit? { D.StepInv(w.hub, D.Push(C.FinishJob)); }
    case _ =>
  }

  lemma StepJob(w: World, e: Event)
    requires Inv(w) && Enabled(w, e)
    ensures W.Inv(Apply(w, e).job)
  {
    hide W.Inv, W.Apply, W.Enabled, D.Apply, D.Enabled, D.Inv, C.EffectOf, C.Uppercase, C.ReplyAt;
    hide LiveOk, FinishOk, WaitOk, StopOk, StartsOk, PlaceOk, OrphanOk, AskOk;
    match e
    case Advance(_) =>
      JobFacts(w.job);
      match w.handler {
        case StartStop(_, _) => W.StepInv(w.job, W.RequestStop);
        case StopFlag(_) => W.StepInv(w.job, W.RequestStop);
        case StartArm(_, _, _) => GoneInv(w.job);
        case StartSpawn(_, ms, id) => W.StartInv(id, ms, w.job.reopen, w.job.now);
        case _ =>
      }
    case Work(f) => W.StepInv(w.job, f);
    case _ =>
  }

  lemma JobFacts(j: W.Job)
    ensures W.Enabled(j, W.RequestStop)
    ensures W.Inv(j) ==> j.reopen >= 0
  {
  }

  lemma GoneInv(j: W.Job)
    requires W.Inv(j) && j.pc.Over?
    ensures W.Inv(j.(running := true))
  {
  }

  /** How a step changes the operations and which of them have run; nothing else does. */
  lemma HubChanges(w: World, e: Event) returns (op: Option<C.Op>)
    requires Inv(w) && Enabled(w, e)
    ensures var h, h' := w.hub, Apply(w, e).hub;
            && h'.pushed == h.pushed + (if op.Some? then [op.value] else [])
            && h'.executed == h.executed + (if e == Serve(D.Execute) then 1 else 0)
            && (e != Serve(D.Execute) ==> h'.core == h.core)
            && (op.Some? ==> e != Serve(D.Execute))
    ensures op.Some? <==>
              || (e.Arrive? && e.request.Start?) || (e.Arrive? && Apply(w, e).handler.CommandWait?)
              || (e.Advance? && w.handler.StopSubmit?) || e == Work(W.Submit)
    ensures e.Advance? && w.handler.StopSubmit? ==> op == Some(w.handler.op)
    ensures e == Work(W.Submit) ==> op == Some(C.FinishJob)
    ensures e.Arrive? && op.Some? ==>
              match e.request
              case Start(ms) => op.value == C.StartJob(ms)
              case Command(text) => op.value == C.Command(C.Uppercase(text))
              case Stop => false
  {
    hide W.Apply, W.Enabled, W.Inv, D.Inv, C.EffectOf, C.Reply, C.Next, C.Uppercase;
    hide LiveOk, FinishOk, ClaimOk, WaitOk, StopOk, StartsOk, PlaceOk, OrphanOk, AskOk;
    op := match e
          case Arrive(Start(ms)) => Some(C.StartJob(ms))
          case Arrive(Command(text)) => if C.Uppercase(text) == "STOP" then None else Some(C.Command(C.Uppercase(text)))
          case Advance(_) => if w.handler.StopSubmit? then Some(w.handler.op) else None
          case Work(f) => if f.Submit? then Some(C.FinishJob) else None
          case _ => None;
  }

  /** Only the dispatcher's worker changes who the core runs for. */
  lemma OwnerChanges(w: World, e: Event)
    requires Enabled(w, e) && e != Serve(D.Execute)
    ensures Apply(w, e).owner == w.owner
  {
    hide W.Apply, W.Enabled, D.Apply, C.EffectOf, C.Uppercase;
  }

  /** An operation keeps its place and its effect. */
  lemma SameEffects(w: World, w': World)
    requires w.hub.pushed <= w'.hub.pushed
    ensures forall i: nat {:trigger Effect(w', i)} :: i < |w.hub.pushed| ==> Effect(w', i) == Effect(w, i)
  {
    hide C.EffectOf;
  }

  /** A step leaves the answers to operations that have run as they were. */
  lemma SameGrants(w: World, w': World, op: Option<C.Op>)
    requires w'.hub.pushed == w.hub.pushed + (if op.Some? then [op.value] else [])
    requires w.hub.executed <= w'.hub.executed <= |w.hub.pushed|
    ensures forall t: nat {:trigger Granted(w', t)} :: t < w.hub.executed ==> (Granted(w', t) <==> Granted(w, t))
  {
    hide C.Reply, C.Fold, C.EffectOf;
    if op.Some? {
      C.PushKeeps(w.hub.pushed, op.value);
    } else {
      assert w.hub.pushed + [] == w.hub.pushed;
    }
  }

  /** A start keeps the core as long as nothing the core runs ends it. */
  lemma HoldsStays(w: World, w': World, op: Option<C.Op>, t: nat)
    requires w'.hub.pushed == w.hub.pushed + (if op.Some? then [op.value] else [])
    requires w.hub.executed <= w'.hub.executed <= |w.hub.pushed| && w'.hub.executed <= w.hub.executed + 1
    requires t < w.hub.executed
    ensures var i := w.hub.executed;
            && (Holds(w', t) <==>
                  Holds(w, t) && (w'.hub.executed == i || (Effect(w, i) != C.Halt && Effect(w, i) != C.Complete)))
            && (NoHaltSince(w', t) <==> NoHaltSince(w, t) && (w'.hub.executed == i || Effect(w, i) != C.Halt))
  {
    hide C.EffectOf, Granted;
    GrantedIsRun(w');
    GrantedIsRun(w);
    SameGrants(w, w', op);
    SameEffects(w, w');
    assert forall k: nat :: t < k < w.hub.executed ==> Effect(w', k) == Effect(w, k);
    if w'.hub.executed > w.hub.executed {
      assert Effect(w', w.hub.executed) == Effect(w, w.hub.executed);
    }
  }

  lemma GrantedIsRun(w: World)
    ensures forall t: nat :: Granted(w, t) ==> t < w.hub.executed <= |w.hub.pushed|
  {
  }

  /** The core runs an operation: it starts, keeps or loses its owner as the history says. */
  lemma OwnerExecutes(w: World)
    requires Inv(w) && Enabled(w, Serve(D.Execute))
    ensures OwnerOk(Apply(w, Serve(D.Execute)))
  {
    hide W.Inv, D.Inv, C.EffectOf, C.Reply, C.ReplyAt, Holds, Granted;
    hide LiveOk, FinishOk, ClaimOk, WaitOk, StopOk, StartsOk, PlaceOk, OrphanOk, AskOk;
    TaskFacts(w.hub);
    var i, w' := w.hub.executed, Apply(w, Serve(D.Execute));
    EffectFacts(w.hub.pushed[i]);
    forall t: nat ensures Holds(w', t) <==> w'.owner == Some(t) {
      if t < i {
        HoldsStays(w, w', None, t);
      } else {
        NewestHolds(w', t);
      }
    }
  }

  /** Of the operation run last, and of those not run, only a start just granted holds the core. */
  lemma NewestHolds(w: World, t: nat)
    requires 0 < w.hub.executed <= |w.hub.pushed| && t >= w.hub.executed - 1
    ensures Holds(w, t) <==>
            t == w.hub.executed - 1 && w.hub.pushed[t].StartJob? && C.ReplyAt(w.hub.pushed, t).ok
  {
    hide C.EffectOf, C.ReplyAt;
  }

  lemma StepOwner(w: World, e: Event)
    requires Inv(w) && Enabled(w, e)
    ensures OwnerOk(Apply(w, e))
  {
    hide W.Inv, W.Apply, W.Enabled, D.Inv, D.Apply, C.EffectOf, C.ReplyAt, Apply, Enabled, Holds, Granted;
    hide LiveOk, FinishOk, ClaimOk, WaitOk, StopOk, StartsOk, PlaceOk, OrphanOk, AskOk;
    if e == Serve(D.Execute) {
      OwnerExecutes(w);
    } else {
      TaskFacts(w.hub);
      OwnerChanges(w, e);
      var op := HubChanges(w, e);
      forall t: nat ensures Holds(Apply(w, e), t) <==> Holds(w, t) {
        if t < w.hub.executed {
          HoldsStays(w, Apply(w, e), op, t);
        } else {
          OnlyRunHolds(w, t);
          OnlyRunHolds(Apply(w, e), t);
        }
      }
    }
  }

  lemma OnlyRunHolds(w: World, t: nat)
    requires t >= w.hub.executed
    ensures !Holds(w, t)
  {
  }

  lemma OrphanExecutes(w: World)
    requires Inv(w) && Enabled(w, Serve(D.Execute))
    ensures OrphanOk(Apply(w, Serve(D.Execute)))
  {
    hide W.Inv, D.Inv, C.EffectOf, C.Reply, C.ReplyAt, Holds, Granted, NoHaltSince;
    hide LiveOk, ClaimOk, WaitOk, StopOk, StartsOk, PlaceOk;
    TaskFacts(w.hub);
    AllEffectFacts(w);
    var i, w' := w.hub.executed, Apply(w, Serve(D.Execute));
    EffectFacts(w.hub.pushed[i]);
    GrantedIsRun(w');
    SameGrants(w, w', None);
    assert Pending(w, i);
    forall t: nat | t in w'.abandoned && t < |w'.hub.pushed|
      ensures w'.hub.pushed[t].StartJob? && (Granted(w', t) && NoHaltSince(w', t) ==> w'.owner == Some(t))
    {
      if t < i {
        HoldsStays(w, w', None, t);
      } else if t == i {
        JustGranted(w', t);
      }
    }
  }

  lemma JustGranted(w: World, t: nat)
    requires t < |w.hub.pushed|
    ensures Granted(w, t) ==> C.ReplyAt(w.hub.pushed, t).ok
  {
    hide C.ReplyAt;
  }

  /** Only a handler giving up adds to the starts given up. */
  lemma AbandonedChanges(w: World, e: Event)
    requires Enabled(w, e)
    ensures Apply(w, e).abandoned ==
            w.abandoned + if e.GiveUp? && w.handler.StartWait? then {w.handler.ticket} else {}
  {
    hide W.Apply, W.Enabled, D.Apply, C.EffectOf, C.Uppercase;
  }

  lemma StepOrphan(w: World, e: Event)
    requires Inv(w) && Enabled(w, e)
    ensures OrphanOk(Apply(w, e))
  {
    hide W.Inv, W.Apply, W.Enabled, D.Inv, D.Apply, C.EffectOf, C.ReplyAt, Apply, Enabled, Holds, Granted, NoHaltSince;
    hide LiveOk, FinishOk, ClaimOk, StopOk, PlaceOk, OwnerOk;
    if e == Serve(D.Execute) {
      OrphanExecutes(w);
    } else {
      TaskFacts(w.hub);
      OwnerChanges(w, e);
      AbandonedChanges(w, e);
      var op := HubChanges(w, e);
      var w' := Apply(w, e);
      GrantedIsRun(w');
      SameGrants(w, w', op);
      forall t: nat | t in w'.abandoned && t < |w'.hub.pushed|
        ensures w'.hub.pushed[t].StartJob? && (Granted(w', t) && NoHaltSince(w', t) ==> w'.owner == Some(t))
      {
        if t < w.hub.executed {
          HoldsStays(w, w', op, t);
        }
      }
    }
  }

  lemma LiveChanges(w: World, e: Event)
    requires Enabled(w, e)
    ensures Live(Apply(w, e)) <==> e != Work(W.Submit) && (Live(w) || (e.Advance? && w.handler.StartSpawn?))
    ensures e.Work? && !e.jobEvent.Tick? ==> Live(w)
    ensures e.Advance? && (w.handler.StartJoin? || w.handler.StopJoin?) ==> !Live(w)
    ensures e.Work? && !Live(w) ==> Apply(w, e).job.running == w.job.running
  {
    hide D.Apply, C.EffectOf, C.Uppercase, R.Settle, Decode;
  }

  lemma StepAsk(w: World, e: Event)
    requires Inv(w) && Enabled(w, e)
    ensures AskOk(Apply(w, e))
  {
    hide D.Apply, D.Inv, C.EffectOf, C.Uppercase, C.ReplyAt, W.Inv, W.Looked, W.Enabled;
    hide HubOk, OwnerOk, LiveOk, FinishOk, WaitOk, StopOk, StartsOk, PlaceOk, OrphanOk;
    LiveChanges(w, e);
    if e.Work? {
      hide Apply, Enabled, W.Apply, Live;
      WorkAsksNobody(w, e.jobEvent);
    }
  }

  /** A thread does not ask itself to stop. */
  lemma WorkAsksNobody(w: World, f: W.Event)
    requires Enabled(w, Work(f))
    ensures Apply(w, Work(f)).job.stopAt == w.job.stopAt && Apply(w, Work(f)).handler == w.handler
  {
    hide D.Apply, C.EffectOf, R.Settle, Decode;
  }

  lemma StepLive(w: World, e: Event)
    requires Inv(w) && Enabled(w, e)
    ensures LiveOk(Apply(w, e))
  {
    hide W.Apply, W.Enabled, W.Inv, D.Inv, C.EffectOf, C.Reply, C.Uppercase, C.Next, C.ReplyAt, Live, Holds;
    hide StartsOk, PlaceOk, OrphanOk, AskOk;
    LiveChanges(w, e);
    TaskFacts(w.hub);
    AllEffectFacts(w);
    var op := HubChanges(w, e);
    if e.Arrive? && e.request.Command? { CommandFacts(e.request.text); }
    if op.Some? { EffectFacts(op.value); }
  }

  lemma StepFinish(w: World, e: Event)
    requires Inv(w) && Enabled(w, e)
    ensures FinishOk(Apply(w, e))
  {
    hide W.Apply, W.Enabled, W.Inv, D.Inv, C.EffectOf, C.Reply, C.Uppercase, C.Next, C.ReplyAt, Live, Holds;
    hide StartsOk, PlaceOk, OrphanOk, AskOk;
    LiveChanges(w, e);
    TaskFacts(w.hub);
    AllEffectFacts(w);
    var op := HubChanges(w, e);
    if e.Arrive? && e.request.Command? { CommandFacts(e.request.text); }
    if op.Some? { EffectFacts(op.value); }
  }

  lemma StepClaim(w: World, e: Event)
    requires Inv(w) && Enabled(w, e)
    ensures ClaimOk(Apply(w, e))
  {
    hide W.Apply, W.Enabled, W.Inv, D.Inv, C.EffectOf, C.Reply, C.Uppercase, C.Next, C.ReplyAt, Live, Holds;
    hide StartsOk, PlaceOk, OrphanOk, AskOk, FinishOk;
    LiveChanges(w, e);
    TaskFacts(w.hub);
    var op := HubChanges(w, e);
  }

  lemma StepStop(w: World, e: Event)
    requires Inv(w) && Enabled(w, e)
    ensures StopOk(Apply(w, e))
  {
    hide W.Apply, W.Enabled, W.Inv, D.Inv, C.EffectOf, C.Reply, C.Uppercase, C.ReplyAt, Live, Holds;
    hide StartsOk, PlaceOk, OrphanOk, AskOk, FinishOk, WaitOk;
    LiveChanges(w, e);
    TaskFacts(w.hub);
    var op := HubChanges(w, e);
    if e.Arrive? && e.request.Command? { CommandFacts(e.request.text); }
    if op.Some? { EffectFacts(op.value); }
    EffectFacts(C.Stop);
  }

  lemma StepStarts(w: World, e: Event)
    requires Inv(w) && Enabled(w, e)
    ensures StartsOk(Apply(w, e))
  {
    hide W.Apply, W.Enabled, W.Inv, D.Inv, C.EffectOf, C.Reply, C.Uppercase, C.Next, C.ReplyAt, Live, Holds;
    hide PlaceOk, OrphanOk, AskOk, FinishOk, ClaimOk, LiveOk;
    TaskFacts(w.hub);
    AllEffectFacts(w);
    var op := HubChanges(w, e);
    if e.Arrive? && e.request.Command? { CommandFacts(e.request.text); }
    if op.Some? { EffectFacts(op.value); }
  }

  /** Pushing leaves earlier grants as they were. */
  lemma GrantsStay(w: World, op: C.Op, t: nat)
    requires w.hub.executed <= |w.hub.pushed|
    ensures Granted(Pushed(w, op), t) <==> Granted(w, t)
  {
    hide C.Reply, C.Fold, C.EffectOf;
    C.PushKeeps(w.hub.pushed, op);
  }

  lemma WaitArrives(w: World, ms: int)
    requires Inv(w) && Enabled(w, Arrive(Start(ms)))
    ensures WaitOk(Apply(w, Arrive(Start(ms))))
  {
    hide W.Inv, D.Inv, C.EffectOf, C.Reply, C.Next, C.ReplyAt, PlaceOk, OrphanOk, AskOk, StopOk, ClaimOk, Holds;
    TaskFacts(w.hub);
    AllEffectFacts(w);
    EffectFacts(C.StartJob(ms));
  }

  /** The core runs an operation while a handler waits to start. */
  lemma WaitExecutes(w: World)
    requires Inv(w) && Enabled(w, Serve(D.Execute))
    ensures WaitOk(Apply(w, Serve(D.Execute)))
  {
    hide W.Inv, D.Inv, C.EffectOf, C.Reply, C.Next, C.ReplyAt, PlaceOk, OrphanOk, AskOk, StopOk, ClaimOk, Holds;
    TaskFacts(w.hub);
    AllEffectFacts(w);
    var i := w.hub.executed;
    EffectFacts(w.hub.pushed[i]);
    assert i + 1 < |w.hub.pushed| && Effect(w, i + 1) == C.Complete ==> Pending(w, i + 1) && w.hub.core.Running?;
  }

  /** The job's thread makes a step while a handler waits to start. */
  lemma WaitWorks(w: World, f: W.Event)
    requires Inv(w) && Enabled(w, Work(f))
    ensures WaitOk(Apply(w, Work(f)))
  {
    hide W.Apply, W.Enabled, W.Inv, D.Inv, C.EffectOf, C.Reply, C.Next, C.ReplyAt, Live, Holds;
    hide PlaceOk, OrphanOk, AskOk, StopOk, StartsOk, ClaimOk, FinishOk;
    LiveChanges(w, Work(f));
    TaskFacts(w.hub);
    AllEffectFacts(w);
    EffectFacts(C.FinishJob);
    var op := HubChanges(w, Work(f));
    if w.handler.StartWait? {
      GrantsStay(w, C.FinishJob, w.handler.ticket);
    }
  }

  /** The dispatcher's worker takes a task or answers one while a handler waits to start. */
  lemma WaitServes(w: World, f: D.Event)
    requires Inv(w) && Enabled(w, Serve(f)) && !f.Execute?
    ensures WaitOk(Apply(w, Serve(f)))
  {
    hide W.Inv, D.Inv, C.EffectOf, C.Reply, C.Next, C.ReplyAt, Live, Holds;
    hide PlaceOk, OrphanOk, AskOk, StopOk, StartsOk, ClaimOk, FinishOk, LiveOk, OwnerOk;
    LiveChanges(w, Serve(f));
    SameEffects(w, Apply(w, Serve(f)));
  }

  /** No other step leads to waiting to start. */
  lemma WaitEntered(w: World, e: Event)
    requires Enabled(w, e) && !e.Work? && !e.Serve? && !(e.Arrive? && e.request.Start?)
    ensures !Apply(w, e).handler.StartWait?
  {
    hide W.Apply, D.Apply, C.EffectOf, C.Uppercase;
  }

  lemma StepWait(w: World, e: Event)
    requires Inv(w) && Enabled(w, e)
    ensures WaitOk(Apply(w, e))
  {
    hide Inv, Apply, Enabled;
    match e
    case Serve(f) => if f.Execute? { WaitExecutes(w); } else { WaitServes(w, f); }
    case Work(f) => WaitWorks(w, f);
    case Arrive(Start(ms)) => WaitArrives(w, ms);
    case _ => WaitEntered(w, e);
  }

  lemma StepPlace(w: World, e: Event)
    requires Inv(w) && Enabled(w, e)
    ensures PlaceOk(Apply(w, e))
  {
    hide W.Apply, W.Enabled, W.Inv, D.Inv, C.EffectOf, C.Reply, C.Uppercase, C.Next, C.ReplyAt;
    hide Live, Holds, OrphanOk, AskOk, StopOk;
    LiveChanges(w, e);
    TaskFacts(w.hub);
    AllEffectFacts(w);
    var op := HubChanges(w, e);
    if op.Some? { EffectFacts(op.value); }
    if e == Serve(D.Execute) { EffectFacts(w.hub.pushed[w.hub.executed]); }
    var w' := Apply(w, e);
    if e == Work(W.Submit) {
      assert Pending(w', |w.hub.pushed|) && Effect(w', |w.hub.pushed|) == C.Complete;
    } else if i: nat :| Pending(w, i) && Effect(w, i) == C.Complete {
      assert i < |w'.hub.pushed| && Effect(w', i) == Effect(w, i);
      assert w'.owner.Some? ==> Pending(w', i);
    }
  }
}
