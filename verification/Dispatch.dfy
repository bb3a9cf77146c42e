/**
 The dispatcher: any thread may push an operation and hold a promise for its answer; one worker
 takes operations in order, runs each on the core and fulfils its promise.

 `Hub` is the shared state and `Event` one atomic action of one thread, so a sequence of events is
 one interleaving.  A promise is named by its ticket, the position of the operation in push order.
 */
module Dispatch {
  import opened CoreMachine

  datatype Task = Task(op: Op, ticket: nat)

  /** Where the worker is: waiting, holding a task, about to fulfil its promise, or gone. */
  datatype Phase = Idle | Taken(task: Task) | Answered(task: Task, reply: Response) | Exited

  /** `pushed` and `executed` are history: all operations so far and how many of them the core has run. */
  datatype Hub = Hub(core: State, queue: seq<Task>, phase: Phase, stopping: bool,
                     answers: map<nat, Response>, pushed: seq<Op>, executed: nat)

  datatype Event = Push(op: Op) | AskStop | Take | Execute | Fulfil | Exit

  const START: Hub := Hub(NotInit, [], Idle, false, map[], [], 0)

  predicate Enabled(h: Hub, e: Event) {
    match e
    case Push(_) => true
    case AskStop => true
    case Take => h.phase.Idle? && h.queue != []
    case Execute => h.phase.Taken?
    case Fulfil => h.phase.Answered?
    case Exit => h.phase.Idle? && h.stopping && h.queue == []
  }

  function Apply(h: Hub, e: Event): Hub
    requires Enabled(h, e)
  {
    match e
    case Push(op) => h.(queue := h.queue + [Task(op, |h.pushed|)], pushed := h.pushed + [op])
    case AskStop => h.(stopping := true)
    case Take => h.(phase := Taken(h.queue[0]), queue := h.queue[1..])
    case Execute =>
      var t := h.phase.task;
      h.(core := Next(h.core, EffectOf(t.op)), phase := Answered(t, Reply(h.core, t.op)), executed := h.executed + 1)
    case Fulfil => h.(answers := h.answers[h.phase.task.ticket := h.phase.reply], phase := Idle)
    case Exit => h.(phase := Exited)
  }

  // ---------- the invariant ----------

  /** How many tasks have left the queue. */
  function Dequeued(h: Hub): nat {
    if h.phase.Taken? then h.executed + 1 else h.executed
  }

  /** How many promises have been fulfilled. */
  function Settled(h: Hub): int {
    if h.phase.Answered? then h.executed - 1 else h.executed
  }

  ghost predicate Ordered(h: Hub) {
    && Dequeued(h) + |h.queue| == |h.pushed|
    && (forall i :: 0 <= i < |h.queue| ==> h.queue[i] == Task(h.pushed[Dequeued(h) + i], Dequeued(h) + i))
    && (h.phase.Taken? ==> h.phase.task == Task(h.pushed[h.executed], h.executed))
  }

  ghost predicate Replied(h: Hub) {
    && h.executed <= |h.pushed|
    && h.core == Fold(h.pushed[..h.executed])
    && (h.phase.Answered? ==>
          && h.executed > 0
          && h.phase.task == Task(h.pushed[h.executed - 1], h.executed - 1)
          && h.phase.reply == ReplyAt(h.pushed, h.executed - 1))
    && (forall k: nat :: k in h.answers <==> k < Settled(h))
    && (forall k: nat :: k in h.answers ==> h.answers[k] == ReplyAt(h.pushed, k))
  }

  ghost predicate Inv(h: Hub) {
    Ordered(h) && Replied(h)
  }

  lemma StepOrdered(h: Hub, e: Event)
    requires Inv(h) && Enabled(h, e)
    ensures Ordered(Apply(h, e))
  {
    hide Reply, Fold, EffectOf, Next, ReplyAt;
  }

  lemma StepReplied(h: Hub, e: Event)
    requires Inv(h) && Enabled(h, e)
    ensures Replied(Apply(h, e))
  {
    hide Reply, EffectOf, Next;
    match e
    case Push(op) =>
      PushKeeps(h.pushed, op);
    case Execute =>
      ExecuteReplied(h);
    case _ =>
  }

  lemma ExecuteReplied(h: Hub)
    requires Inv(h) && h.phase.Taken?
    ensures Replied(Apply(h, Execute))
  {
    hide Reply, EffectOf, Next;
    var ops := h.pushed[..h.executed + 1];
    assert ops[..h.executed] == h.pushed[..h.executed];
  }

  // ---------- runs ----------

  /** One interleaving: the states it goes through and the events between them. */
  ghost predicate Run(hs: seq<Hub>, es: seq<Event>) {
    && |hs| == |es| + 1
    && hs[0] == START
    && forall i :: 0 <= i < |es| ==> Enabled(hs[i], es[i]) && hs[i + 1] == Apply(hs[i], es[i])
  }

  lemma {:induction false} RunInv(hs: seq<Hub>, es: seq<Event>, i: nat)
    requires Run(hs, es) && i < |hs|
    ensures Inv(hs[i])
  {
    hide Apply, Enabled;
    if i == 0 {
      assert hs[0].pushed[..0] == [];
    } else {
      RunInv(hs, es, i - 1);
      StepOrdered(hs[i - 1], es[i - 1]);
      StepReplied(hs[i - 1], es[i - 1]);
    }
  }

  /** The operations in the order the threads pushed them. */
  function Pushes(es: seq<Event>): seq<Op> {
    if es == [] then []
    else Pushes(es[..|es| - 1]) + if es[|es| - 1].Push? then [es[|es| - 1].op] else []
  }

  lemma {:induction false} PushedIsPushes(hs: seq<Hub>, es: seq<Event>, i: nat)
    requires Run(hs, es) && i <= |es|
    ensures hs[i].pushed == Pushes(es[..i])
  {
    if i == 0 {
    } else {
      PushedIsPushes(hs, es, i - 1);
      assert es[..i][..i - 1] == es[..i - 1];
    }
  }

  /**
   Whatever the interleaving, every answer given is the one its operation gets when all operations
   run alone in push order, answers are given in that order, and the core is where that leaves it.
   */
  lemma Linearised(hs: seq<Hub>, es: seq<Event>, i: nat)
    requires Run(hs, es) && i <= |es|
    ensures var ops := Pushes(es[..i]);
            && hs[i].executed <= |ops| && hs[i].core == Fold(ops[..hs[i].executed])
            && (forall k: nat :: k in hs[i].answers <==> k < Settled(hs[i]))
            && (forall k: nat :: k in hs[i].answers ==> k < |ops| && hs[i].answers[k] == ReplyAt(ops, k))
  {
    RunInv(hs, es, i);
    PushedIsPushes(hs, es, i);
  }

  /**
   The granted starts among the operations run so far are accounted for: each was ended once, by a
   finish or by a stop, or the core is running for it.
   */
  lemma RunConservesStarts(hs: seq<Hub>, es: seq<Event>, i: nat)
    requires Run(hs, es) && i <= |es|
    ensures var ops := Pushes(es[..i]);
            && hs[i].executed <= |ops|
            && Grants(ops[..hs[i].executed]) ==
               Ends(ops[..hs[i].executed], Complete) + Ends(ops[..hs[i].executed], Halt)
               + if hs[i].core.Running? then 1 else 0
  {
    hide Fold, ReplyAt, Grants, Ends;
    Linearised(hs, es, i);
    StartsAreConserved(Pushes(es[..i])[..hs[i].executed]);
  }

  /**
   Between two starts answered with a grant, the answers show a finish that ended the first one, or a
   stop and a later initialisation.
   */
  lemma RunSeparatesStarts(hs: seq<Hub>, es: seq<Event>, i: nat, a: nat, b: nat) returns (k: nat, m: nat)
    requires Run(hs, es) && i <= |es| && a < b && a in hs[i].answers && b in hs[i].answers
    requires hs[i].answers[a].ok && hs[i].answers[b].ok && b < |hs[i].pushed|
    requires hs[i].pushed[a].StartJob? && hs[i].pushed[b].StartJob?
    ensures a < k < b && k - 1 in hs[i].answers && k in hs[i].answers
    ensures || (hs[i].pushed[k].FinishJob? && hs[i].answers[k - 1].state.Running? && hs[i].answers[k].state.Init?)
            || (&& Does(hs[i].pushed[k], Halt) && k < m < b && m in hs[i].answers
                && Does(hs[i].pushed[m], Initialise) && hs[i].answers[m].ok)
  {
    hide Fold, ReplyAt, EffectOf, Does;
    RunInv(hs, es, i);
    k, m := StartsAreSeparated(hs[i].pushed, a, b);
  }

  /** A promise is fulfilled at most once, and never after it was. */
  lemma FulfilledOnce(hs: seq<Hub>, es: seq<Event>, i: nat)
    requires Run(hs, es) && i < |es| && es[i].Fulfil?
    ensures hs[i].phase.task.ticket !in hs[i].answers && hs[i].phase.task.ticket < |hs[i].pushed|
    ensures hs[i + 1].answers[hs[i].phase.task.ticket] == ReplyAt(hs[i].pushed, hs[i].phase.task.ticket)
  {
    RunInv(hs, es, i);
  }

  /** An answer, once given, stays. */
  lemma {:induction false} AnswersStay(hs: seq<Hub>, es: seq<Event>, i: nat, j: nat, k: nat)
    requires Run(hs, es) && i <= j <= |es| && k in hs[i].answers
    ensures k in hs[j].answers && hs[j].answers[k] == hs[i].answers[k]
    decreases j
  {
    if i == j {
    } else {
      AnswersStay(hs, es, i, j - 1, k);
      if es[j - 1].Fulfil? {
        FulfilledOnce(hs, es, j - 1);
      }
    }
  }

  /** When the worker leaves, every operation pushed so far has been answered. */
  lemma DrainedAtExit(hs: seq<Hub>, es: seq<Event>, i: nat)
    requires Run(hs, es) && i < |es| && es[i].Exit?
    ensures hs[i].stopping
    ensures forall k: nat :: k < |hs[i].pushed| ==> k in hs[i].answers
    ensures hs[i].core == Fold(hs[i].pushed)
  {
    RunInv(hs, es, i);
    assert hs[i].pushed[..|hs[i].pushed|] == hs[i].pushed;
  }

  // ---------- the class ----------

  /** Batches one after the other. */
  function Flat(batches: seq<seq<Op>>): seq<Op> {
    if batches == [] then [] else Flat(batches[..|batches| - 1]) + batches[|batches| - 1]
  }

  class Dispatcher {
    const core: Core
    var queue: seq<Task>
    var stopping: bool
    var exited: bool
    var answers: map<nat, Response>
    var next: nat
    ghost var pushed: seq<Op>
    ghost var executed: nat

    /** The shared state while no task is in the worker's hands. */
    ghost function View(): Hub
      reads this, core
    {
      Hub(core.st, queue, if exited then Exited else Idle, stopping, answers, pushed, executed)
    }

    ghost predicate Valid()
      reads this, core
    {
      Inv(View()) && next == |pushed| && (exited ==> stopping)
    }

    constructor (c: Core)
      requires c.st == NotInit
      ensures Valid() && core == c && View() == START
    {
      core := c;
      queue, stopping, exited, answers, next, pushed, executed := [], false, false, map[], 0, [], 0;
      new;
      assert pushed[..0] == [];
    }

    /** Push an operation; the answer will be found under the ticket. */
    method Submit(op: Op) returns (ticket: nat)
      requires Valid()
      modifies this
      ensures Valid() && ticket == |old(pushed)|
      ensures View() == Apply(old(View()), Push(op))
    {
      StepOrdered(View(), Push(op));
      StepReplied(View(), Push(op));
      ticket := next;
      queue := queue + [Task(op, next)];
      next := next + 1;
      pushed := pushed + [op];
    }

    /** Other threads push while the worker is busy or waits. */
    method SubmitAll(ops: seq<Op>)
      requires Valid() && !exited
      modifies this
      ensures Valid() && pushed == old(pushed) + ops && |queue| == |old(queue)| + |ops|
      ensures stopping == old(stopping) && !exited && answers == old(answers)
    {
      hide Inv;
      for i := 0 to |ops|
        invariant Valid() && pushed == old(pushed) + ops[..i] && |queue| == |old(queue)| + i
        invariant stopping == old(stopping) && !exited && answers == old(answers)
      {
        var ticket := Submit(ops[i]);
      }
    }

    /** The worker's choice of the core operation. */
    method RunOnCore(op: Op) returns (r: Response)
      modifies core
      ensures core.st == Next(old(core.st), EffectOf(op)) && r == Reply(old(core.st), op)
    {
      match op {
        case Command(text) => r := core.HandleSyncCommand(text);
        case StartJob(timeoutMs) => r := core.Start(timeoutMs);
        case FinishJob => r := core.Finish();
        case Stop => r := core.Halt();
      }
    }

    /** Take the oldest task, run it and answer it. */
    method ServeOne()
      requires Valid() && !exited && queue != []
      modifies this, core
      ensures Valid() && View() == Apply(Apply(Apply(old(View()), Take), Execute), Fulfil)
      ensures !exited && stopping == old(stopping) && pushed == old(pushed) && |queue| < |old(queue)|
    {
      hide Reply, EffectOf, Next, Fold, ReplyAt, Ordered, Replied;
      OneTask(View());
      var t := queue[0];
      queue := queue[1..];
      var r := RunOnCore(t.op);
      answers := answers[t.ticket := r];
      executed := executed + 1;
    }

    /**
     The worker's loop.  `arrivals` is what other threads push while it waits or runs a task, of which
     `used` batches come before it leaves or waits for good.  It leaves exactly when stopping, and
     either way everything pushed has been answered, in order.
     */
    method Loop(arrivals: seq<seq<Op>>) returns (left: bool, used: nat)
      requires Valid() && !exited
      modifies this, core
      ensures Valid() && queue == [] && executed == |pushed|
      ensures used <= |arrivals| && pushed == old(pushed) + Flat(arrivals[..used])
      ensures stopping == old(stopping) && left == exited == stopping && (!left ==> used == |arrivals|)
      ensures core.st == Fold(pushed)
      ensures forall k: nat :: k < |pushed| ==> k in answers && answers[k] == ReplyAt(pushed, k)
    {
      hide Reply, EffectOf, Next, Fold, ReplyAt, Ordered, Replied;
      used := 0;
      while true
        invariant Valid() && !exited && stopping == old(stopping)
        invariant used <= |arrivals| && pushed == old(pushed) + Flat(arrivals[..used])
        decreases |arrivals| - used, |queue|
      {
        if queue == [] {
          if stopping || used == |arrivals| {
            AllAnswered(View());
            if stopping {
              StepInv(View(), Exit);
              exited := true;
            }
            return stopping, used;
          }
        } else {
          ServeOne();
        }
        if used < |arrivals| {
          assert arrivals[..used + 1][..used] == arrivals[..used];
          SubmitAll(arrivals[used]);
          used := used + 1;
        }
      }
    }

    /**
     Ask the worker to stop and wait until it has left: nothing pushed by then is without an answer.
     A second call returns at once.
     */
    method Stop(arrivals: seq<seq<Op>>) returns (used: nat)
      requires Valid()
      modifies this, core
      ensures Valid() && stopping
      ensures old(stopping) ==> View() == old(View())
      ensures !old(stopping) ==>
                && exited && used <= |arrivals| && pushed == old(pushed) + Flat(arrivals[..used])
                && core.st == Fold(pushed)
                && forall k: nat :: k < |pushed| ==> k in answers && answers[k] == ReplyAt(pushed, k)
    {
      used := 0;
      if stopping {
        return;
      }
      StepInv(View(), AskStop);
      hide Fold, ReplyAt, Inv;
      stopping := true;
      var left: bool;
      left, used := Loop(arrivals);
    }
  }

  /** An idle worker with an empty queue has answered everything. */
  lemma AllAnswered(h: Hub)
    requires Inv(h) && h.phase.Idle? && h.queue == []
    ensures h.executed == |h.pushed| && h.core == Fold(h.pushed)
    ensures forall k: nat :: k < |h.pushed| ==> k in h.answers && h.answers[k] == ReplyAt(h.pushed, k)
  {
    hide Reply, EffectOf, Next, Fold, ReplyAt;
    assert h.pushed[..|h.pushed|] == h.pushed;
  }

  /** Taking, running and answering a task keeps the invariant. */
  lemma OneTask(h: Hub)
    requires Inv(h) && Enabled(h, Take)
    ensures Inv(Apply(Apply(Apply(h, Take), Execute), Fulfil))
  {
    hide Reply, EffectOf, Next, Fold, ReplyAt, Inv;
    StepInv(h, Take);
    StepInv(Apply(h, Take), Execute);
    StepInv(Apply(Apply(h, Take), Execute), Fulfil);
  }

  lemma StepInv(h: Hub, e: Event)
    requires Inv(h) && Enabled(h, e)
    ensures Inv(Apply(h, e))
  {
    hide Reply, EffectOf, Next, Fold, ReplyAt, Ordered, Replied;
    StepOrdered(h, e);
    StepReplied(h, e);
  }
}
