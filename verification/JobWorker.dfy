/**
 The thread that serves one job: it opens the port, reads frames against the job's deadline, records
 one outcome, clears the running flag and reports that it is finished.

 `Job` is that thread together with the clock and the running flag it shares with the rest of the
 service.  Each event is one atomic action, so `RequestStop` may fall between any two steps of the
 thread.  The clock counts milliseconds and moves only while the thread sleeps or polls, or is gone.
 */
module JobWorker {
  import opened Cobs
  import opened FrameReader
  import opened JobStore

  /** Pause after a read that brought no usable frame. */
  const PAUSE_MS: int := 20

  /** "QR:" */
  const QR_PREFIX: seq<byte> := [81, 82, 58]

  datatype Pc =
    | Head                                       // look at the running flag
    | CheckClock                                 // compare the clock with the deadline
    | Opening(budget: int)                       // open the port, `budget` ms before the deadline
    | Sleeping(since: int, until: int)           // then start over
    | ReadHead(r: Reader)                        // head of the reader's loop
    | Polling(r: Reader, since: int)             // inside poll
    | Polled(r: Reader, since: int, poll: Poll)  // poll returned; look at the running flag
    | Closed(got: bool, frame: seq<byte>)        // the reader returned; look at the running flag
    | Checking(got: bool, frame: seq<byte>)      // judge what it returned
    | Recording(outcome: Outcome)                // write the outcome to the store
    | Clearing                                   // clear the running flag
    | Submitting                                 // submit FINISH
    | Over

  /**
   `stopAt` is when the job was first asked to stop, `taken` all bytes of the current read, `eintrs`
   its interrupted turns, `passes` how often the thread has started over.
   */
  datatype Job = Job(id: string, started: int, deadline: int, reopen: int, pc: Pc, running: bool, now: int,
                     stopAt: Option<int>, taken: seq<byte>, eintrs: nat, passes: nat)

  datatype Event = Look | Open(ok: bool) | Answer(poll: Poll) | Wake | Write | Clear | Submit | Tick | RequestStop

  function NewJob(id: string, timeoutMs: int, reopen: int, now: int): Job {
    Job(id, now, now + timeoutMs, reopen, Head, true, now, None, [], 0, 0)
  }

  predicate Enabled(j: Job, e: Event) {
    match e
    case Look => j.pc.Head? || j.pc.CheckClock? || j.pc.ReadHead? || j.pc.Polled? || j.pc.Closed? || j.pc.Checking?
    case Open(_) => j.pc.Opening?
    case Answer(poll) =>
      && j.pc.Polling?
      && (poll.Idle? ==> j.now == j.pc.since + Wait(j.pc.r.remaining))
      && (poll.Data? ==> 1 <= |poll.bytes| <= CHUNK)
    case Wake => j.pc.Sleeping? && j.now == j.pc.until
    case Write => j.pc.Recording?
    case Clear => j.pc.Clearing?
    case Submit => j.pc.Submitting?
    case Tick =>
      || j.pc.Over?
      || (j.pc.Sleeping? && j.now < j.pc.until)
      || (j.pc.Polling? && j.now < j.pc.since + Wait(j.pc.r.remaining))
    case RequestStop => true
  }

  /** What a look at the flag, the clock or the decoded frame leads to. */
  function Looked(j: Job): Job {
    match j.pc
    case Head => j.(pc := if j.running then CheckClock else Recording(Aborted))
    case CheckClock => j.(pc := if j.now >= j.deadline then Recording(Expired) else Opening(j.deadline - j.now))
    case ReadHead(r) => j.(pc := if r.remaining > 0 && j.running then Polling(r, j.now) else Closed(false, r.frame))
    case Polled(r, _, poll) =>
      if !j.running then j.(pc := Closed(false, r.frame))
      else
        var next := match Settle(r, poll) case Continue(s) => ReadHead(s) case Return(got, f) => Closed(got, f);
        j.(pc := next, taken := j.taken + Chunk(poll), eintrs := j.eintrs + if IsEintr(poll) then 1 else 0)
    case Closed(got, frame) => j.(pc := if j.running then Checking(got, frame) else Recording(Aborted))
    case Checking(got, frame) => j.(pc := Judge(got, frame, j.now))
    case _ => j
  }

  function Judge(got: bool, frame: seq<byte>, now: int): Pc {
    var payload := if got then Decode(frame) else None;
    if payload.Some? && QR_PREFIX <= payload.value then Recording(Completed(payload.value))
    else Sleeping(now, now + PAUSE_MS)
  }

  function Apply(j: Job, e: Event): Job
    requires Enabled(j, e)
  {
    match e
    case Look => Looked(j)
    case Open(ok) =>
      var budget := j.pc.budget;
      if ok then j.(pc := ReadHead(Reader(budget, [])), taken := [], eintrs := 0)
      else j.(pc := Sleeping(j.now, j.now + if j.reopen < budget then j.reopen else budget))
    case Answer(poll) => j.(pc := Polled(j.pc.r, j.pc.since, poll))
    case Wake => j.(pc := Head, passes := j.passes + 1)
    case Write => j.(pc := Clearing)
    case Clear => j.(pc := Submitting, running := false)
    case Submit => j.(pc := Over)
    case Tick => j.(now := j.now + 1)
    case RequestStop => j.(running := false, stopAt := if j.stopAt.None? then Some(j.now) else j.stopAt)
  }

  // ---------- what every reachable state satisfies ----------

  /** The flag is clear exactly when the job has been asked to stop, and before FINISH is submitted. */
  ghost predicate FlagInv(j: Job) {
    && (!j.pc.Submitting? && !j.pc.Over? ==> (j.running <==> j.stopAt.None?))
    && (j.pc.Submitting? ==> !j.running)
  }

  /** The reader has kept every byte of the current read, and no zero was among them. */
  ghost predicate Collected(j: Job, r: Reader) {
    r.frame == j.taken && ZeroFree(j.taken) && |j.taken| <= LIMIT
  }

  /** `f` is what came before the first zero of the current read. */
  ghost predicate Framed(j: Job, f: seq<byte>) {
    f == BeforeZero(j.taken) && 1 <= |f| <= LIMIT
  }

  ghost predicate DataInv(j: Job) {
    match j.pc
    case ReadHead(r) => Collected(j, r)
    case Polling(r, _) => Collected(j, r)
    case Polled(r, _, poll) => Collected(j, r)
    case Closed(got, f) => got ==> Framed(j, f)
    case Checking(got, f) => got ==> Framed(j, f)
    case Recording(Completed(qr)) => Evidence(j.taken, qr)
    case Recording(Aborted) => j.stopAt.Some?
    case _ => true
  }

  /** `qr` is the decoding of the frame at the head of `bytes`, and starts with "QR:". */
  ghost predicate Evidence(bytes: seq<byte>, qr: seq<byte>) {
    && 1 <= |BeforeZero(bytes)| <= 4096
    && Decode(BeforeZero(bytes)) == Some(qr)
    && StartsWithQr(qr)
  }

  /** The bytes of 'Q', 'R' and ':'. */
  predicate StartsWithQr(payload: seq<byte>) {
    |payload| >= 3 && payload[0] == 81 && payload[1] == 82 && payload[2] == 58
  }

  /** How late polling can be: 50 ms for every interrupted turn. */
  function Slack(j: Job): int {
    j.deadline + STEP_MS * j.eintrs
  }

  ghost predicate DeadlineInv(j: Job) {
    && j.started <= j.now && j.reopen >= 0
    && match j.pc
       case Head => j.now <= Max(j.started, Slack(j) + PAUSE_MS)
       case CheckClock => j.now <= Max(j.started, Slack(j) + PAUSE_MS)
       case Opening(budget) => budget == j.deadline - j.now > 0
       case Sleeping(since, until) => since <= j.now <= until <= Slack(j) + PAUSE_MS
       case ReadHead(r) => 0 <= r.remaining && j.now + r.remaining <= Slack(j)
       case Polling(r, since) => InPoll(j, r, since)
       case Polled(r, since, _) => InPoll(j, r, since)
       case Closed(_, _) => j.now <= Slack(j)
       case Checking(_, _) => j.now <= Slack(j)
       case Recording(Completed(_)) => j.now <= Slack(j)
       case Recording(Expired) => j.deadline <= j.now <= Max(j.started, Slack(j) + PAUSE_MS)
       case Recording(Aborted) => j.now <= Max(j.started, Slack(j) + PAUSE_MS)
       case _ => true
  }

  ghost predicate InPoll(j: Job, r: Reader, since: int) {
    && 0 < r.remaining && since + r.remaining <= Slack(j)
    && j.started <= since <= j.now <= since + Wait(r.remaining)
  }

  /** The longest the thread goes without looking at the running flag. */
  function Patience(j: Job): int {
    Max(STEP_MS, j.reopen)
  }

  /** Once asked to stop, the thread starts no wait that does not end within its patience. */
  ghost predicate StopInv(j: Job) {
    j.stopAt.Some? ==>
      var s := j.stopAt.value;
      match j.pc
      case Head => j.now <= s + Patience(j)
      case CheckClock => j.now == s
      case Opening(_) => j.now == s
      case Sleeping(since, until) => since <= s && until <= since + Patience(j)
      case ReadHead(_) => j.now == s
      case Polling(_, since) => since <= s
      case Polled(_, since, _) => since <= s
      case Closed(_, _) => j.now <= s + Patience(j)
      case Checking(_, _) => j.now == s
      case Recording(_) => j.now <= s + Patience(j)
      case _ => true
  }

  /** Bounds that hold whether or not the job has been asked to stop. */
  ghost predicate PaceInv(j: Job) {
    && (j.stopAt.Some? ==> j.stopAt.value <= j.now)
    && (j.pc.Sleeping? ==> j.pc.until <= j.pc.since + Patience(j))
    && (j.reopen >= 1 && !j.pc.Over? ==>
          if j.pc.Sleeping? then j.passes <= j.pc.since - j.started && j.pc.since < j.pc.until
          else j.passes <= j.now - j.started)
  }

  ghost predicate Inv(j: Job) {
    FlagInv(j) && DataInv(j) && DeadlineInv(j) && StopInv(j) && PaceInv(j)
  }

  lemma StartInv(id: string, timeoutMs: int, reopen: int, now: int)
    requires reopen >= 0
    ensures Inv(NewJob(id, timeoutMs, reopen, now))
  {
  }

  /** A turn of the reader inside a job. */
  lemma TurnKeeps(taken: seq<byte>, r: Reader, poll: Poll)
    requires r.frame == taken && ZeroFree(taken) && |taken| <= LIMIT
    ensures match Settle(r, poll)
            case Continue(s) =>
              && s.frame == taken + Chunk(poll) && ZeroFree(s.frame) && |s.frame| <= LIMIT
              && s.remaining == if IsEintr(poll) then r.remaining else r.remaining - Wait(r.remaining)
            case Return(got, f) => got ==> f == BeforeZero(taken + Chunk(poll)) && 1 <= |f| <= LIMIT
  {
    hide BeforeZero, Scan;
    var p := Pass(true, poll, true, 0);
    if Smooth(p) {
      SettleIs(r, p);
      BeforeZeroAppend(taken, Chunk(poll));
    }
  }

  lemma StepData(j: Job, e: Event)
    requires Inv(j) && Enabled(j, e)
    ensures DataInv(Apply(j, e)) && FlagInv(Apply(j, e))
  {
    hide BeforeZero, Scan, Decode, Settle;
    if j.pc.Polled? {
      TurnKeeps(j.taken, j.pc.r, j.pc.poll);
    }
  }

  lemma StepDeadline(j: Job, e: Event)
    requires Inv(j) && Enabled(j, e)
    ensures DeadlineInv(Apply(j, e))
  {
    hide BeforeZero, Scan, Decode, Settle;
    if j.pc.Polled? {
      TurnKeeps(j.taken, j.pc.r, j.pc.poll);
    }
  }

  lemma StepStop(j: Job, e: Event)
    requires Inv(j) && Enabled(j, e)
    ensures StopInv(Apply(j, e)) && PaceInv(Apply(j, e))
  {
    hide BeforeZero, Scan, Decode, Settle, DataInv;
  }

  lemma StepInv(j: Job, e: Event)
    requires Inv(j) && Enabled(j, e)
    ensures Inv(Apply(j, e))
  {
    hide DataInv, FlagInv, DeadlineInv, StopInv, PaceInv, Apply;
    StepData(j, e);
    StepDeadline(j, e);
    StepStop(j, e);
  }

  // ---------- runs ----------

  /** One interleaving of the thread, the clock and stop requests. */
  ghost predicate Path(js: seq<Job>, es: seq<Event>) {
    && |js| == |es| + 1
    && forall i :: 0 <= i < |es| ==> Enabled(js[i], es[i]) && js[i + 1] == Apply(js[i], es[i])
  }

  /** A path that starts with a new job; the reopen delay is never negative. */
  ghost predicate Run(js: seq<Job>, es: seq<Event>) {
    && Path(js, es)
    && js[0] == NewJob(js[0].id, js[0].deadline - js[0].started, js[0].reopen, js[0].now)
    && js[0].reopen >= 0
  }

  lemma {:induction false} RunInv(js: seq<Job>, es: seq<Event>, i: nat)
    requires Run(js, es) && i < |js|
    ensures Inv(js[i])
  {
    hide Apply, Enabled, Inv;
    if i == 0 {
      StartInv(js[0].id, js[0].deadline - js[0].started, js[0].reopen, js[0].now);
    } else {
      RunInv(js, es, i - 1);
      StepInv(js[i - 1], es[i - 1]);
    }
  }

  predicate Undecided(j: Job) {
    !j.pc.Clearing? && !j.pc.Submitting? && !j.pc.Over?
  }

  /**
   A job decides by its deadline and 20 ms, plus 50 ms for every interrupted turn of its last read;
   it is done only with evidence and not after the deadline, it times out only after the deadline,
   and it is cancelled only after it was asked to stop.
   */
  lemma DecidesInTime(js: seq<Job>, es: seq<Event>, i: nat)
    requires Run(js, es) && i < |js|
    ensures var j := js[i];
            && (Undecided(j) ==> j.now <= Max(j.started, j.deadline + 20 + 50 * j.eintrs))
            && (j.pc.Recording? ==>
                  match j.pc.outcome
                  case Completed(qr) => Evidence(j.taken, qr) && j.now <= j.deadline + 50 * j.eintrs
                  case Expired => j.deadline <= j.now
                  case Aborted => j.stopAt.Some?)
  {
    hide BeforeZero, Decode;
    RunInv(js, es, i);
  }

  /** A job keeps its id, start and deadline. */
  lemma {:induction false} SameJob(js: seq<Job>, es: seq<Event>, i: nat)
    requires Path(js, es) && i < |js|
    ensures js[i].id == js[0].id && js[i].started == js[0].started && js[i].deadline == js[0].deadline
  {
    hide Settle, Decode;
    if i == 0 {
    } else {
      SameJob(js, es, i - 1);
      assert js[i] == Apply(js[i - 1], es[i - 1]);
    }
  }

  /** A job asked to stop decides within 50 ms or the reopen delay, whichever is longer. */
  lemma StopsInTime(js: seq<Job>, es: seq<Event>, i: nat)
    requires Run(js, es) && i < |js| && Undecided(js[i]) && js[i].stopAt.Some?
    ensures js[i].now <= js[i].stopAt.value + Max(50, js[i].reopen)
  {
    hide BeforeZero, Decode, Evidence;
    RunInv(js, es, i);
  }

  /** The thread is never stuck: some step of its own, or the clock, can always go on. */
  lemma CanGoOn(j: Job) returns (e: Event)
    requires Inv(j)
    ensures !e.RequestStop? && Enabled(j, e)
  {
    hide BeforeZero, Decode, Evidence;
    e := match j.pc
         case Opening(_) => Open(false)
         case Sleeping(_, until) => if j.now < until then Tick else Wake
         case Polling(r, since) => if j.now < since + Wait(r.remaining) then Tick else Answer(Idle)
         case Recording(_) => Write
         case Clearing => Clear
         case Submitting => Submit
         case Over => Tick
         case _ => Look;
  }

  /** With a reopen delay of at least 1 ms, every time the thread starts over the clock has moved. */
  lemma PassesTakeTime(js: seq<Job>, es: seq<Event>, i: nat)
    requires Run(js, es) && i < |js| && js[i].reopen >= 1 && !js[i].pc.Over?
    ensures js[i].passes <= js[i].now - js[i].started
  {
    hide BeforeZero, Decode, Evidence;
    RunInv(js, es, i);
  }

  // ---------- termination ----------

  /** Milliseconds before an undisturbed job must have decided. */
  function Late(j: Job): int {
    if Undecided(j) then Max(j.started, j.deadline + PAUSE_MS) - j.now else 0
  }

  /** Steps the thread can still make at this millisecond. */
  function Phase(j: Job): int {
    var ahead := 10 + 3 * Max(0, j.deadline - j.now);
    match j.pc
    case Over => 0
    case Submitting => 1
    case Clearing => 2
    case Recording(_) => 3
    case Sleeping(_, until) => if j.now < until then 4 else ahead + 4
    case Checking(_, _) => 5
    case Closed(_, _) => 6
    case ReadHead(r) => 9 + 3 * r.remaining
    case Polling(r, _) => 8 + 3 * r.remaining
    case Polled(r, _, _) => 7 + 3 * r.remaining
    case Opening(_) => ahead + 1
    case CheckClock => ahead + 2
    case Head => ahead + 3
  }

  function Span(j: Job): int {
    15 + 3 * Max(0, j.deadline - j.started)
  }

  function Rank(j: Job): int {
    Late(j) * Span(j) + Phase(j)
  }

  /** No interrupted turn in the current read, and a reopen delay that lets the clock move. */
  ghost predicate Undisturbed(j: Job) {
    Inv(j) && j.reopen >= 1 && j.eintrs == 0 && (j.pc.Polled? ==> !IsEintr(j.pc.poll))
  }

  ghost predicate Calm(e: Event) {
    e.Answer? ==> !IsEintr(e.poll)
  }

  lemma PhaseBounds(j: Job)
    requires Undisturbed(j)
    ensures 0 <= Phase(j) < Span(j) && 0 <= Late(j)
  {
    hide DataInv, Evidence;
  }

  /** Every step of an undisturbed job brings it nearer to its end. */
  ghost predicate Nearer(j: Job, k: Job) {
    Late(k) < Late(j) || (Late(k) == Late(j) && Phase(k) < Phase(j))
  }

  lemma Progress(j: Job, e: Event)
    requires Undisturbed(j) && !j.pc.Over? && Enabled(j, e) && Calm(e)
    ensures Undisturbed(Apply(j, e))
    ensures e.RequestStop? ==> Late(Apply(j, e)) == Late(j) && Phase(Apply(j, e)) == Phase(j)
    ensures !e.RequestStop? ==> Nearer(j, Apply(j, e))
  {
    hide Settle, DataInv, Evidence, Decode, BeforeZero, StopInv, FlagInv;
    StepInv(j, e);
    if j.pc.Polled? && e.Look? {
      hide Apply, Enabled, PaceInv, Phase, Late;
      TurnNearer(j);
    }
  }

  lemma TurnNearer(j: Job)
    requires Undisturbed(j) && j.pc.Polled?
    ensures Nearer(j, Apply(j, Look))
    ensures Apply(j, Look).eintrs == 0 && Apply(j, Look).reopen >= 1 && !Apply(j, Look).pc.Polled?
  {
    hide Settle, DataInv, Evidence, Decode, BeforeZero, StopInv, FlagInv;
    CollectedIn(j);
    TurnKeeps(j.taken, j.pc.r, j.pc.poll);
  }

  lemma CollectedIn(j: Job)
    requires DataInv(j) && j.pc.Polled?
    ensures Collected(j, j.pc.r)
  {
  }

  lemma {:induction false} OneMore(a: int, b: int, s: int)
    requires a < b && s >= 0
    ensures a * s + s <= b * s
    decreases b - a
  {
    assert (b - 1) * s + s == b * s;
    if a == b - 1 {
    } else {
      OneMore(a, b - 1, s);
    }
  }

  lemma RankFalls(j: Job, k: Job)
    requires 0 <= Phase(k) < Span(k) && Span(j) == Span(k) && 0 <= Phase(j)
    requires Nearer(j, k)
    ensures Rank(k) < Rank(j)
  {
    hide Phase, Late, Span;
    if Late(k) < Late(j) {
      OneMore(Late(k), Late(j), Span(j));
    }
  }

  /** Steps other than stop requests. */
  function Steps(es: seq<Event>): nat {
    if es == [] then 0 else Steps(es[..|es| - 1]) + if es[|es| - 1].RequestStop? then 0 else 1
  }

  lemma {:induction false} StepsAreRanked(js: seq<Job>, es: seq<Event>, i: nat)
    requires Run(js, es) && js[0].reopen >= 1 && i <= |es|
    requires forall k :: 0 <= k < i ==> Calm(es[k]) && !js[k].pc.Over?
    ensures Undisturbed(js[i]) && Span(js[i]) == Span(js[0])
    ensures Steps(es[..i]) + Rank(js[i]) <= Rank(js[0])
  {
    hide Inv, Apply, Enabled, Late, Phase, Rank, Span;
    RunInv(js, es, i);
    if i == 0 {
    } else {
      StepsAreRanked(js, es, i - 1);
      assert es[..i][..i - 1] == es[..i - 1];
      var j, k, e := js[i - 1], js[i], es[i - 1];
      Progress(j, e);
      PhaseBounds(j);
      PhaseBounds(k);
      SameSpan(j, e);
      if e.RequestStop? {
        SameRank(j, k);
      } else {
        RankFalls(j, k);
      }
    }
  }

  lemma SameSpan(j: Job, e: Event)
    requires Enabled(j, e)
    ensures Span(Apply(j, e)) == Span(j)
  {
    hide Settle, Decode;
  }

  lemma SameRank(j: Job, k: Job)
    requires Late(j) == Late(k) && Phase(j) == Phase(k) && Span(j) == Span(k)
    ensures Rank(j) == Rank(k)
  {
  }

  /**
   Every job ends: with a reopen delay of at least 1 ms and no interrupted turn, the thread and the
   clock take at most `Rank` steps, a number fixed by the job's timeout, before the thread is gone.
   */
  lemma JobTerminates(js: seq<Job>, es: seq<Event>)
    requires Run(js, es) && js[0].reopen >= 1
    requires forall k :: 0 <= k < |es| ==> Calm(es[k]) && !js[k].pc.Over?
    ensures var timeout := js[0].deadline - js[0].started;
            Steps(es) <= Max(0, timeout + 20) * (15 + 3 * Max(0, timeout)) + 13 + 3 * Max(0, timeout)
  {
    hide Inv, Apply, Enabled;
    StepsAreRanked(js, es, |es|);
    assert es[..|es|] == es;
    PhaseBounds(js[|es|]);
    RankNonNegative(js[|es|]);
  }

  lemma RankNonNegative(j: Job)
    requires Undisturbed(j)
    ensures Rank(j) >= 0
  {
    PhaseBounds(j);
    hide Inv, Phase, Late, Span;
    assert Late(j) * Span(j) >= 0;
  }

  /**
   The reopen delay matters: at 0 ms, a port that does not open makes the thread start over any
   number of times within one millisecond.
   */
  lemma {:induction false} SpinsInPlace(j: Job, n: nat) returns (js: seq<Job>, es: seq<Event>)
    requires j.pc.Head? && j.running && j.reopen == 0 && j.now < j.deadline
    ensures Path(js, es) && js[0] == j && js[|es|] == j.(passes := j.passes + n)
    decreases n
  {
    if n == 0 {
      js, es := [j], [];
    } else {
      var j1 := Apply(j, Look);
      var j2 := Apply(j1, Look);
      var j3 := Apply(j2, Open(false));
      var j4 := Apply(j3, Wake);
      assert j4 == j.(passes := j.passes + 1);
      js, es := SpinsInPlace(j4, n - 1);
      var fs := [Look, Look, Open(false), Wake];
      js, es := [j, j1, j2, j3] + js, fs + es;
    }
  }

  // ---------- a stop request against a frame that just arrived ----------

  /** The thread has made its last look at the flag and has a good frame, or is about to record it. */
  predicate DoneInHand(j: Job) {
    || (j.pc.Checking? && Judge(j.pc.got, j.pc.frame, j.now).Recording?)
    || (j.pc.Recording? && j.pc.outcome.Completed?)
  }

  lemma DoneInHandStep(j: Job, e: Event)
    requires Enabled(j, e)
    ensures DoneInHand(j) ==> DoneInHand(Apply(j, e)) || !Undecided(Apply(j, e))
    ensures !DoneInHand(j) && !j.running ==> !DoneInHand(Apply(j, e)) && !Apply(j, e).running
    ensures !Undecided(j) ==> !Undecided(Apply(j, e))
  {
    hide Settle, Decode;
  }

  lemma {:induction false} AfterStop(js: seq<Job>, es: seq<Event>, i: nat, k: nat)
    requires Path(js, es) && i < k < |js| && es[i].RequestStop? && Undecided(js[i])
    ensures DoneInHand(js[i]) ==> DoneInHand(js[k]) || !Undecided(js[k])
    ensures !DoneInHand(js[i]) ==> !DoneInHand(js[k]) && !js[k].running
    ensures k == i + 1 ==> Undecided(js[k])
  {
    hide Settle, Decode, Judge;
    DoneInHandStep(js[k - 1], es[k - 1]);
    if k == i + 1 {
      assert js[k].pc == js[i].pc && js[k].now == js[i].now;
    } else {
      hide Apply, DoneInHand;
      AfterStop(js, es, i, k - 1);
    }
  }

  /**
   The service's API test expects that a job asked to stop while it waits never ends as done.  That is
   so exactly when the thread had not yet made its last look at the flag with a good frame in hand.
   */
  lemma DoneDespiteStop(js: seq<Job>, es: seq<Event>, i: nat, k: nat)
    requires Run(js, es) && i < k < |js| && es[i].RequestStop? && Undecided(js[i]) && js[k].pc.Recording?
    ensures js[k].pc.outcome.Completed? <==> DoneInHand(js[i])
  {
    hide Apply, Enabled, Judge;
    AfterStop(js, es, i, k);
  }

  lemma NoStep(j: Job)
    ensures Path([j], [])
  {
  }

  /** A path and one more step. */
  lemma Extend(js: seq<Job>, es: seq<Event>, e: Event) returns (js': seq<Job>, es': seq<Event>, j: Job)
    requires Path(js, es) && Enabled(js[|es|], e)
    ensures Path(js', es') && js <= js' && |es'| == |es| + 1
    ensures j == js'[|es'|] == Apply(js[|es|], e)
  {
    hide Apply, Enabled;
    j := Apply(js[|es|], e);
    js', es' := js + [j], es + [e];
  }
}
