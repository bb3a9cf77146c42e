/**
 The job loop as the service's code runs it, one statement after the other, with its reader, decoder,
 store and dispatcher.  Its environment is a script of turns: when the running flag is cleared by
 someone else, whether the port opens, and how the port answers a read that may take `n` ms.

 Every execution is shown to be a path of the job's thread in `JobWorker`, so everything proved of
 all paths holds of this loop.
 */
module JobRunner {
  import opened Cobs
  import opened FrameReader
  import opened JobWorker
  import CobsCodec
  import EndToEnd
  import C = CoreMachine
  import D = Dispatch
  import S = JobStore

  /** One turn of the loop, as the environment plays it; a flag that is not live was just cleared. */
  datatype Turn = Turn(live: bool, opens: bool, script: int -> seq<Pass>, stillLive: bool)

  /** The port answers every read until the reader returns. */
  ghost predicate Plays(turn: Turn) {
    forall n: int :: n > 0 ==>
      && Readable(turn.script(n)) && WellTimed(turn.script(n), n)
      && !Read(turn.script(n), Reader(n, [])).end.Waiting?
  }

  /** No read is interrupted. */
  ghost predicate Unbroken(turn: Turn) {
    forall n: int, j: nat :: j < |turn.script(n)| ==> !IsEintr(turn.script(n)[j].poll)
  }

  /** The port opens and, within `ms`, delivers the wire frame of a payload that starts with "QR:". */
  ghost predicate Brings(turn: Turn, ms: int, p: seq<byte>) {
    && turn.live && turn.opens && turn.stillLive
    && StartsWithQr(p) && |Encode(p)| <= 4096
    && exists k: nat :: EndToEnd.Arrives(Encode(p) + [0], turn.script(ms), ms, k)
  }

  /**
   With `left` ms to go, the port does not open for `i` turns, each costing the reopen delay; then it
   does and brings `p` in time.
   */
  ghost predicate BringsAfter(turns: seq<Turn>, i: nat, left: int, reopen: int, p: seq<byte>) {
    && turns != [] && turns[0].live && left > 0
    && if i == 0 then Brings(turns[0], left, p)
       else !turns[0].opens && BringsAfter(turns[1..], i - 1, left - reopen, reopen, p)
  }

  /** Nobody clears the running flag. */
  ghost predicate Unasked(turn: Turn) {
    && turn.live && turn.stillLive
    && forall n: int, j: nat :: j < |turn.script(n)| ==> turn.script(n)[j].live && turn.script(n)[j].stillLive
  }

  // ---------- what a job comes to ----------

  /** A read of at most `left` ms sees the running flag cleared. */
  predicate SeesStop(turn: Turn, left: int) {
    Read(turn.script(left), Reader(left, [])).end.Cancelled?
  }

  /** It brings a frame, and the frame is a payload that starts with "QR:". */
  ghost predicate Receives(turn: Turn, left: int, payload: seq<byte>) {
    && Delivers(turn.script(left), left)
    && Decode(BeforeZero(Stream(turn.script(left)))) == Some(payload)
    && StartsWithQr(payload)
  }

  /** What a turn decides when `left` ms are left, if it decides anything. */
  ghost function Verdict(turn: Turn, left: int): Option<S.Outcome> {
    if !turn.live then Some(S.Aborted)
    else if left <= 0 then Some(S.Expired)
    else if !turn.opens then None
    else if SeesStop(turn, left) || !turn.stillLive then Some(S.Aborted)
    else
      var payload := Decode(BeforeZero(Stream(turn.script(left))));
      if payload.Some? && Receives(turn, left, payload.value) then Some(S.Completed(payload.value)) else None
  }

  /** How long a turn that decides nothing takes. */
  function Spent(turn: Turn, left: int, reopen: int): int {
    if !turn.opens then if reopen < left then reopen else left
    else
      var script := turn.script(left);
      Elapsed(script[..Read(script, Reader(left, [])).polls]) + 20
  }

  /** A job is decided by the first turn that decides something. */
  ghost function Outcome(turns: seq<Turn>, left: int, reopen: int): Option<S.Outcome> {
    if turns == [] then None
    else if Verdict(turns[0], left).Some? then Verdict(turns[0], left)
    else Outcome(turns[1..], left - Spent(turns[0], left, reopen), reopen)
  }

  /** What is left of `left` ms after `k` turns that decided nothing. */
  function LeftAfter(turns: seq<Turn>, k: nat, left: int, reopen: int): int
    requires k <= |turns|
  {
    if k == 0 then left else LeftAfter(turns[1..], k - 1, left - Spent(turns[0], left, reopen), reopen)
  }

  /** The turn that decided a job, with the time left then. */
  lemma {:induction false} DecidingTurn(turns: seq<Turn>, left: int, reopen: int) returns (k: nat)
    requires Outcome(turns, left, reopen).Some?
    ensures k < |turns| && Outcome(turns, left, reopen) == Verdict(turns[k], LeftAfter(turns, k, left, reopen))
  {
    hide Verdict, Spent;
    if Verdict(turns[0], left).Some? {
      k := 0;
    } else {
      k := DecidingTurn(turns[1..], left - Spent(turns[0], left, reopen), reopen);
      k := k + 1;
    }
  }

  /** A read whose flag nobody clears does not see it cleared. */
  lemma UnaskedRead(turn: Turn, left: int)
    requires Unasked(turn)
    ensures !SeesStop(turn, left) && turn.live && turn.stillLive
  {
    hide GoesOn, Fails, BudgetLeft, Stream, Read;
    var script := turn.script(left);
    ReadEnds(script, Reader(left, []));
    var n := Read(script, Reader(left, [])).settled;
    assert n < |script| ==> script[n].live && script[n].stillLive;
  }

  /**
   A job is cancelled only if it was asked to stop, times out only when its time is used up, and is done only
   with a payload that starts with "QR:" and came in a frame within the time left then.
   */
  lemma OutcomeIsDue(turns: seq<Turn>, left: int, reopen: int) returns (k: nat)
    requires Outcome(turns, left, reopen).Some?
    ensures k < |turns|
    ensures var ms := LeftAfter(turns, k, left, reopen);
            match Outcome(turns, left, reopen).value
            case Aborted => !Unasked(turns[k])
            case Expired => ms <= 0
            case Completed(qr) => ms > 0 && turns[k].opens && Receives(turns[k], ms, qr)
  {
    hide Receives, SeesStop, Outcome, LeftAfter, Decode, BeforeZero, Stream, Unasked;
    k := DecidingTurn(turns, left, reopen);
    if Unasked(turns[k]) {
      UnaskedRead(turns[k], LeftAfter(turns, k, left, reopen));
    }
  }

  /** A payload that arrives in time, after the port has failed to open `i` times, is what the job comes to. */
  lemma {:induction false} BroughtIsOutcome(turns: seq<Turn>, i: nat, left: int, reopen: int, p: seq<byte>)
    requires BringsAfter(turns, i, left, reopen, p) && reopen >= 0
    ensures Outcome(turns, left, reopen) == Some(S.Completed(p))
    decreases i
  {
    hide Brings, Receives, SeesStop, Decode, BeforeZero, Stream;
    if i == 0 {
      BroughtIsReceived(turns[0], left, p);
    } else {
      BringsInTime(turns[1..], i - 1, left - reopen, reopen, p);
      BroughtIsOutcome(turns[1..], i - 1, left - reopen, reopen, p);
    }
  }

  lemma BringsInTime(turns: seq<Turn>, i: nat, left: int, reopen: int, p: seq<byte>)
    requires BringsAfter(turns, i, left, reopen, p)
    ensures left > 0
  {
    hide Brings;
  }

  /** A read that brings a frame has not seen the flag cleared. */
  lemma DeliveredUnstopped(turn: Turn, left: int)
    requires Delivers(turn.script(left), left)
    ensures !SeesStop(turn, left)
  {
    hide Delivers, Read, BeforeZero, Stream;
    ReadIffDelivers(turn.script(left), left);
  }

  /** What a turn brings is what its read returns and the decoder makes of it. */
  lemma BroughtIsReceived(turn: Turn, ms: int, p: seq<byte>)
    requires Brings(turn, ms, p)
    ensures turn.live && turn.opens && turn.stillLive && Receives(turn, ms, p) && !SeesStop(turn, ms)
    ensures Decode(BeforeZero(Stream(turn.script(ms)))) == Some(p)
  {
    hide Encode, Decode, EndToEnd.Arrives, Delivers, BeforeZero, Stream, SeesStop;
    var k: nat :| EndToEnd.Arrives(Encode(p) + [0], turn.script(ms), ms, k);
    EndToEnd.WireDelivers(p, turn.script(ms), ms, k);
    RoundTrip(p);
    DeliveredUnstopped(turn, ms);
  }

  // ---------- stretches of a path ----------

  /** A path of the job's thread, as far as it has got. */
  datatype Trail = Trail(js: seq<Job>, es: seq<Event>) {
    ghost predicate Valid() {
      |js| == |es| + 1 && Path(js, es)
    }

    function Last(): Job
      requires |js| == |es| + 1
    {
      js[|es|]
    }
  }

  /** `u` is a path that goes on from `t`. */
  ghost predicate Continues(t: Trail, u: Trail) {
    t.Valid() && u.Valid() && t.js <= u.js
  }

  lemma Go(t: Trail, e: Event) returns (u: Trail)
    requires t.Valid() && Enabled(t.Last(), e)
    ensures Continues(t, u) && u.Last() == Apply(t.Last(), e)
  {
    hide Apply, Enabled;
    var js, es, j := Extend(t.js, t.es, e);
    u := Trail(js, es);
  }

  lemma {:induction false} Ticks(t: Trail, n: nat) returns (u: Trail)
    requires t.Valid()
    requires var j := t.Last();
             || (j.pc.Sleeping? && j.now + n <= j.pc.until)
             || (j.pc.Polling? && j.now + n <= j.pc.since + Wait(j.pc.r.remaining))
    ensures Continues(t, u) && u.Last() == t.Last().(now := t.Last().now + n)
    decreases n
  {
    if n == 0 {
      u := t;
    } else {
      u := Go(t, Tick);
      u := Ticks(u, n - 1);
    }
  }

  /** From the end of a sleep back to the head of the loop. */
  lemma SleepThrough(t: Trail) returns (u: Trail)
    requires t.Valid() && t.Last().pc.Sleeping? && t.Last().now == t.Last().pc.since <= t.Last().pc.until
    ensures Continues(t, u)
    ensures u.Last() == t.Last().(pc := Head, now := t.Last().pc.until, passes := t.Last().passes + 1)
  {
    u := Ticks(t, t.Last().pc.until - t.Last().now);
    u := Go(u, Wake);
  }

  /** A turn whose port does not open. */
  lemma ReopenPath(t: Trail, sleepMs: int) returns (u: Trail)
    requires t.Valid() && t.Last().pc.Head? && t.Last().running && t.Last().now < t.Last().deadline
    requires t.Last().reopen >= 0
    requires var left := t.Last().deadline - t.Last().now;
             sleepMs == if t.Last().reopen < left then t.Last().reopen else left
    ensures Continues(t, u)
    ensures u.Last() == t.Last().(now := t.Last().now + sleepMs, passes := t.Last().passes + 1)
  {
    hide Settle, Decode;
    u := Go(t, Look);
    u := Go(u, Look);
    u := Go(u, Open(false));
    u := SleepThrough(u);
  }

  lemma OpenPath(t: Trail) returns (u: Trail)
    requires t.Valid() && t.Last().pc.Head? && t.Last().running && t.Last().now < t.Last().deadline
    ensures Continues(t, u)
    ensures var left := t.Last().deadline - t.Last().now;
            u.Last() == t.Last().(pc := ReadHead(Reader(left, [])), taken := [], eintrs := 0)
  {
    hide Settle, Decode;
    u := Go(t, Look);
    u := Go(u, Look);
    u := Go(u, Open(true));
  }

  /** Someone clears the flag. */
  lemma StopPath(t: Trail) returns (u: Trail)
    requires t.Valid()
    ensures Continues(t, u) && !u.Last().running
    ensures u.Last() == t.Last().(running := false, stopAt := u.Last().stopAt)
  {
    u := Go(t, RequestStop);
  }

  /** The states `j` and `k` of a job differ only in what a read changes, and `ms` have passed. */
  ghost predicate OnlyRead(j: Job, k: Job, ms: int) {
    k == j.(pc := k.pc, now := j.now + ms, running := k.running, stopAt := k.stopAt,
            taken := k.taken, eintrs := k.eintrs)
  }

  /** A turn of the reader that calls poll. */
  lemma PollPath(t: Trail, p: Pass) returns (u: Trail)
    requires t.Valid() && t.Last().pc.ReadHead? && t.Last().running && t.Last().pc.r.remaining > 0
    requires p.took <= Wait(t.Last().pc.r.remaining)
    requires p.poll.Idle? ==> p.took == Wait(t.Last().pc.r.remaining)
    requires p.poll.Data? ==> 1 <= |p.poll.bytes| <= CHUNK
    ensures Continues(t, u) && OnlyRead(t.Last(), u.Last(), p.took) && u.Last().running == p.stillLive
    ensures !IsEintr(p.poll) ==> u.Last().eintrs == t.Last().eintrs
    ensures var r := t.Last().pc.r;
            u.Last().pc == if !p.stillLive then Closed(false, r.frame)
                           else match Settle(r, p.poll)
                                case Continue(s) => ReadHead(s)
                                case Return(got, f) => Closed(got, f)
  {
    hide Settle, Decode;
    u := Go(t, Look);
    u := Ticks(u, p.took);
    u := Go(u, Answer(p.poll));
    if !p.stillLive {
      u := StopPath(u);
    }
    u := Go(u, Look);
  }

  lemma HeadPath(t: Trail) returns (u: Trail)
    requires t.Valid() && t.Last().pc.ReadHead? && !(t.Last().running && t.Last().pc.r.remaining > 0)
    ensures Continues(t, u) && u.Last() == t.Last().(pc := Closed(false, t.Last().pc.r.frame))
  {
    hide Settle, Decode;
    u := Go(t, Look);
  }

  /** A whole read is a stretch of the path that ends where the reader returned. */
  lemma {:induction false} ReadPath(t: Trail, script: seq<Pass>) returns (u: Trail)
    requires t.Valid() && t.Last().pc.ReadHead? && t.Last().running
    requires Readable(script) && WellTimed(script, t.Last().pc.r.remaining)
    requires !Read(script, t.Last().pc.r).end.Waiting?
    ensures var q := Read(script, t.Last().pc.r);
            && Continues(t, u) && q.polls <= |script|
            && u.Last().pc == Closed(q.end.Got?, q.frame)
            && OnlyRead(t.Last(), u.Last(), Elapsed(script[..q.polls]))
            && u.Last().running == !q.end.Cancelled?
    ensures (forall j :: 0 <= j < |script| ==> !IsEintr(script[j].poll)) ==> u.Last().eintrs == t.Last().eintrs
    decreases |script|
  {
    hide Settle, Path, Apply, Enabled;
    var r := t.Last().pc.r;
    var q := Read(script, r);
    if r.remaining <= 0 {
      u := HeadPath(t);
    } else if !script[0].live {
      u := StopPath(t);
      u := HeadPath(u);
    } else {
      SettleCharges(r, script[0].poll);
      u := PollPath(t, script[0]);
      if u.Last().pc.ReadHead? {
        u := ReadPath(u, script[1..]);
      }
      assert script[1..][..0] == [];
      PeelTimes(script, q.polls);
    }
  }

  lemma AbortPath(t: Trail) returns (u: Trail)
    requires t.Valid() && (t.Last().pc.Head? || t.Last().pc.Closed?) && !t.Last().running
    ensures Continues(t, u) && u.Last() == t.Last().(pc := Recording(S.Aborted))
  {
    hide Settle, Decode;
    u := Go(t, Look);
  }

  lemma ExpirePath(t: Trail) returns (u: Trail)
    requires t.Valid() && t.Last().pc.Head? && t.Last().running && t.Last().deadline <= t.Last().now
    ensures Continues(t, u) && u.Last() == t.Last().(pc := Recording(S.Expired))
  {
    hide Settle, Decode;
    u := Go(t, Look);
    u := Go(u, Look);
  }

  /** A read whose flag is still set: a good payload is recorded, anything else is slept on. */
  lemma JudgePath(t: Trail) returns (u: Trail)
    requires t.Valid() && t.Last().pc.Closed? && t.Last().running
    ensures Continues(t, u)
    ensures var j := t.Last();
            var payload := if j.pc.got then Decode(j.pc.frame) else None;
            u.Last() == if payload.Some? && QR_PREFIX <= payload.value
                        then j.(pc := Recording(S.Completed(payload.value)))
                        else j.(pc := Head, now := j.now + PAUSE_MS, passes := j.passes + 1)
  {
    hide Settle, Decode;
    u := Go(t, Look);
    u := Go(u, Look);
    if u.Last().pc.Sleeping? {
      u := SleepThrough(u);
    }
  }

  lemma ConcludePath(t: Trail) returns (u: Trail)
    requires t.Valid() && t.Last().pc.Recording?
    ensures Continues(t, u) && u.Last().pc.Over?
  {
    hide Settle, Decode;
    u := Go(t, Write);
    u := Go(u, Clear);
    u := Go(u, Submit);
  }

  /** A read that brings a whole frame and its delimiter at once. */
  lemma WholeFrame(r: Reader, f: seq<byte>)
    requires r.frame == [] && ZeroFree(f) && 1 <= |f| <= LIMIT
    ensures Settle(r, Data(f + [0])) == Return(true, f)
  {
    hide Scan, BeforeZero;
    assert (f + [0])[|f|] == 0;
    BeforeZeroIs(f + [0], f);
    ScanIs([], f + [0]);
    assert [] + f == f;
  }

  /** Reading and decoding the frame of "QR:". */
  lemma ShortFrame(r: Reader)
    requires r.frame == []
    ensures Settle(r, Data([4] + QR_PREFIX + [0])) == Return(true, [4] + QR_PREFIX)
    ensures Decode([4] + QR_PREFIX) == Some(QR_PREFIX)
  {
    hide Settle, Decode;
    WholeFrame(r, [4] + QR_PREFIX);
    DecodeEmpty();
    DecodeOneBlock(4, QR_PREFIX, []);
    assert [4] + QR_PREFIX + [] == [4] + QR_PREFIX && QR_PREFIX + [] + [] == QR_PREFIX;
  }

  /**
   A stop request can come between the thread's last look at the flag and its record of a good frame:
   this run is asked to stop and ends as done all the same.
   */
  lemma DoneAfterStopHappens() returns (t: Trail)
    ensures t.Valid() && JobWorker.Run(t.js, t.es)
    ensures t.Last().pc == Recording(S.Completed(QR_PREFIX)) && t.Last().stopAt.Some?
  {
    hide Settle, Decode, Path;
    var t0 := Trail([NewJob("a", 1000, 1000, 0)], []);
    NoStep(t0.js[0]);
    t := OpenPath(t0);
    ShortFrame(t.Last().pc.r);
    t := PollPath(t, Pass(true, Data([4] + QR_PREFIX + [0]), true, 0));
    t := Go(t, Look);
    t := Go(t, RequestStop);
    t := Go(t, Look);
  }

  /** A job still at the head of its loop has not turned more often than the clock allows. */
  lemma NotYet(t: Trail, id: string, timeoutMs: int, reopen: int, start: int)
    requires t.Valid() && reopen >= 0 && t.js[0] == NewJob(id, timeoutMs, reopen, start) && t.Last().pc.Head?
    requires t.Last().reopen == reopen
    ensures reopen >= 1 ==> t.Last().passes <= Max(0, timeoutMs + 20 + 50 * t.Last().eintrs)
  {
    hide Path, Apply, Enabled;
    var n := |t.es|;
    SameJob(t.js, t.es, n);
    DecidesInTime(t.js, t.es, n);
    if reopen >= 1 {
      PassesTakeTime(t.js, t.es, n);
    }
  }

  // ---------- the class ----------

  class Runner {
    const store: S.Store
    const dispatcher: D.Dispatcher
    var running: bool

    constructor (s: S.Store, d: D.Dispatcher)
      ensures store == s && dispatcher == d && !running
    {
      store, dispatcher, running := s, d, false;
    }

    ghost predicate Valid()
      reads this, store, dispatcher, dispatcher.core
    {
      store.Valid() && dispatcher.Valid()
    }

    /** How every exit of the job loop ends: record, clear the flag, report. */
    method Conclude(id: string, o: S.Outcome)
      requires Valid() && id in store.jobs
      modifies this, store, dispatcher
      ensures Valid() && !running
      ensures store.jobs == old(store.jobs)[id := S.ResultOf(o)]
      ensures dispatcher.View() == D.Apply(old(dispatcher.View()), D.Push(C.FinishJob))
    {
      hide D.Inv, D.Apply;
      var known: bool;
      match o {
        case Completed(qr) => known := store.SetDone(id, qr);
        case Expired => known := store.SetTimeout(id);
        case Aborted => known := store.SetCancelled(id);
      }
      running := false;
      var ticket := dispatcher.Submit(C.FinishJob);
    }

    /** One turn of the job loop, once the flag and the clock have been found good. */
    method Attempt(turn: Turn, deadline: int, reopen: int, now: int, ghost id: string, ghost t: Trail)
      returns (decided: Option<S.Outcome>, later: int, ghost u: Trail)
      requires Plays(turn) && turn.live && running && now < deadline && reopen >= 0
      requires t.Valid() && InStep(t.Last(), id, deadline, reopen, now, running)
      modifies this
      ensures decided == Verdict(turn, deadline - now)
      ensures decided.None? ==> running && later == now + Spent(turn, deadline - now, reopen)
      ensures Unasked(turn) ==> running && decided != Some(S.Aborted)
      ensures Continues(t, u)
      ensures decided.None? ==> InStep(u.Last(), id, deadline, reopen, later, running)
      ensures decided.None? ==> u.Last().passes == t.Last().passes + 1
      ensures decided.None? && Unbroken(turn) && t.Last().eintrs == 0 ==> u.Last().eintrs == 0
      ensures decided.Some? ==> u.Last().pc == Recording(decided.value)
    {
      hide Read, Decode, Encode, Enabled, Apply, Path, WellTimed, Elapsed, Delivers, BeforeZero, Stream, Unasked;
      decided, later := None, now;
      var remaining := deadline - now;
      if !turn.opens {
        var sleepMs := if reopen < remaining then reopen else remaining;
        if sleepMs > 0 {
          later := now + sleepMs;
        }
        u := ReopenPath(t, sleepMs);
        return;
      }
      if Unasked(turn) { UnaskedRead(turn, remaining); }
      var script := turn.script(remaining);
      u := OpenPath(t);
      u := ReadPath(u, script);
      var end, enc, polls, left := ReadFrame(script, remaining);
      later := now + Elapsed(script[..polls]);
      running := !end.Cancelled?;
      if !turn.stillLive {
        running := false;
        u := StopPath(u);
      }
      if !running {
        u := AbortPath(u);
        return Some(S.Aborted), later, u;
      }
      u := JudgePath(u);
      if !end.Got? {
        later := later + PAUSE_MS;
        return;
      }
      var ok, payload := CobsCodec.DecodeFrame(enc);
      if !ok {
        later := later + PAUSE_MS;
        return;
      }
      if QR_PREFIX <= payload {
        assert Receives(turn, remaining, payload);
        return Some(S.Completed(payload)), later, u;
      }
      later := later + PAUSE_MS;
    }

    /** The job loop up to its decision, or to the end of the script. */
    method Decide(id: string, timeoutMs: int, reopen: int, start: int, turns: seq<Turn>)
      returns (outcome: Option<S.Outcome>, ghost t: Trail)
      requires running && reopen >= 0
      requires forall k :: 0 <= k < |turns| ==> Plays(turns[k])
      modifies this
      ensures outcome == Outcome(turns, timeoutMs, reopen)
      ensures (forall k :: 0 <= k < |turns| ==> Unasked(turns[k])) ==> outcome != Some(S.Aborted)
      ensures t.Valid() && t.js[0] == NewJob(id, timeoutMs, reopen, start)
      ensures outcome.None? ==> t.Last().pc.Head? && t.Last().reopen == reopen && t.Last().passes == |turns|
      ensures outcome.None? && (forall k :: 0 <= k < |turns| ==> Unbroken(turns[k])) ==> t.Last().eintrs == 0
      ensures outcome.Some? ==> t.Last().pc == Recording(outcome.value)
    {
      hide Enabled, Apply, Path, Plays, Unbroken, Unasked, Receives, SeesStop, Spent, Decode, BeforeZero, Stream;
      ghost var unbroken := forall k :: 0 <= k < |turns| ==> Unbroken(turns[k]);
      ghost var unasked := forall k :: 0 <= k < |turns| ==> Unasked(turns[k]);
      if unasked && Outcome(turns, timeoutMs, reopen).Some? {
        ghost var at := OutcomeIsDue(turns, timeoutMs, reopen);
      }
      assert turns[0..] == turns;
      var deadline := start + timeoutMs;
      var now := start;
      t := Trail([NewJob(id, timeoutMs, reopen, start)], []);
      ghost var t0 := t;
      JobWorker.NoStep(t.js[0]);
      var k := 0;
      while true
        invariant 0 <= k <= |turns| && running
        invariant Outcome(turns, timeoutMs, reopen) == Outcome(turns[k..], deadline - now, reopen)
        invariant Continues(t0, t) && InStep(t.Last(), id, deadline, reopen, now, running)
        invariant t.Last().passes == k && (unbroken ==> t.Last().eintrs == 0)
        decreases |turns| - k
      {
        if k == |turns| {
          return None, t;
        }
        var turn := turns[k];
        assert turns[k..][0] == turn && turns[k..][1..] == turns[k + 1..];
        k := k + 1;
        if !turn.live {
          running := false;
          t := StopPath(t);
        }
        if !running {
          t := AbortPath(t);
          return Some(S.Aborted), t;
        }
        if now >= deadline {
          t := ExpirePath(t);
          return Some(S.Expired), t;
        }
        outcome, now, t := Attempt(turn, deadline, reopen, now, id, t);
        if outcome.Some? {
          return;
        }
      }
    }

    /**
     The thread's body.  `None` if the script ends while the job goes on.  Otherwise one outcome has been
     recorded and one finish submitted, and the execution, ghost `t`, is a path of the job's thread that
     records that outcome at position `at` and is over.

     A payload that arrives in time, after the port has failed to open some number of times, is the outcome;
     a job nobody asks to stop is not cancelled; and a job whose reads are not interrupted has an outcome
     within as many turns as it has milliseconds, and 20.
     */
    method RunJob(id: string, timeoutMs: int, reopen: int, start: int, turns: seq<Turn>)
      returns (outcome: Option<S.Outcome>, ghost t: Trail, ghost at: nat)
      requires Valid() && id in store.jobs && running && reopen >= 0
      requires forall k :: 0 <= k < |turns| ==> Plays(turns[k])
      modifies this, store, dispatcher
      ensures outcome == Outcome(turns, timeoutMs, reopen)
      ensures (forall k :: 0 <= k < |turns| ==> Unasked(turns[k])) ==> outcome != Some(S.Aborted)
      ensures forall i: nat, p: seq<byte> ::
                BringsAfter(turns, i, timeoutMs, reopen, p) ==> outcome == Some(S.Completed(p))
      ensures reopen >= 1 && (forall k :: 0 <= k < |turns| ==> Unbroken(turns[k])) ==>
                outcome.Some? || |turns| <= Max(0, timeoutMs + 20)
      ensures Valid() && JobWorker.Run(t.js, t.es) && t.js[0] == NewJob(id, timeoutMs, reopen, start)
      ensures outcome.None? ==>
                store.jobs == old(store.jobs) && dispatcher.View() == old(dispatcher.View()) && t.Last().pc.Head?
      ensures outcome.Some? ==>
                && store.jobs == old(store.jobs)[id := S.ResultOf(outcome.value)] && !running
                && dispatcher.View() == D.Apply(old(dispatcher.View()), D.Push(C.FinishJob))
                && at < |t.js| && t.js[at].pc == Recording(outcome.value) && t.Last().pc.Over?
                && t.js[at].now <= Max(start, start + timeoutMs + 20 + 50 * t.js[at].eintrs)
      ensures outcome.Some? && outcome.value.Completed? ==> Evidence(t.js[at].taken, outcome.value.qr)
    {
      hide D.Inv, D.Apply, Enabled, Apply, Path, Plays, S.Sound, Evidence, BringsAfter, Unbroken, Unasked, Outcome;
      forall i: nat, p: seq<byte> | BringsAfter(turns, i, timeoutMs, reopen, p)
        ensures Outcome(turns, timeoutMs, reopen) == Some(S.Completed(p))
      {
        BroughtIsOutcome(turns, i, timeoutMs, reopen, p);
      }
      outcome, t := Decide(id, timeoutMs, reopen, start, turns);
      at := |t.es|;
      if outcome.None? {
        NotYet(t, id, timeoutMs, reopen, start);
        return;
      }
      Conclude(id, outcome.value);
      t := ConcludePath(t);
      SameJob(t.js, t.es, at);
      DecidesInTime(t.js, t.es, at);
    }
  }

  /** The job's thread is at the head of its loop, in step with the loop's variables. */
  ghost predicate InStep(j: Job, id: string, deadline: int, reopen: int, now: int, running: bool) {
    j.pc.Head? && j.id == id && j.deadline == deadline && j.reopen == reopen && j.now == now && j.running == running
  }
}
