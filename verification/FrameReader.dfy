/**
 The service's frame reader: it polls the serial port in steps of at most 50 ms, collects bytes
 until a zero arrives, and gives up when its time budget is spent, the job is cancelled, the port
 fails, or the frame grows beyond 4096 bytes.

 What the operating system answers is a script, one `Pass` for each turn of the loop.
 */
module FrameReader {
  import opened Cobs

  const STEP_MS: int := 50
  const CHUNK: nat := 256
  const LIMIT: nat := 4096

  /** What one call of poll, and of read if poll reports input, comes back with. */
  datatype Poll =
    | Interrupted            // poll failed with EINTR
    | PollFailed             // poll failed otherwise
    | Idle                   // nothing within the wait
    | Hangup                 // error, hang-up or invalid descriptor
    | Quiet                  // poll returned without an error and without input
    | ReadInterrupted        // read failed with EINTR
    | ReadAgain              // read failed with EAGAIN or EWOULDBLOCK
    | ReadFailed             // read failed otherwise
    | Eof                    // read returned no bytes
    | Data(bytes: seq<byte>) // read returned these bytes

  /**
   One turn of the loop: is the running flag set at its head, how poll and read answer, is the
   flag still set after poll, and how many milliseconds poll took.
   */
  datatype Pass = Pass(live: bool, poll: Poll, stillLive: bool, took: nat)

  /** read fills a buffer of 256 bytes; an empty answer is `Eof`. */
  predicate Readable(script: seq<Pass>) {
    forall i :: 0 <= i < |script| && script[i].poll.Data? ==> 1 <= |script[i].poll.bytes| <= CHUNK
  }

  // ---------- the bytes a script delivers ----------

  function Chunk(poll: Poll): seq<byte> {
    if poll.Data? then poll.bytes else []
  }

  /** All bytes read, in order, whatever the chunks. */
  function Stream(script: seq<Pass>): seq<byte> {
    if script == [] then [] else Chunk(script[0].poll) + Stream(script[1..])
  }

  /** The bytes before the first zero, all of them if there is none. */
  function BeforeZero(s: seq<byte>): (u: seq<byte>)
    ensures u <= s && ZeroFree(u)
    ensures |u| < |s| ==> s[|u|] == 0
  {
    if s == [] || s[0] == 0 then [] else [s[0]] + BeforeZero(s[1..])
  }

  predicate IsEintr(poll: Poll) {
    poll.Interrupted? || poll.ReadInterrupted?
  }

  function Interrupts(script: seq<Pass>): nat {
    if script == [] then 0 else (if IsEintr(script[0].poll) then 1 else 0) + Interrupts(script[1..])
  }

  /** Turns that are charged to the budget. */
  function Charged(script: seq<Pass>): nat {
    if script == [] then 0
    else Charged(script[1..]) + match script[0].poll case Interrupted => 0 case ReadInterrupted => 0 case _ => 1
  }

  function Elapsed(script: seq<Pass>): nat {
    if script == [] then 0 else script[0].took + Elapsed(script[1..])
  }

  /** The turn neither ends the read nor is it cancelled. */
  predicate Smooth(p: Pass) {
    p.live && p.stillLive && !p.poll.PollFailed? && !p.poll.Hangup? && !p.poll.ReadFailed? && !p.poll.Eof?
  }

  /**
   The first zero of the stream arrives in turn `k`, after 1 to 4096 other bytes, no earlier turn
   ended the read, and the budget was not yet spent when turn `k` began.
   */
  ghost predicate DeliversAt(script: seq<Pass>, r: Reader, k: nat) {
    && k < |script|
    && (forall j :: 0 <= j <= k ==> Smooth(script[j]))
    && 50 * Charged(script[..k]) < r.remaining
    && ZeroFree(r.frame + Stream(script[..k]))
    && !ZeroFree(Chunk(script[k].poll))
    && 1 <= |BeforeZero(r.frame + Stream(script[..k + 1]))| <= 4096
  }

  ghost predicate Delivers(script: seq<Pass>, timeoutMs: int) {
    exists k: nat :: DeliversAt(script, Reader(timeoutMs, []), k)
  }

  // ---------- the reader, turn by turn ----------

  /** The reader between two turns. */
  datatype Reader = Reader(remaining: int, frame: seq<byte>)

  datatype Step = Continue(next: Reader) | Return(got: bool, frame: seq<byte>)

  datatype Scanned = Partial(frame: seq<byte>) | Complete(frame: seq<byte>) | TooLong(frame: seq<byte>)

  function Wait(remaining: int): int {
    if remaining < STEP_MS then remaining else STEP_MS
  }

  /** Append a chunk to the frame up to its first zero. */
  function Scan(frame: seq<byte>, chunk: seq<byte>): Scanned
    decreases |chunk|
  {
    if chunk == [] then Partial(frame)
    else if chunk[0] == 0 then Complete(frame)
    else if |frame| + 1 > LIMIT then TooLong(frame + [chunk[0]])
    else Scan(frame + [chunk[0]], chunk[1..])
  }

  /** A turn whose two looks at the running flag found it set. */
  function Settle(r: Reader, poll: Poll): Step {
    var charged := r.remaining - Wait(r.remaining);
    match poll
    case Interrupted | ReadInterrupted => Continue(r)
    case PollFailed | Hangup | ReadFailed | Eof => Return(false, r.frame)
    case Idle | Quiet | ReadAgain => Continue(r.(remaining := charged))
    case Data(bytes) =>
      match Scan(r.frame, bytes)
      case Partial(f) => Continue(Reader(charged, f))
      case Complete(f) => Return(f != [], f)
      case TooLong(f) => Return(false, f)
  }

  /** A frame; none; none, because the running flag was seen cleared; or the script has ended. */
  datatype End = Got | GaveUp | Cancelled | Waiting

  /** How a read went: `polls` turns called poll, `settled` of them went on, `left` of the budget remains. */
  datatype Result = Result(end: End, frame: seq<byte>, polls: nat, settled: nat, left: int)

  /** A whole read; `Waiting` if the script ends before the reader does. */
  function Read(script: seq<Pass>, r: Reader): (q: Result)
    ensures q.settled <= q.polls <= |script|
  {
    if r.remaining <= 0 then Result(GaveUp, r.frame, 0, 0, r.remaining)
    else if script == [] then Result(Waiting, r.frame, 0, 0, r.remaining)
    else if !script[0].live then Result(Cancelled, r.frame, 0, 0, r.remaining)
    else if !script[0].stillLive then Result(Cancelled, r.frame, 1, 0, r.remaining)
    else
      match Settle(r, script[0].poll)
      case Return(got, f) => Result(if got then Got else GaveUp, f, 1, 0, r.remaining)
      case Continue(next) =>
        var q := Read(script[1..], next);
        q.(polls := q.polls + 1, settled := q.settled + 1)
  }

  /** The reader's inner loop: collect the bytes of a chunk up to its first zero. */
  method Collect(start: seq<byte>, buf: seq<byte>) returns (scanned: Scanned)
    ensures scanned == Scan(start, buf)
  {
    var frame, i := start, 0;
    assert buf[0..] == buf;
    while i < |buf|
      invariant 0 <= i <= |buf|
      invariant Scan(start, buf) == Scan(frame, buf[i..])
    {
      if buf[i] == 0 {
        return Complete(frame);
      }
      frame := frame + [buf[i]];
      if |frame| > LIMIT {
        return TooLong(frame);
      }
      assert buf[i..][1..] == buf[i + 1..];
      i := i + 1;
    }
    return Partial(frame);
  }

  /** A read unfolded by one turn. */
  lemma ReadFrom(script: seq<Pass>, at: nat, r: Reader)
    requires at <= |script|
    ensures Read(script[at..], r) ==
            if r.remaining <= 0 then Result(GaveUp, r.frame, 0, 0, r.remaining)
            else if at == |script| then Result(Waiting, r.frame, 0, 0, r.remaining)
            else if !script[at].live then Result(Cancelled, r.frame, 0, 0, r.remaining)
            else if !script[at].stillLive then Result(Cancelled, r.frame, 1, 0, r.remaining)
            else match Settle(r, script[at].poll)
                 case Return(got, f) => Result(if got then Got else GaveUp, f, 1, 0, r.remaining)
                 case Continue(next) =>
                   var q := Read(script[at + 1..], next);
                   q.(polls := q.polls + 1, settled := q.settled + 1)
  {
    hide Settle;
    if at < |script| {
      assert script[at..][0] == script[at] && script[at..][1..] == script[at + 1..];
    }
  }

  /** The reader loop of the service. */
  method ReadFrame(script: seq<Pass>, timeoutMs: int) returns (end: End, frame: seq<byte>, polls: nat, left: int)
    ensures end == Read(script, Reader(timeoutMs, [])).end && frame == Read(script, Reader(timeoutMs, [])).frame
    ensures polls == Read(script, Reader(timeoutMs, [])).polls && left == Read(script, Reader(timeoutMs, [])).left
    ensures end.Got? <==> Delivers(script, timeoutMs)
    ensures end.Got? ==> frame == BeforeZero(Stream(script)) && 1 <= |frame| <= 4096
  {
    hide BeforeZero, Stream, Delivers, Scan, Read;
    ReadIffDelivers(script, timeoutMs);
    frame, polls := [], 0;
    var remaining := timeoutMs;
    ghost var whole := Read(script, Reader(timeoutMs, []));
    assert script[0..] == script;
    while remaining > 0 && polls < |script| && script[polls].live
      invariant 0 <= polls <= |script|
      invariant var rest := Read(script[polls..], Reader(remaining, frame));
                whole == rest.(polls := rest.polls + polls, settled := rest.settled + polls)
      decreases |script| - polls
    {
      ReadFrom(script, polls, Reader(remaining, frame));
      var pass := script[polls];
      polls := polls + 1;
      var waitMs := if remaining < STEP_MS then remaining else STEP_MS;
      if !pass.stillLive {
        return Cancelled, frame, polls, remaining;
      }
      match pass.poll
      case Interrupted | ReadInterrupted =>
        continue;
      case PollFailed | Hangup | ReadFailed | Eof =>
        return GaveUp, frame, polls, remaining;
      case Idle | Quiet | ReadAgain =>
        remaining := remaining - waitMs;
      case Data(buf) =>
        var scanned := Collect(frame, buf);
        frame := scanned.frame;
        if scanned.Complete? {
          return if frame != [] then Got else GaveUp, frame, polls, remaining;
        }
        if scanned.TooLong? {
          return GaveUp, frame, polls, remaining;
        }
        remaining := remaining - waitMs;
    }
    ReadFrom(script, polls, Reader(remaining, frame));
    end := if remaining <= 0 then GaveUp else if polls == |script| then Waiting else Cancelled;
    left := remaining;
  }

  // ---------- refinement: bytes before the first zero ----------

  lemma BeforeZeroIs(s: seq<byte>, u: seq<byte>)
    requires u <= s && ZeroFree(u) && (|u| < |s| ==> s[|u|] == 0)
    ensures BeforeZero(s) == u
  {
    hide BeforeZero;
    var v := BeforeZero(s);
    assert forall i :: 0 <= i < |u| ==> u[i] == s[i];
    assert forall i :: 0 <= i < |v| ==> v[i] == s[i];
  }

  lemma BeforeZeroAppend(a: seq<byte>, b: seq<byte>)
    ensures ZeroFree(a) ==> BeforeZero(a + b) == a + BeforeZero(b)
    ensures !ZeroFree(a) ==> BeforeZero(a + b) == BeforeZero(a)
    ensures ZeroFree(a) <==> BeforeZero(a) == a
  {
    hide BeforeZero;
    if ZeroFree(a) {
      BeforeZeroIs(a + b, a + BeforeZero(b));
      BeforeZeroIs(a, a);
    } else {
      BeforeZeroIs(a + b, BeforeZero(a));
    }
  }

  lemma {:induction false} ScanIs(frame: seq<byte>, chunk: seq<byte>)
    requires ZeroFree(frame) && |frame| <= LIMIT
    ensures var f := frame + BeforeZero(chunk);
            && (|f| > LIMIT ==> Scan(frame, chunk).TooLong?)
            && (|f| <= LIMIT ==> Scan(frame, chunk) == if ZeroFree(chunk) then Partial(f) else Complete(f))
    decreases |chunk|
  {
    hide BeforeZero;
    if chunk == [] || chunk[0] == 0 {
      BeforeZeroIs(chunk, []);
      assert frame + [] == frame;
    } else {
      var c, rest := [chunk[0]], chunk[1..];
      assert chunk == c + rest;
      BeforeZeroAppend(c, rest);
      assert frame + c + BeforeZero(rest) == frame + (c + BeforeZero(rest));
      assert forall i :: 0 <= i < |rest| ==> rest[i] == chunk[i + 1];
      if |frame| < LIMIT {
        ScanIs(frame + c, rest);
      }
    }
  }

  /** One smooth turn, in terms of the bytes it delivers. */
  lemma SettleIs(r: Reader, p: Pass)
    requires Smooth(p) && ZeroFree(r.frame) && |r.frame| <= LIMIT
    ensures var f := BeforeZero(r.frame + Chunk(p.poll));
            && (|f| > LIMIT ==> Settle(r, p.poll).Return? && !Settle(r, p.poll).got)
            && (|f| <= LIMIT && !ZeroFree(Chunk(p.poll)) ==> Settle(r, p.poll) == Return(f != [], f))
            && (|f| <= LIMIT && ZeroFree(Chunk(p.poll)) ==>
                  && f == r.frame + Chunk(p.poll)
                  && Settle(r, p.poll) == Continue(Reader(Charge(r, p), f)))
  {
    hide BeforeZero, Scan;
    BeforeZeroAppend(r.frame, Chunk(p.poll));
    if p.poll.Data? {
      ScanIs(r.frame, p.poll.bytes);
      BeforeZeroAppend(p.poll.bytes, []);
    } else {
      BeforeZeroAppend([], []);
      assert r.frame + [] == r.frame;
    }
  }

  function Charge(r: Reader, p: Pass): int {
    if IsEintr(p.poll) then r.remaining else r.remaining - Wait(r.remaining)
  }

  lemma PeelTurn(script: seq<Pass>, k: nat)
    requires 1 <= k <= |script|
    ensures Stream(script[..k]) == Chunk(script[0].poll) + Stream(script[1..][..k - 1])
    ensures Charged(script[..k]) == (if IsEintr(script[0].poll) then 0 else 1) + Charged(script[1..][..k - 1])
  {
    assert script[..k][0] == script[0] && script[..k][1..] == script[1..][..k - 1];
  }

  /** Delivery after a turn that went on is delivery from there. */
  lemma DeliversLater(script: seq<Pass>, r: Reader, k: nat)
    requires k + 1 < |script| && Smooth(script[0]) && ZeroFree(Chunk(script[0].poll))
    requires r.remaining > 0
    ensures DeliversAt(script, r, k + 1) <==>
            DeliversAt(script[1..], Reader(Charge(r, script[0]), r.frame + Chunk(script[0].poll)), k)
  {
    hide BeforeZero, Stream, Charged, Chunk, Smooth;
    PeelTurn(script, k + 1);
    PeelTurn(script, k + 2);
    var rest, b := script[1..], Chunk(script[0].poll);
    assert r.frame + (b + Stream(rest[..k])) == r.frame + b + Stream(rest[..k]);
    assert r.frame + (b + Stream(rest[..k + 1])) == r.frame + b + Stream(rest[..k + 1]);
    assert forall j :: 0 <= j <= k ==> script[j + 1] == rest[j];
    if DeliversAt(rest, Reader(Charge(r, script[0]), r.frame + b), k) {
      forall j | 0 <= j <= k + 1 ensures Smooth(script[j]) {
        assert j > 0 ==> script[j] == rest[j - 1];
      }
    }
  }

  /** Delivery in the first turn. */
  lemma DeliversNow(script: seq<Pass>, r: Reader)
    requires script != [] && ZeroFree(r.frame)
    ensures Stream(script[..1]) == Chunk(script[0].poll) && Stream(script[..0]) == [] && Charged(script[..0]) == 0
    ensures DeliversAt(script, r, 0) <==>
            && Smooth(script[0]) && r.remaining > 0 && !ZeroFree(Chunk(script[0].poll))
            && 1 <= |BeforeZero(r.frame + Chunk(script[0].poll))| <= LIMIT
  {
    hide BeforeZero, Smooth, Chunk;
    PeelTurn(script, 1);
    assert script[..0] == [] && script[1..][..0] == [];
    assert r.frame + [] == r.frame && Chunk(script[0].poll) + [] == Chunk(script[0].poll);
  }

  lemma {:induction false} ReadSound(script: seq<Pass>, r: Reader) returns (k: nat)
    requires ZeroFree(r.frame) && |r.frame| <= LIMIT && Read(script, r).end.Got?
    ensures DeliversAt(script, r, k)
    ensures Read(script, r).frame == BeforeZero(r.frame + Stream(script[..k + 1]))
    decreases |script|
  {
    hide BeforeZero, Stream, Charged, Chunk, DeliversAt, Settle;
    var p := script[0];
    SmoothTurn(r, p);
    SettleIs(r, p);
    DeliversNow(script, r);
    if ZeroFree(Chunk(p.poll)) {
      var next := Settle(r, p.poll).next;
      k := ReadSound(script[1..], next);
      WithinScript(script[1..], next, k);
      DeliversLater(script, r, k);
      PeelTurn(script, k + 2);
      assert r.frame + (Chunk(p.poll) + Stream(script[1..][..k + 1])) == next.frame + Stream(script[1..][..k + 1]);
      k := k + 1;
    } else {
      k := 0;
    }
  }

  /** A turn after which the read is still alive, or has its frame, is smooth. */
  lemma SmoothTurn(r: Reader, p: Pass)
    requires p.live && p.stillLive && (Settle(r, p.poll).Continue? || Settle(r, p.poll).got)
    ensures Smooth(p)
  {
  }

  lemma WithinScript(script: seq<Pass>, r: Reader, k: nat)
    requires DeliversAt(script, r, k)
    ensures k < |script| && Smooth(script[0]) && r.remaining > 0
    ensures k > 0 ==> ZeroFree(Chunk(script[0].poll)) && |BeforeZero(r.frame + Chunk(script[0].poll))| <= LIMIT
  {
    hide BeforeZero, Stream, Charged, Chunk;
    if k > 0 {
      PeelTurn(script, k);
      PeelTurn(script, k + 1);
      var b, t := Chunk(script[0].poll), Stream(script[1..][..k - 1]);
      assert forall i :: 0 <= i < |b| ==> b[i] == (r.frame + (b + t))[i + |r.frame|];
      assert ZeroFree(r.frame + b) by {
        assert r.frame + (b + t) == (r.frame + b) + t;
        assert forall i :: 0 <= i < |r.frame + b| ==> (r.frame + b)[i] == (r.frame + (b + t))[i];
      }
      BeforeZeroAppend(r.frame + b, Stream(script[1..][..k]));
      assert r.frame + (b + Stream(script[1..][..k])) == r.frame + b + Stream(script[1..][..k]);
    }
  }

  lemma {:induction false} ReadComplete(script: seq<Pass>, r: Reader, k: nat)
    requires ZeroFree(r.frame) && |r.frame| <= LIMIT && DeliversAt(script, r, k)
    ensures Read(script, r).end.Got?
    decreases |script|
  {
    hide BeforeZero, Stream, Charged, Chunk, DeliversAt, Settle;
    WithinScript(script, r, k);
    SettleIs(r, script[0]);
    DeliversNow(script, r);
    if k == 0 {
    } else {
      DeliversLater(script, r, k - 1);
      ReadComplete(script[1..], Settle(r, script[0].poll).next, k - 1);
    }
  }

  /** The frame does not depend on what comes after the turn that delivers it. */
  lemma {:induction false} StreamPrefix(script: seq<Pass>, k: nat)
    requires k <= |script|
    ensures Stream(script) == Stream(script[..k]) + Stream(script[k..])
  {
    if k == 0 {
      assert script[..0] == [] && script[0..] == script;
    } else {
      PeelTurn(script, k);
      StreamPrefix(script[1..], k - 1);
      assert script[1..][k - 1..] == script[k..];
    }
  }

  /**
   The reader returns a frame exactly when one arrives in time, and it is then the bytes before the
   first zero of all bytes read, however they were cut into chunks.
   */
  lemma ReadIffDelivers(script: seq<Pass>, timeoutMs: int)
    ensures Read(script, Reader(timeoutMs, [])).end.Got? <==> Delivers(script, timeoutMs)
    ensures Read(script, Reader(timeoutMs, [])).end.Got? ==>
              && Read(script, Reader(timeoutMs, [])).frame == BeforeZero(Stream(script))
              && 1 <= |BeforeZero(Stream(script))| <= 4096
  {
    hide BeforeZero, Stream, Read, DeliversAt;
    var r := Reader(timeoutMs, []);
    forall k: nat | DeliversAt(script, r, k) ensures Read(script, r).end.Got? {
      ReadComplete(script, r, k);
    }
    if Read(script, r).end.Got? {
      var k := ReadSound(script, r);
      FrameIsPrefix(script, r, k);
    }
  }

  lemma FrameIsPrefix(script: seq<Pass>, r: Reader, k: nat)
    requires r.frame == [] && DeliversAt(script, r, k)
    ensures BeforeZero(r.frame + Stream(script[..k + 1])) == BeforeZero(Stream(script))
    ensures 1 <= |BeforeZero(Stream(script))| <= LIMIT
  {
    hide BeforeZero, Stream, Chunk;
    StreamPrefix(script[..k + 1], k);
    StreamPrefix(script, k + 1);
    assert script[..k + 1][..k] == script[..k] && script[..k + 1][k..] == [script[k]];
    OneTurn(script[k]);
    var a, b := Stream(script[..k]), Chunk(script[k].poll);
    var i :| 0 <= i < |b| && b[i] == 0;
    assert (a + b)[|a| + i] == 0;
    BeforeZeroAppend(a + b, Stream(script[k + 1..]));
    assert r.frame + Stream(script[..k + 1]) == Stream(script[..k + 1]);
  }

  lemma OneTurn(p: Pass)
    ensures Stream([p]) == Chunk(p.poll)
  {
    assert [p][1..] == [] && Chunk(p.poll) + [] == Chunk(p.poll);
  }

  // ---------- how a read ends ----------

  /** Something of the budget is left before turn `n`. */
  predicate BudgetLeft(script: seq<Pass>, r: Reader, n: nat)
    requires n <= |script|
  {
    50 * Charged(script[..n]) < r.remaining
  }

  /** Nothing in the first `n` turns ends the read. */
  ghost predicate GoesOn(script: seq<Pass>, r: Reader, n: nat)
    requires n <= |script|
  {
    && (forall j :: 0 <= j < n ==> Smooth(script[j]) && BudgetLeft(script, r, j))
    && ZeroFree(r.frame + Stream(script[..n])) && |r.frame + Stream(script[..n])| <= 4096
  }

  /** With `frame` so far, a turn fails, ends an empty frame, or makes the frame too long. */
  ghost predicate Fails(frame: seq<byte>, p: Pass) {
    || !Smooth(p)
    || |BeforeZero(frame + Chunk(p.poll))| > 4096
    || (!ZeroFree(Chunk(p.poll)) && BeforeZero(frame + Chunk(p.poll)) == [])
  }

  lemma LaterTurn(script: seq<Pass>, r: Reader, k: nat)
    requires k < |script| && r.remaining > 0
    ensures var next := Reader(Charge(r, script[0]), r.frame + Chunk(script[0].poll));
            && (BudgetLeft(script, r, k + 1) <==> BudgetLeft(script[1..], next, k))
            && r.frame + Stream(script[..k + 1]) == next.frame + Stream(script[1..][..k])
  {
    hide Charged, Stream, Chunk;
    PeelTurn(script, k + 1);
    var b, t := Chunk(script[0].poll), Stream(script[1..][..k]);
    assert r.frame + (b + t) == r.frame + b + t;
  }

  /** A turn that goes on, and then `n` more. */
  lemma GoesOnLater(script: seq<Pass>, r: Reader, n: nat)
    requires n < |script| && Smooth(script[0]) && r.remaining > 0
    requires GoesOn(script[1..], Reader(Charge(r, script[0]), r.frame + Chunk(script[0].poll)), n)
    ensures GoesOn(script, r, n + 1)
  {
    hide Charged, Stream, Chunk, Smooth, BudgetLeft;
    LaterTurn(script, r, n);
    FirstTurn(script, r);
    forall j | 0 <= j < n + 1 ensures Smooth(script[j]) && BudgetLeft(script, r, j) {
      if j > 0 {
        assert script[j] == script[1..][j - 1];
        LaterTurn(script, r, j - 1);
      }
    }
  }

  lemma FirstTurn(script: seq<Pass>, r: Reader)
    ensures BudgetLeft(script, r, 0) <==> r.remaining > 0
    ensures r.frame + Stream(script[..0]) == r.frame
  {
    assert script[..0] == [];
  }

  /** The read `q` ended at turn `q.settled`, the first that stops it, for one of five reasons. */
  ghost predicate EndsAt(script: seq<Pass>, r: Reader, q: Result)
    requires q.settled <= |script|
  {
    var n := q.settled;
    var frame, budget := r.frame + Stream(script[..n]), BudgetLeft(script, r, n);
    var live := n < |script| && script[n].live && script[n].stillLive;
    && GoesOn(script, r, n)
    && (q.end.Waiting? <==> budget && n == |script|)
    && (q.end.Cancelled? <==> budget && n < |script| && !live)
    && (q.end.GaveUp? <==> !budget || (live && Fails(frame, script[n])))
    && (q.end.Got? <==> budget && live && !Fails(frame, script[n]) && !ZeroFree(Chunk(script[n].poll)))
    && q.polls == if budget && n < |script| && script[n].live then n + 1 else n
  }

  lemma NoneGone(script: seq<Pass>, r: Reader)
    requires ZeroFree(r.frame) && |r.frame| <= 4096
    ensures GoesOn(script, r, 0)
  {
    FirstTurn(script, r);
  }

  /** What a turn of a live reader leads to. */
  lemma TurnEnds(script: seq<Pass>, r: Reader)
    requires ZeroFree(r.frame) && |r.frame| <= 4096 && script != [] && script[0].live && script[0].stillLive
    ensures var p := script[0];
            match Settle(r, p.poll)
            case Continue(next) =>
              && Smooth(p) && next == Reader(Charge(r, p), r.frame + Chunk(p.poll))
              && ZeroFree(next.frame) && |next.frame| <= 4096
            case Return(got, _) =>
              && (got <==> !Fails(r.frame, p))
              && (got ==> !ZeroFree(Chunk(p.poll)))
  {
    hide BeforeZero, Chunk, Scan;
    if Smooth(script[0]) {
      SettleIs(r, script[0]);
    }
  }

  /**
   Every read ends at the first turn that stops it, and for the right reason: the budget is spent, the
   running flag is clear, the turn fails, or it brings the end of a good frame.
   */
  lemma {:induction false} ReadEnds(script: seq<Pass>, r: Reader)
    requires ZeroFree(r.frame) && |r.frame| <= 4096
    ensures Read(script, r).settled <= |script| && EndsAt(script, r, Read(script, r))
    decreases |script|
  {
    hide BeforeZero, Stream, Charged, Chunk, Settle, Smooth, GoesOn, BudgetLeft;
    FirstTurn(script, r);
    NoneGone(script, r);
    if r.remaining <= 0 || script == [] || !script[0].live || !script[0].stillLive {
    } else {
      TurnEnds(script, r);
      if Settle(r, script[0].poll).Continue? {
        var q := Read(script[1..], Settle(r, script[0].poll).next);
        ReadEnds(script[1..], Settle(r, script[0].poll).next);
        LaterTurn(script, r, q.settled);
        GoesOnLater(script, r, q.settled);
      }
    }
  }

  // ---------- budget ----------

  /** poll returns within the wait it was given, and reports an idle port only after all of it. */
  ghost predicate WellTimed(script: seq<Pass>, remaining: int) {
    remaining > 0 && script != [] ==>
      && script[0].took <= Wait(remaining)
      && (script[0].poll.Idle? ==> script[0].took == Wait(remaining))
      && WellTimed(script[1..], if IsEintr(script[0].poll) then remaining else remaining - Wait(remaining))
  }

  /**
   The budget is charged 50 ms a turn and never overdrawn, at most ceil(remaining / 50) turns are not
   interrupted, and polling takes at most the budget and 50 ms for each interrupted turn.
   */
  lemma {:induction false} BudgetHolds(script: seq<Pass>, r: Reader)
    requires r.remaining >= 0 && WellTimed(script, r.remaining)
    ensures var q := Read(script, r);
            && q.settled <= q.polls <= |script| && q.polls <= q.settled + 1
            && q.left == Max(0, r.remaining - 50 * Charged(script[..q.settled]))
            && Charged(script[..q.polls]) <= (r.remaining + 49) / 50
            && Elapsed(script[..q.polls]) <= r.remaining + 50 * Interrupts(script[..q.polls])
    decreases |script|
  {
    hide Settle, Charged, Elapsed, Interrupts, Read;
    var q := Read(script, r);
    ReadUnfolds(script, r);
    NoTurns(script);
    if q.settled > 0 {
      var next := Settle(r, script[0].poll).next;
      SettleCharges(r, script[0].poll);
      BudgetHolds(script[1..], next);
      PeelTurn(script, q.polls);
      PeelTurn(script, q.settled);
      PeelTimes(script, q.polls);
    } else if q.polls > 0 {
      NoTurns(script[1..]);
      PeelTurn(script, 1);
      PeelTimes(script, 1);
    }
  }

  lemma ReadUnfolds(script: seq<Pass>, r: Reader)
    ensures var q := Read(script, r);
            if q.settled > 0 then
              && script != [] && r.remaining > 0 && Settle(r, script[0].poll).Continue?
              && var p := Read(script[1..], Settle(r, script[0].poll).next);
                 q == p.(polls := p.polls + 1, settled := p.settled + 1)
            else q.polls <= 1 && q.left == r.remaining && (q.polls == 1 ==> script != [] && r.remaining > 0)
  {
    hide Settle;
  }

  lemma NoTurns(script: seq<Pass>)
    ensures script[..0] == [] && Charged([]) == Elapsed([]) == Interrupts([]) == 0
  {
  }

  lemma SettleCharges(r: Reader, poll: Poll)
    ensures Settle(r, poll).Continue? ==>
              Settle(r, poll).next.remaining == if IsEintr(poll) then r.remaining else r.remaining - Wait(r.remaining)
  {
  }

  function Max(a: int, b: int): int {
    if a < b then b else a
  }

  lemma PeelTimes(script: seq<Pass>, k: nat)
    requires 1 <= k <= |script|
    ensures Elapsed(script[..k]) == script[0].took + Elapsed(script[1..][..k - 1])
    ensures Interrupts(script[..k]) == (if IsEintr(script[0].poll) then 1 else 0) + Interrupts(script[1..][..k - 1])
  {
    assert script[..k][0] == script[0] && script[..k][1..] == script[1..][..k - 1];
  }
}
