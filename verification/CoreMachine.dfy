/**
 The service's state machine: what each operation answers and which state it leaves, the class
 that implements it, and what whole histories of operations imply.
 */
module CoreMachine {
  datatype State = NotInit | Init | Running | Stopped

  /** The four operations the dispatcher knows. */
  datatype Op = Command(text: string) | StartJob(timeoutMs: int) | Stop | FinishJob

  /** What an operation can do to the state; a command's effect depends on its text. */
  datatype Effect = Initialise | Launch | Halt | Complete | Nothing

  datatype Response = Response(httpStatus: int, ok: bool, command: string, state: State, message: string)

  /** toupper in the C locale. */
  function ToUpper(c: char): char {
    if 'a' <= c <= 'z' then (c as int - 32) as char else c
  }

  function Uppercase(s: string): (u: string)
    ensures |u| == |s|
  {
    if s == [] then [] else [ToUpper(s[0])] + Uppercase(s[1..])
  }

  function EffectOf(op: Op): Effect {
    match op
    case Command(text) =>
      var verb := Uppercase(text);
      if verb == "INIT" then Initialise else if verb == "STOP" then Halt else Nothing
    case StartJob(_) => Launch
    case Stop => Halt
    case FinishJob => Complete
  }

  function Next(st: State, e: Effect): State {
    match e
    case Initialise => if st.Running? then st else Init
    case Launch => if st.Init? then Running else st
    case Halt => Stopped
    case Complete => if st.Running? then Init else st
    case Nothing => st
  }

  function Reply(st: State, op: Op): Response {
    var after := Next(st, EffectOf(op));
    match op
    case Command(text) =>
      var verb := Uppercase(text);
      if verb == "PING" then Response(200, true, verb, after, "PONG")
      else if verb == "INIT" then
        if st.Running? then Response(409, false, verb, after, "ERR:BUSY") else Response(200, true, verb, after, "OK")
      else if verb == "STOP" then Response(200, true, "STOP", after, "OK")
      else if verb == "START" then Response(400, false, verb, after, "ERR:USE_START_ENDPOINT")
      else Response(400, false, verb, after, "ERR:UNKNOWN_CMD")
    case StartJob(_) =>
      if st.NotInit? then Response(409, false, "START", after, "ERR:NOT_INIT")
      else if st.Running? then Response(409, false, "START", after, "ERR:ALREADY_RUNNING")
      else if st.Stopped? then Response(409, false, "START", after, "ERR:STOPPED")
      else Response(202, true, "START", after, "ACCEPTED")
    case Stop => Response(200, true, "STOP", after, "OK")
    case FinishJob =>
      if st.NotInit? then Response(409, false, "FINISH", after, "ERR:NOT_INIT")
      else if st.Stopped? then Response(409, false, "FINISH", after, "ERR:STOPPED")
      else Response(200, true, "FINISH", after, "OK")
  }

  // ---------- the class ----------

  class Core {
    var st: State

    constructor ()
      ensures st == NotInit
    {
      st := NotInit;
    }

    static method Upper(s: string) returns (r: string)
      ensures r == Uppercase(s) && |r| == |s|
      ensures forall k :: 0 <= k < |s| ==> r[k] == if 'a' <= s[k] <= 'z' then (s[k] as int - 32) as char else s[k]
    {
      UppercaseIs(s);
      r := s;
      for i := 0 to |s|
        invariant |r| == |s|
        invariant forall k :: 0 <= k < i ==> r[k] == if 'a' <= s[k] <= 'z' then (s[k] as int - 32) as char else s[k]
        invariant forall k :: i <= k < |s| ==> r[k] == s[k]
      {
        r := r[i := ToUpper(r[i])];
      }
    }

    method HandleSyncCommand(cmd: string) returns (r: Response)
      modifies this
      ensures st == Next(old(st), EffectOf(Command(cmd)))
      ensures r == Reply(old(st), Command(cmd))
      ensures var verb := Uppercase(cmd);
              && st == (if verb == "INIT" && old(st) != Running then Init
                        else if verb == "STOP" then Stopped
                        else old(st))
              && r.state == st && r.command == verb
              && (verb == "PING" ==> r.httpStatus == 200 && r.ok && r.message == "PONG")
              && (verb == "INIT" && old(st) == Running ==> r.httpStatus == 409 && !r.ok && r.message == "ERR:BUSY")
              && (verb == "INIT" && old(st) != Running ==> r.httpStatus == 200 && r.ok && r.message == "OK")
              && (verb == "STOP" ==> r.httpStatus == 200 && r.ok && r.message == "OK")
              && (verb == "START" ==> r.httpStatus == 400 && !r.ok && r.message == "ERR:USE_START_ENDPOINT")
              && (verb !in {"PING", "INIT", "STOP", "START"} ==>
                    r.httpStatus == 400 && !r.ok && r.message == "ERR:UNKNOWN_CMD")
    {
      var command := Upper(cmd);
      if command == "PING" {
        return Response(200, true, command, st, "PONG");
      }
      if command == "INIT" {
        if st == Running {
          return Response(409, false, command, st, "ERR:BUSY");
        }
        st := Init;
        return Response(200, true, command, st, "OK");
      }
      if command == "STOP" {
        r := Halt();
        return;
      }
      if command == "START" {
        return Response(400, false, command, st, "ERR:USE_START_ENDPOINT");
      }
      return Response(400, false, command, st, "ERR:UNKNOWN_CMD");
    }

    method Start(timeoutMs: int) returns (r: Response)
      modifies this
      ensures st == Next(old(st), Launch)
      ensures r == Reply(old(st), StartJob(timeoutMs))
      ensures st == if old(st) == Init then Running else old(st)
      ensures r == match old(st)
                   case NotInit => Response(409, false, "START", NotInit, "ERR:NOT_INIT")
                   case Running => Response(409, false, "START", Running, "ERR:ALREADY_RUNNING")
                   case Stopped => Response(409, false, "START", Stopped, "ERR:STOPPED")
                   case Init => Response(202, true, "START", Running, "ACCEPTED")
    {
      if st == NotInit {
        return Response(409, false, "START", st, "ERR:NOT_INIT");
      }
      if st == Running {
        return Response(409, false, "START", st, "ERR:ALREADY_RUNNING");
      }
      if st == Stopped {
        return Response(409, false, "START", st, "ERR:STOPPED");
      }
      st := Running;
      return Response(202, true, "START", st, "ACCEPTED");
    }

    method Halt() returns (r: Response)
      modifies this
      ensures st == Stopped && r == Reply(old(st), Stop)
      ensures r == Response(200, true, "STOP", Stopped, "OK")
    {
      st := Stopped;
      return Response(200, true, "STOP", st, "OK");
    }

    method Finish() returns (r: Response)
      modifies this
      ensures st == Next(old(st), Complete)
      ensures r == Reply(old(st), FinishJob)
      ensures st == if old(st) == Running then Init else old(st)
      ensures r == match old(st)
                   case NotInit => Response(409, false, "FINISH", NotInit, "ERR:NOT_INIT")
                   case Stopped => Response(409, false, "FINISH", Stopped, "ERR:STOPPED")
                   case _ => Response(200, true, "FINISH", Init, "OK")
    {
      if st == NotInit {
        return Response(409, false, "FINISH", st, "ERR:NOT_INIT");
      }
      if st == Stopped {
        return Response(409, false, "FINISH", st, "ERR:STOPPED");
      }
      if st == Running {
        st := Init;
      }
      return Response(200, true, "FINISH", st, "OK");
    }
  }

  // ---------- commands ----------

  /** Every character is uppercased by itself, and only letters change. */
  lemma {:induction false} UppercaseIs(s: string)
    ensures forall k :: 0 <= k < |s| ==>
              Uppercase(s)[k] == if 'a' <= s[k] <= 'z' then (s[k] as int - 32) as char else s[k]
  {
    if s == [] {
    } else {
      UppercaseIs(s[1..]);
      forall k | 0 <= k < |s|
        ensures Uppercase(s)[k] == if 'a' <= s[k] <= 'z' then (s[k] as int - 32) as char else s[k]
      {
        assert k > 0 ==> Uppercase(s)[k] == Uppercase(s[1..])[k - 1] && s[k] == s[1..][k - 1];
      }
    }
  }

  /** Two characters that are the same letter, or the same character. */
  predicate SameLetter(a: char, b: char) {
    a == b || ('a' <= a <= 'z' && b as int == a as int - 32) || ('a' <= b <= 'z' && a as int == b as int - 32)
  }

  /** Case never matters: commands that differ only in the case of letters have the same effect and answer. */
  lemma CaseInsensitive(a: string, b: string, st: State)
    requires |a| == |b| && forall i :: 0 <= i < |a| ==> SameLetter(a[i], b[i])
    ensures EffectOf(Command(a)) == EffectOf(Command(b))
    ensures Reply(st, Command(a)) == Reply(st, Command(b))
  {
    assert Uppercase(a) == Uppercase(b) by {
      hide EffectOf, Reply;
      UppercaseIs(a);
      UppercaseIs(b);
      assert forall i :: 0 <= i < |a| ==> SameLetter(a[i], b[i]);
    }
  }

  /** An operation that has this effect, by its kind and its word. */
  predicate Does(op: Op, e: Effect) {
    match e
    case Initialise => op.Command? && Uppercase(op.text) == "INIT"
    case Launch => op.StartJob?
    case Halt => op.Stop? || (op.Command? && Uppercase(op.text) == "STOP")
    case Complete => op.FinishJob?
    case Nothing => op.Command? && Uppercase(op.text) != "INIT" && Uppercase(op.text) != "STOP"
  }

  lemma EffectsByWord(op: Op)
    ensures forall e: Effect :: Does(op, e) <==> EffectOf(op) == e
  {
  }

  lemma {:induction false} UppercaseTwice(s: string)
    ensures Uppercase(Uppercase(s)) == Uppercase(s)
  {
    if s == [] {
    } else {
      UppercaseTwice(s[1..]);
      assert Uppercase(s)[1..] == Uppercase(s[1..]);
    }
  }

  /** A response carries the state it leaves, its status says whether it succeeded, and a refusal changes nothing. */
  lemma ReplyIsHonest(st: State, op: Op)
    ensures Reply(st, op).state == Next(st, EffectOf(op))
    ensures Reply(st, op).ok <==> Reply(st, op).httpStatus in {200, 202}
    ensures !Reply(st, op).ok ==> Reply(st, op).state == st
  {
  }

  // ---------- histories ----------

  /** The state after running operations one after the other. */
  function Fold(ops: seq<Op>): State {
    if ops == [] then NotInit else Next(Fold(ops[..|ops| - 1]), EffectOf(ops[|ops| - 1]))
  }

  /** The answer operation `k` gets when operations run one after the other. */
  function ReplyAt(ops: seq<Op>, k: nat): Response
    requires k < |ops|
  {
    Reply(Fold(ops[..k]), ops[k])
  }

  /** Running more does not change earlier answers. */
  lemma PushKeeps(ops: seq<Op>, op: Op)
    ensures forall k: nat :: k < |ops| ==> ReplyAt(ops + [op], k) == ReplyAt(ops, k)
    ensures forall k: nat :: k <= |ops| ==> (ops + [op])[..k] == ops[..k]
  {
    hide Reply, Fold, EffectOf;
    forall k: nat | k <= |ops| ensures (ops + [op])[..k] == ops[..k] {
    }
  }

  /** An answer shows the state the machine is in after it. */
  lemma AnswerShowsState(ops: seq<Op>, k: nat)
    requires k < |ops|
    ensures ReplyAt(ops, k).state == Fold(ops[..k + 1])
  {
    hide EffectOf, Next;
    assert ops[..k + 1][..k] == ops[..k];
    ReplyIsHonest(Fold(ops[..k]), ops[k]);
  }

  ghost predicate NoneFrom(ops: seq<Op>, e: Effect, lo: nat) {
    forall k :: lo <= k < |ops| ==> !Does(ops[k], e)
  }

  /** Some initialisation has not been followed by a stop. */
  ghost predicate ReadyBy(ops: seq<Op>, i: nat) {
    i < |ops| && Does(ops[i], Initialise) && NoneFrom(ops, Halt, i)
  }

  /** And after it a start has not been followed by a finish. */
  ghost predicate RunningBy(ops: seq<Op>, i: nat, j: nat) {
    ReadyBy(ops, i) && i < j < |ops| && Does(ops[j], Launch) && NoneFrom(ops, Complete, j)
  }

  ghost predicate StoppedBy(ops: seq<Op>, i: nat) {
    i < |ops| && Does(ops[i], Halt) && NoneFrom(ops, Initialise, i)
  }

  /**
   The state, read off the history alone: stopped if a stop has no later initialisation, running if
   a start came after an initialisation that no stop followed and no finish came later, and so on.
   */
  lemma {:induction false} StateByHistory(ops: seq<Op>)
    ensures Fold(ops).NotInit? <==> NoneFrom(ops, Initialise, 0) && NoneFrom(ops, Halt, 0)
    ensures Fold(ops).Stopped? <==> exists i: nat :: StoppedBy(ops, i)
    ensures Fold(ops).Running? <==> exists i: nat, j: nat :: RunningBy(ops, i, j)
    ensures Fold(ops).Init? || Fold(ops).Running? <==> exists i: nat :: ReadyBy(ops, i)
  {
    hide EffectOf, Does;
    if ops == [] {
    } else {
      var n := |ops| - 1;
      var p, op := ops[..n], ops[n];
      var e := EffectOf(op);
      assert ops == p + [op];
      StateByHistory(p);
      Extends(p, op);
      hide ReadyBy, RunningBy, StoppedBy, NoneFrom;
      if i: nat :| ReadyBy(p, i) {
        assert e != Halt ==> ReadyBy(ops, i);
        assert e == Launch ==> RunningBy(ops, i, n);
      }
      if i: nat :| StoppedBy(p, i) {
        assert e != Initialise ==> StoppedBy(ops, i);
      }
      if i: nat, j: nat :| RunningBy(p, i, j) {
        assert e != Halt && e != Complete ==> RunningBy(ops, i, j);
      }
      assert e == Initialise ==> ReadyBy(ops, n);
      assert e == Halt ==> StoppedBy(ops, n);
    }
  }

  lemma NoneFromNext(p: seq<Op>, op: Op, x: Effect, lo: nat)
    requires lo <= |p|
    ensures NoneFrom(p + [op], x, lo) <==> NoneFrom(p, x, lo) && !Does(op, x)
  {
    hide Does;
    assert forall k :: 0 <= k < |p| ==> (p + [op])[k] == p[k];
    assert (p + [op])[|p|] == op;
  }

  lemma Extends(p: seq<Op>, op: Op)
    ensures var e := EffectOf(op);
            && (forall i: nat :: ReadyBy(p + [op], i) <==>
                  (ReadyBy(p, i) && e != Halt) || (i == |p| && e == Initialise))
            && (forall i: nat :: StoppedBy(p + [op], i) <==>
                  (StoppedBy(p, i) && e != Initialise) || (i == |p| && e == Halt))
            && (forall i: nat, j: nat :: RunningBy(p + [op], i, j) <==>
                  (RunningBy(p, i, j) && e != Halt && e != Complete) || (ReadyBy(p, i) && j == |p| && e == Launch))
            && (forall x: Effect :: NoneFrom(p + [op], x, 0) <==> NoneFrom(p, x, 0) && e != x)
  {
    EffectsByWord(op);
    hide EffectOf, Does;
    forall x: Effect, lo: nat | lo <= |p|
      ensures NoneFrom(p + [op], x, lo) <==> NoneFrom(p, x, lo) && EffectOf(op) != x
    {
      NoneFromNext(p, op, x, lo);
    }
  }

  // Starts and what ends them, as the answers show them.

  /** A start answered with a grant. */
  predicate GrantAt(ops: seq<Op>, k: nat)
    requires k < |ops|
  {
    ops[k].StartJob? && ReplyAt(ops, k).ok
  }

  /** A finish or a stop right after an answer that said running. */
  predicate EndAt(ops: seq<Op>, k: nat, how: Effect)
    requires k < |ops|
  {
    k > 0 && Does(ops[k], how) && ReplyAt(ops, k - 1).state.Running?
  }

  function Grants(ops: seq<Op>): nat {
    if ops == [] then 0 else Grants(ops[..|ops| - 1]) + if GrantAt(ops, |ops| - 1) then 1 else 0
  }

  function Ends(ops: seq<Op>, how: Effect): nat {
    if ops == [] then 0 else Ends(ops[..|ops| - 1], how) + if EndAt(ops, |ops| - 1, how) then 1 else 0
  }

  /** A start is granted exactly in the initialised state. */
  lemma GrantedWhenInit(ops: seq<Op>, k: nat)
    requires k < |ops|
    ensures GrantAt(ops, k) <==> ops[k].StartJob? && Fold(ops[..k]).Init?
    ensures ops[k].StartJob? <==> EffectOf(ops[k]) == Launch
  {
    hide Fold;
  }

  lemma EndedWhenRunning(ops: seq<Op>, k: nat, how: Effect)
    requires k < |ops|
    ensures EndAt(ops, k, how) <==> EffectOf(ops[k]) == how && Fold(ops[..k]).Running?
    ensures ops[k].FinishJob? <==> EffectOf(ops[k]) == Complete
  {
    EffectsByWord(ops[k]);
    hide EffectOf, ReplyAt;
    if k > 0 {
      AnswerShowsState(ops, k - 1);
    }
  }

  /** Every granted start is ended once, by a finish or a stop, or is still running. */
  lemma {:induction false} StartsAreConserved(ops: seq<Op>)
    ensures Grants(ops) == Ends(ops, Complete) + Ends(ops, Halt) + if Fold(ops).Running? then 1 else 0
  {
    hide EffectOf, GrantAt, EndAt;
    if ops == [] {
    } else {
      var n := |ops| - 1;
      StartsAreConserved(ops[..n]);
      GrantedWhenInit(ops, n);
      EndedWhenRunning(ops, n, Complete);
      EndedWhenRunning(ops, n, Halt);
    }
  }

  /** On the way from running to stopped lies a stop. */
  lemma {:induction false} StopBetween(ops: seq<Op>, p: nat) returns (k: nat)
    requires p <= |ops| && Fold(ops[..p]).Running? && Fold(ops).Stopped?
    ensures p <= k < |ops| && EffectOf(ops[k]) == Halt
  {
    hide EffectOf;
    var n := |ops| - 1;
    assert ops[..|ops|] == ops;
    if EffectOf(ops[n]) == Halt {
      k := n;
    } else {
      assert ops[..n][..p] == ops[..p];
      k := StopBetween(ops[..n], p);
    }
  }

  /** And from running to initialised a finish, or a stop and an accepted initialisation. */
  lemma {:induction false} BackToInit(ops: seq<Op>, p: nat) returns (k: nat, m: nat)
    requires p <= |ops| && Fold(ops[..p]).Running? && Fold(ops).Init?
    ensures p <= k < |ops|
    ensures || (EffectOf(ops[k]) == Complete && Fold(ops[..k]).Running?)
            || (EffectOf(ops[k]) == Halt && k < m < |ops| && EffectOf(ops[m]) == Initialise && Fold(ops[..m]).Stopped?)
  {
    hide EffectOf;
    var n := |ops| - 1;
    assert ops[..|ops|] == ops;
    var before := ops[..n];
    assert before[..p] == ops[..p];
    if Fold(before).Running? {
      k, m := n, n;
    } else if Fold(before).Stopped? {
      k := StopBetween(before, p);
      m := n;
    } else {
      NeverNotInit(before, p);
      k, m := BackToInit(before, p);
      assert before[..k] == ops[..k];
      assert m < n ==> before[..m] == ops[..m];
    }
  }

  lemma {:induction false} NeverNotInit(ops: seq<Op>, p: nat)
    requires p <= |ops| && !Fold(ops[..p]).NotInit?
    ensures !Fold(ops).NotInit?
    decreases |ops|
  {
    hide EffectOf;
    assert ops[..|ops|] == ops;
    if p == |ops| {
    } else {
      assert ops[..|ops| - 1][..p] == ops[..p];
      NeverNotInit(ops[..|ops| - 1], p);
    }
  }

  /** Between two granted starts lies a finish that ended the first, or a stop and then an accepted initialisation. */
  lemma StartsAreSeparated(ops: seq<Op>, i: nat, j: nat) returns (k: nat, m: nat)
    requires i < j < |ops| && GrantAt(ops, i) && GrantAt(ops, j)
    ensures i < k < j
    ensures || (ops[k].FinishJob? && EndAt(ops, k, Complete) && ReplyAt(ops, k).state.Init?)
            || (Does(ops[k], Halt) && k < m < j && Does(ops[m], Initialise) && ReplyAt(ops, m).ok)
  {
    hide EffectOf, Does, GrantAt, EndAt, ReplyAt, Reply;
    GrantedWhenInit(ops, i);
    GrantedWhenInit(ops, j);
    assert ops[..i + 1][..i] == ops[..i];
    assert ops[..j][..i + 1] == ops[..i + 1];
    k, m := BackToInit(ops[..j], i + 1);
    assert ops[..j][..k] == ops[..k];
    EndedWhenRunning(ops, k, Complete);
    if EndAt(ops, k, Complete) {
      AnswerShowsState(ops, k);
      assert ops[..k + 1][..k] == ops[..k];
    } else {
      assert ops[..j][..m] == ops[..m];
      EffectsByWord(ops[k]);
      EffectsByWord(ops[m]);
      InitAccepted(ops, m);
    }
  }

  lemma InitAccepted(ops: seq<Op>, m: nat)
    requires m < |ops| && EffectOf(ops[m]) == Initialise && !Fold(ops[..m]).Running?
    ensures ReplyAt(ops, m).ok
  {
    hide Fold;
  }
}
