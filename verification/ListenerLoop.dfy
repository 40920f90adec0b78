/**
 The thread of a sync `Listener`: its reconnect loop, the connect retries inside it, and `stop_listening`.

 The same kind of step machine as the publish backend's: an input is a move of the stopping thread, of
 the broker, or `Go`, the listener thread's next step with the answer of the call it makes.  Whether a
 pump runs a callback that waits is part of its answer: `process_data_events` may have run its callbacks
 before the one in question was enqueued, and then it waits for the next.
 */
module ListenerLoop {
  import opened Wrappers
  import opened RetryPolicies

  datatype Config = Config(connect: RetryPolicy, loop: RetryPolicy)

  /**
   `Polling` and `Calling` are the two halves of a turn of the connect retry.  `PumpFailing` is the handler
   around the pump, and `Failing` the one around the whole body, which also catches what the first raises;
   what the second raises ends the thread: `Crashed`.
   */
  datatype Pc = AtHead | Polling | Calling | SettingUp | Pumping | PumpFailing | Failing | Done | Crashed

  datatype Stopper = Idle | FlagSet | Finished

  datatype Conn = NoConn | Conn(open: bool) {
    predicate IsOpen() {
      Conn? && open
    }
  }

  /** A pump that returned, or a failure with the delay slept; `Raised` if backing off raised. */
  datatype Mark = Healthy | BackedOff(delay: real, draw: real) | Raised(draw: real)

  /** `closing`: the request to stop and close waits among the connection's callbacks. */
  datatype State = State(
    pc: Pc,
    stopMe: bool,
    stopper: Stopper,
    conn: Conn,
    closing: bool,
    attempt: nat,
    loopFailures: nat,
    connectionsOpened: nat,
    connectionsClosed: nat,
    uncounted: nat,
    lost: nat,
    closeRaised: nat,
    factoryCalls: nat,
    pumps: nat,
    log: seq<Mark>)

  /** `ran`: a pump ran what waited among the callbacks, which it may do or not, whether it returns or raises. */
  datatype Answer = Answer(ok: bool, ran: bool, closeOk: bool, draw: real)

  datatype Input = SetFlag | RequestClose(enqueued: bool, closeOk: bool) | Drop | Go(answer: Answer)

  function Init(): State {
    State(AtHead, false, Idle, NoConn, false, 1, 0, 0, 0, 0, 0, 0, 0, 0, [])
  }

  /** A close that is counted when it succeeds. */
  function Close(s: State, ok: bool): State {
    if !s.conn.IsOpen() then s
    else if ok then s.(conn := Conn(false), connectionsClosed := s.connectionsClosed + 1)
    else s.(closeRaised := s.closeRaised + 1)
  }

  /** Gives the connection up, open or not, after trying to close it. */
  function Abandon(s: State, ok: bool): State {
    Close(s, ok).(conn := NoConn, closing := false)
  }

  function CallStep(c: Config, s: State, a: Answer): State {
    var called := s.(factoryCalls := s.factoryCalls + 1);
    if a.ok then called.(pc := SettingUp, conn := Conn(true), closing := false, connectionsOpened := s.connectionsOpened + 1)
    else if GivesUp(c.connect, s.attempt) || BackoffRaises(c.connect, true, s.attempt + 1, a.draw) then called.(pc := Failing)
    else called.(pc := Polling, attempt := s.attempt + 1)
  }

  /** The waiting close request, if the pump ran it; it swallows a close that raises. */
  function RunRequest(s: State, a: Answer): State {
    if !s.closing || !a.ran then s
    else if s.conn.IsOpen() && a.closeOk then
      s.(closing := false, conn := Conn(false), connectionsClosed := s.connectionsClosed + 1)
    else s.(closing := false)
  }

  function PumpStep(s: State, a: Answer): State {
    var pumped := RunRequest(s, a).(pumps := s.pumps + 1);
    if a.ok then pumped.(pc := AtHead, loopFailures := 0, log := s.log + [Healthy]) else pumped.(pc := PumpFailing)
  }

  /** The mark of a failure after `failures` others in a row. */
  function FailureMark(c: Config, failures: nat, draw: real): Mark {
    if BackoffRaises(c.loop, true, failures + 2, draw) then Mark.Raised(draw)
    else BackedOff(DelayForAttempt(c.loop, failures + 2, draw), draw)
  }

  /** Both handlers: nothing once stopping; else close, forget, count and back off, and `next` if that raises. */
  function FailStep(c: Config, s: State, a: Answer, next: Pc): State {
    if s.stopMe then s.(pc := AtHead)
    else
      Abandon(s, a.closeOk).(
        pc := if BackoffRaises(c.loop, true, s.loopFailures + 2, a.draw) then next else AtHead,
        loopFailures := s.loopFailures + 1,
        log := s.log + [FailureMark(c, s.loopFailures, a.draw)])
  }

  function IoStep(c: Config, s: State, a: Answer): State {
    match s.pc
    case AtHead =>
      if s.stopMe then s.(pc := Done)
      else if s.conn.IsOpen() then s.(pc := SettingUp)
      else s.(pc := Polling, attempt := 1)
    case Polling => s.(pc := if s.stopMe then Failing else Calling)
    case Calling => CallStep(c, s, a)
    case SettingUp => s.(pc := if a.ok then Pumping else Failing)
    case Pumping => PumpStep(s, a)
    case PumpFailing => FailStep(c, s, a, Failing)
    case Failing => FailStep(c, s, a, Crashed)
    case Done => s
    case Crashed => s
  }

  /** The second half of `stop_listening`: by way of the I/O thread if that can be asked, else directly. */
  function RequestCloseStep(s: State, enqueued: bool, closeOk: bool): State {
    if !s.stopper.FlagSet? then s
    else if !s.conn.IsOpen() then s.(stopper := Finished)
    else if enqueued then s.(stopper := Finished, closing := true)
    else if closeOk then s.(stopper := Finished, conn := Conn(false), uncounted := s.uncounted + 1)
    else s.(stopper := Finished)
  }

  function Step(c: Config, s: State, e: Input): State {
    match e
    case SetFlag => if s.stopper.Idle? then s.(stopMe := true, stopper := FlagSet) else s
    case RequestClose(enqueued, closeOk) => RequestCloseStep(s, enqueued, closeOk)
    case Drop => if s.conn.IsOpen() then s.(conn := Conn(false), lost := s.lost + 1) else s
    case Go(a) => IoStep(c, s, a)
  }

  function After(c: Config, s: State, tape: seq<Input>): State {
    if tape == [] then s else Step(c, After(c, s, tape[..|tape| - 1]), tape[|tape| - 1])
  }

  // ---------------------------------------------------------------- the invariant

  function TrailingFailures(log: seq<Mark>): nat {
    if log == [] || log[|log| - 1].Healthy? then 0 else 1 + TrailingFailures(log[..|log| - 1])
  }

  /** Every failure of the loop slept, or raised, as the failures in a row before it called for. */
  ghost predicate BackoffLog(c: Config, log: seq<Mark>) {
    log != [] ==>
      var front, last := log[..|log| - 1], log[|log| - 1];
      && BackoffLog(c, front)
      && (!last.Healthy? ==> last == FailureMark(c, TrailingFailures(front), last.draw))
  }

  ghost predicate Inv(c: Config, s: State) {
    && s.loopFailures == TrailingFailures(s.log)
    && s.connectionsOpened == s.connectionsClosed + s.uncounted + s.lost + s.closeRaised + (if s.conn.IsOpen() then 1 else 0)
    && (s.stopMe <==> !s.stopper.Idle?)
    && (s.pc.Polling? || s.pc.Calling? ==> !s.conn.IsOpen())
    && (s.pc.Done? ==> s.stopMe)
    && (s.closing ==> s.stopper.Finished?)
    && (s.pc.Crashed? ==> s.log != [] && s.log[|s.log| - 1].Raised? && !s.conn.IsOpen())
  }

  ghost predicate InvLogged(c: Config, s: State) {
    Inv(c, s) && BackoffLog(c, s.log)
  }

  lemma LogAppend(c: Config, log: seq<Mark>, mark: Mark)
    requires BackoffLog(c, log)
    requires !mark.Healthy? ==> mark == FailureMark(c, TrailingFailures(log), mark.draw)
    ensures BackoffLog(c, log + [mark])
    ensures TrailingFailures(log + [mark]) == if mark.Healthy? then 0 else TrailingFailures(log) + 1
  {
    assert (log + [mark])[..|log + [mark]| - 1] == log;
  }

  lemma InvKept(c: Config, s: State, e: Input)
    requires InvLogged(c, s)
    ensures InvLogged(c, Step(c, s, e))
  {
    hide BackoffLog, TrailingFailures, DelayForAttempt, BackoffRaises, GivesUp, PumpStep, FailStep;
    if e.Go? && s.pc.Pumping? {
      PumpKeeps(c, s, e.answer);
    } else if e.Go? && s.pc.PumpFailing? {
      FailKeeps(c, s, e.answer, Failing);
    } else if e.Go? && s.pc.Failing? {
      FailKeeps(c, s, e.answer, Crashed);
    } else if e.Go? {
      QuietKeeps(c, s, e.answer);
    }
  }

  lemma QuietKeeps(c: Config, s: State, a: Answer)
    requires InvLogged(c, s) && !s.pc.Pumping? && !s.pc.PumpFailing? && !s.pc.Failing?
    ensures InvLogged(c, IoStep(c, s, a))
  {
    hide BackoffLog, TrailingFailures, DelayForAttempt, BackoffRaises, GivesUp, PumpStep, FailStep;
  }

  lemma PumpKeeps(c: Config, s: State, a: Answer)
    requires InvLogged(c, s) && s.pc.Pumping?
    ensures InvLogged(c, PumpStep(s, a))
  {
    hide BackoffLog, TrailingFailures;
    LogAppend(c, s.log, Healthy);
  }

  lemma FailKeeps(c: Config, s: State, a: Answer, next: Pc)
    requires InvLogged(c, s) && (s.pc.PumpFailing? || s.pc.Failing?) && (next.Failing? || next.Crashed?)
    ensures InvLogged(c, FailStep(c, s, a, next))
  {
    hide BackoffLog, TrailingFailures, DelayForAttempt, BackoffRaises;
    LogAppend(c, s.log, FailureMark(c, s.loopFailures, a.draw));
  }

  function Run(c: Config, tape: seq<Input>): State {
    After(c, Init(), tape)
  }

  lemma {:induction false} RunsKeepInv(c: Config, tape: seq<Input>)
    ensures InvLogged(c, Run(c, tape))
  {
    if tape != [] {
      hide Step, InvLogged;
      RunsKeepInv(c, tape[..|tape| - 1]);
      InvKept(c, Run(c, tape[..|tape| - 1]), tape[|tape| - 1]);
    }
  }

  lemma {:induction false} BackoffLogAt(c: Config, log: seq<Mark>, i: nat)
    requires BackoffLog(c, log) && i < |log| && !log[i].Healthy?
    ensures log[i] == FailureMark(c, TrailingFailures(log[..i]), log[i].draw)
  {
    var front := log[..|log| - 1];
    if i < |front| {
      BackoffLogAt(c, front, i);
      assert front[..i] == log[..i];
    }
  }

  /**
   In every run connections add up, and the loop's k-th failure in a row sleeps the delay of attempt k+1,
   or raises exactly when that delay or sleep does.
   */
  lemma LoopAccounts(c: Config, tape: seq<Input>)
    ensures var s := Run(c, tape);
            && s.connectionsOpened == s.connectionsClosed + s.uncounted + s.lost + s.closeRaised
                                      + (if s.conn.IsOpen() then 1 else 0)
            && s.loopFailures == TrailingFailures(s.log)
            && forall i :: 0 <= i < |s.log| && !s.log[i].Healthy? ==>
                 var k := TrailingFailures(s.log[..i]) + 1;
                 && (s.log[i].Raised? <==> BackoffRaises(c.loop, true, k + 1, s.log[i].draw))
                 && (s.log[i].BackedOff? ==> s.log[i].delay == DelayForAttempt(c.loop, k + 1, s.log[i].draw) >= 0.0)
  {
    RunsKeepInv(c, tape);
    var s := Run(c, tape);
    forall i | 0 <= i < |s.log| && !s.log[i].Healthy?
      ensures s.log[i] == FailureMark(c, TrailingFailures(s.log[..i]), s.log[i].draw)
    {
      BackoffLogAt(c, s.log, i);
    }
  }

  // ---------------------------------------------------------------- connecting

  /** What these answers of the factory are to the connect retry. */
  function ConnectScript(answers: seq<Answer>): (r: seq<Turn<(), ()>>)
    ensures |r| == |answers|
    ensures forall i :: 0 <= i < |r| ==>
              r[i] == Turn(false, if answers[i].ok then Returns(()) else Raises(()), answers[i].draw)
  {
    seq(|answers|, i requires 0 <= i < |answers| => Turn(false, if answers[i].ok then Returns(()) else Raises(()), answers[i].draw))
  }

  /** The thread polls its flag and calls, once for each answer. */
  function ConnectTape(answers: seq<Answer>): seq<Input> {
    if answers == [] then []
    else ConnectTape(answers[..|answers| - 1]) + [Go(answers[|answers| - 1])] + [Go(answers[|answers| - 1])]
  }

  lemma AfterSnoc(c: Config, s: State, tape: seq<Input>, e: Input)
    ensures After(c, s, tape + [e]) == Step(c, After(c, s, tape), e)
  {
    assert (tape + [e])[..|tape|] == tape;
  }

  /** A turn of the connect retry that is not stopped. */
  lemma ConnectTurn(c: Config, s: State, a: Answer)
    requires s.pc.Polling? && !s.stopMe && s.attempt >= 1
    ensures var r := Step(c, Step(c, s, Go(a)), Go(a));
            && !r.stopMe && r.factoryCalls == s.factoryCalls + 1
            && (a.ok ==> r.pc.SettingUp? && r.conn == Conn(true) && r.connectionsOpened == s.connectionsOpened + 1)
            && (!a.ok ==> r.conn == s.conn && r.connectionsOpened == s.connectionsOpened)
            && (!a.ok && (GivesUp(c.connect, s.attempt) || BackoffRaises(c.connect, true, s.attempt + 1, a.draw)) ==> r.pc.Failing?)
            && (!a.ok && !GivesUp(c.connect, s.attempt) && !BackoffRaises(c.connect, true, s.attempt + 1, a.draw) ==>
                  r.pc.Polling? && r.attempt == s.attempt + 1)
  {
    hide BackoffRaises, GivesUp;
  }

  lemma {:induction false} ConnectsAlong(c: Config, s: State, answers: seq<Answer>)
    requires s.pc.Polling? && !s.stopMe && s.attempt == 1
    requires forall j :: 0 <= j < |answers| ==> !Ends(c.connect, Sync(true), ConnectScript(answers)[j], j)
    ensures var r := After(c, s, ConnectTape(answers));
            && r.pc.Polling? && !r.stopMe && r.attempt == |answers| + 1
            && r.factoryCalls == s.factoryCalls + |answers| && r.connectionsOpened == s.connectionsOpened
  {
    if answers != [] {
      var k := |answers| - 1;
      var front, e := answers[..k], Go(answers[k]);
      assert forall j :: 0 <= j < k ==> ConnectScript(front)[j] == ConnectScript(answers)[j];
      assert !Ends(c.connect, Sync(true), ConnectScript(answers)[k], k);
      ConnectsAlong(c, s, front);
      AfterSnoc(c, s, ConnectTape(front), e);
      AfterSnoc(c, s, ConnectTape(front) + [e], e);
      hide Step, After, BackoffRaises, GivesUp;
      ConnectTurn(c, After(c, s, ConnectTape(front)), answers[k]);
    }
  }

  /**
   A connect that is not stopped is `sync_retry` with the connect policy: whatever the factory answers, it
   is called exactly as often, and the thread comes to set up its channel exactly if a call succeeds, and
   to its failure handler exactly if the retry raises.
   */
  lemma ConnectIsSyncRetry(c: Config, s: State, answers: seq<Answer>)
    requires s.pc.Polling? && !s.stopMe && s.attempt == 1
    ensures var log := Retried(c.connect, Sync(true), ConnectScript(answers));
            var r := After(c, s, ConnectTape(answers[..log.calls]));
            && r.factoryCalls == s.factoryCalls + log.calls
            && r.pc == (match log.verdict
                        case Returned(_) => SettingUp
                        case Running => Polling
                        case _ => Failing)
            && r.connectionsOpened == s.connectionsOpened + (if log.verdict.Returned? then 1 else 0)
  {
    hide Step, After, BackoffRaises, GivesUp, Sleeps;
    var script := ConnectScript(answers);
    var k := FirstEnd(c.connect, Sync(true), script);
    var front := answers[..k];
    assert forall j :: 0 <= j < k ==> ConnectScript(front)[j] == script[j];
    ConnectsAlong(c, s, front);
    if k == |answers| {
      assert answers[..k] == answers;
    } else {
      var e, log := Go(answers[k]), Retried(c.connect, Sync(true), script);
      assert log.calls == k + 1 && answers[..k + 1][..k] == front;
      assert Ends(c.connect, Sync(true), script[k], k);
      LastTurn(c, s, front, answers[k]);
      assert ConnectTape(answers[..k + 1]) == ConnectTape(front) + [e] + [e];
    }
  }

  /** The turn after these, none of which ended the retry. */
  lemma LastTurn(c: Config, s: State, front: seq<Answer>, a: Answer)
    requires s.pc.Polling? && !s.stopMe && s.attempt == 1
    requires forall j :: 0 <= j < |front| ==> !Ends(c.connect, Sync(true), ConnectScript(front)[j], j)
    ensures var r, k := After(c, s, ConnectTape(front) + [Go(a)] + [Go(a)]), |front|;
            && r.factoryCalls == s.factoryCalls + k + 1
            && r.connectionsOpened == s.connectionsOpened + (if a.ok then 1 else 0)
            && (a.ok ==> r.pc.SettingUp?)
            && (!a.ok && (GivesUp(c.connect, k + 1) || BackoffRaises(c.connect, true, k + 2, a.draw)) ==> r.pc.Failing?)
  {
    ConnectsAlong(c, s, front);
    AfterSnoc(c, s, ConnectTape(front), Go(a));
    AfterSnoc(c, s, ConnectTape(front) + [Go(a)], Go(a));
    hide Step, After, BackoffRaises, GivesUp, Ends, ConnectTape;
    ConnectTurn(c, After(c, s, ConnectTape(front)), a);
  }

  // ---------------------------------------------------------------- single steps

  /** A head that is not stopped goes on with an open connection, or to a connect of its own. */
  lemma HeadExact(c: Config, s: State, a: Answer)
    requires s.pc.AtHead?
    ensures var r := Step(c, s, Go(a));
            if s.stopMe then r == s.(pc := Done)
            else if s.conn == Conn(true) then r == s.(pc := SettingUp)
            else r == s.(pc := Polling, attempt := 1)
  {
  }

  /** A pump that returns forgets the failures before it; one that raises fails; neither loses the connection by itself. */
  lemma PumpExact(c: Config, s: State, a: Answer)
    requires s.pc.Pumping?
    ensures var r := Step(c, s, Go(a));
            && r.pumps == s.pumps + 1
            && (if a.ok then r.pc.AtHead? && r.loopFailures == 0 && r.log == s.log + [Healthy]
                else r.pc.PumpFailing? && r.loopFailures == s.loopFailures && r.log == s.log)
            && (s.closing && a.ran && s.conn == Conn(true) && a.closeOk ==>
                  r.conn == Conn(false) && r.connectionsClosed == s.connectionsClosed + 1)
            && (!(s.closing && a.ran && s.conn == Conn(true) && a.closeOk) ==>
                  r.conn == s.conn && r.connectionsClosed == s.connectionsClosed)
            && (r.closing <==> s.closing && !a.ran)
  {
  }

  /** A failure that is not stopped closes what is open, counts the close exactly if it does not raise, and forgets it. */
  lemma FailureExact(c: Config, s: State, a: Answer)
    requires (s.pc.PumpFailing? || s.pc.Failing?) && !s.stopMe
    ensures var r := Step(c, s, Go(a));
            && r.conn == NoConn && !r.closing && r.loopFailures == s.loopFailures + 1 && |r.log| == |s.log| + 1
            && r.connectionsClosed == s.connectionsClosed + (if s.conn == Conn(true) && a.closeOk then 1 else 0)
            && r.closeRaised == s.closeRaised + (if s.conn == Conn(true) && !a.closeOk then 1 else 0)
  {
    hide BackoffRaises, DelayForAttempt;
  }

  /** A setup leads to the pump or fails; a flag is set once; a connection is lost only if open; a direct close is not counted. */
  lemma OthersExact(c: Config, s: State, a: Answer, enqueued: bool, closeOk: bool)
    ensures s.pc.SettingUp? ==> Step(c, s, Go(a)) == s.(pc := if a.ok then Pumping else Failing)
    ensures Step(c, s, SetFlag) == if s.stopper.Idle? then s.(stopMe := true, stopper := FlagSet) else s
    ensures Step(c, s, Drop) == if s.conn == Conn(true) then s.(conn := Conn(false), lost := s.lost + 1) else s
    ensures s.stopper.FlagSet? ==>
              Step(c, s, RequestClose(enqueued, closeOk)) ==
              if s.conn != Conn(true) then s.(stopper := Finished)
              else if enqueued then s.(stopper := Finished, closing := true)
              else if closeOk then s.(stopper := Finished, conn := Conn(false), uncounted := s.uncounted + 1)
              else s.(stopper := Finished)
    ensures !s.stopper.FlagSet? ==> Step(c, s, RequestClose(enqueued, closeOk)) == s
  {
  }

  // ---------------------------------------------------------------- living on

  predicate NoStop(tape: seq<Input>) {
    forall i :: 0 <= i < |tape| ==> !tape[i].SetFlag?
  }

  lemma {:induction false} NeverFlagged(c: Config, s: State, tape: seq<Input>)
    requires NoStop(tape) && !s.stopMe
    ensures !After(c, s, tape).stopMe
  {
    if tape != [] {
      hide Step;
      NeverFlagged(c, s, tape[..|tape| - 1]);
      FlagStep(c, After(c, s, tape[..|tape| - 1]), tape[|tape| - 1]);
    }
  }

  lemma FlagStep(c: Config, s: State, e: Input)
    requires !s.stopMe && !e.SetFlag?
    ensures !Step(c, s, e).stopMe
  {
    hide BackoffRaises, DelayForAttempt, GivesUp;
  }

  lemma {:induction false} AfterConcat(c: Config, s: State, a: seq<Input>, b: seq<Input>)
    ensures After(c, s, a + b) == After(c, After(c, s, a), b)
  {
    if b == [] {
      assert a + b == a;
    } else {
      AfterConcat(c, s, a, b[..|b| - 1]);
      assert (a + b)[..|a + b| - 1] == a + b[..|b| - 1];
    }
  }

  const FINE := Go(Answer(true, true, true, 0.0))
  const FAIL := Go(Answer(false, false, true, 0.0))

  /** An iteration that connects and cannot set its channel up. */
  const REFUSAL := [FINE, FINE, FINE, FAIL, FINE]

  /** Five inputs, one by one. */
  lemma AfterFive(c: Config, s: State, a: Input, b: Input, d: Input, e: Input, f: Input)
    ensures After(c, s, [a, b, d, e, f]) == Step(c, Step(c, Step(c, Step(c, Step(c, s, a), b), d), e), f)
  {
    hide Step;
    assert [a, b, d, e, f][..4] == [a, b, d, e] && [a, b, d, e][..3] == [a, b, d];
    assert [a, b, d][..2] == [a, b] && [a, b][..1] == [a] && [a][..0] == [];
    assert After(c, s, [a]) == Step(c, s, a);
    assert After(c, s, [a, b]) == Step(c, Step(c, s, a), b);
    assert After(c, s, [a, b, d]) == Step(c, Step(c, Step(c, s, a), b), d);
  }

  ghost predicate Failed(s: State, failures: nat) {
    s.pc.AtHead? && !s.stopMe && !s.conn.IsOpen() && s.loopFailures == failures
  }

  lemma OneRefusal(c: Config, s: State, failures: nat)
    requires Failed(s, failures)
    ensures var t := After(c, s, REFUSAL);
            if BackoffRaises(c.loop, true, failures + 2, 0.0) then t.pc.Crashed? else Failed(t, failures + 1)
  {
    AfterFive(c, s, FINE, FINE, FINE, FAIL, FINE);
    hide After, BackoffRaises, DelayForAttempt, GivesUp, PumpStep;
  }

  lemma RefusalIsNoStop()
    ensures NoStop(REFUSAL)
  {
  }

  lemma NoStopConcat(a: seq<Input>, b: seq<Input>)
    requires NoStop(a) && NoStop(b)
    ensures NoStop(a + b)
  {
  }

  lemma {:induction false} DiesFailing(c: Config, s: State, failures: nat, n: nat) returns (tape: seq<Input>)
    requires Failed(s, failures) && failures <= n && BackoffRaises(c.loop, true, n + 2, 0.0)
    ensures NoStop(tape) && After(c, s, tape).pc.Crashed?
    decreases n - failures
  {
    OneRefusal(c, s, failures);
    RefusalIsNoStop();
    hide *;
    tape := REFUSAL;
    if !BackoffRaises(c.loop, true, failures + 2, 0.0) {
      var rest := DiesFailing(c, After(c, s, REFUSAL), failures + 1, n);
      AfterConcat(c, s, REFUSAL, rest);
      NoStopConcat(REFUSAL, rest);
      tape := REFUSAL + rest;
    }
  }

  /** A listener that is never stopped runs for ever, whatever happens, if and only if the loop's backoffs never raise. */
  lemma NeverStoppedNeverDies(c: Config)
    ensures (forall tape | NoStop(tape) :: !Run(c, tape).pc.Done? && !Run(c, tape).pc.Crashed?)
       <==> AlwaysSafe(c.loop, true)
  {
    hide AlwaysSafe, BackoffRaises;
    if AlwaysSafe(c.loop, true) {
      forall tape | NoStop(tape)
        ensures !Run(c, tape).pc.Done? && !Run(c, tape).pc.Crashed?
      {
        NeverFlagged(c, Init(), tape);
        RunsKeepInv(c, tape);
        NoneRaised(c, tape);
      }
    } else {
      var n := SomeBackoffRaises(c.loop, true);
      var tape := DiesFailing(c, Init(), 0, n);
      assert After(c, Init(), tape) == Run(c, tape);
    }
  }

  lemma NoneRaised(c: Config, tape: seq<Input>)
    requires AlwaysSafe(c.loop, true)
    ensures forall i :: 0 <= i < |Run(c, tape).log| ==> !Run(c, tape).log[i].Raised?
  {
    var log := Run(c, tape).log;
    RunsKeepInv(c, tape);
    forall i | 0 <= i < |log|
      ensures !log[i].Raised?
    {
      if !log[i].Healthy? {
        BackoffLogAt(c, log, i);
        AlwaysSafeNeverRaises(c.loop, true, TrailingFailures(log[..i]) + 2, log[i].draw);
      }
    }
  }

  // ---------------------------------------------------------------- stopping

  /** The most steps the thread takes from here once the stop flag is set. */
  function StepsLeft(pc: Pc): nat {
    match pc
    case Calling => 5
    case SettingUp => 4
    case Polling => 3
    case Pumping => 3
    case PumpFailing => 2
    case Failing => 2
    case AtHead => 1
    case Done => 0
    case Crashed => 0
  }

  function CallsLeft(pc: Pc): nat {
    if pc.Calling? then 1 else 0
  }

  function PumpsLeft(pc: Pc): nat {
    if pc.Calling? || pc.SettingUp? || pc.Pumping? then 1 else 0
  }

  function Backoffs(log: seq<Mark>): nat {
    if log == [] then 0 else Backoffs(log[..|log| - 1]) + (if log[|log| - 1].Healthy? then 0 else 1)
  }

  predicate Ended(pc: Pc) {
    pc.Done? || pc.Crashed?
  }

  /** The number of steps of the listener thread on a tape. */
  function Goes(tape: seq<Input>): nat {
    if tape == [] then 0 else Goes(tape[..|tape| - 1]) + (if tape[|tape| - 1].Go? then 1 else 0)
  }

  lemma StoppedStep(c: Config, s: State, e: Input)
    requires s.stopMe
    ensures var r := Step(c, s, e);
            && r.stopMe
            && (e.Go? && !Ended(s.pc) ==> StepsLeft(r.pc) < StepsLeft(s.pc))
            && (!e.Go? || Ended(s.pc) ==> r.pc == s.pc)
            && r.factoryCalls + CallsLeft(r.pc) <= s.factoryCalls + CallsLeft(s.pc)
            && r.pumps + PumpsLeft(r.pc) <= s.pumps + PumpsLeft(s.pc)
            && Backoffs(r.log) == Backoffs(s.log)
  {
    hide GivesUp, BackoffRaises, DelayForAttempt;
    assert (s.log + [Healthy])[..|s.log|] == s.log;
  }

  /**
   Once the stop flag is set the thread ends within five of its own steps, whatever they meet and whoever
   runs in between, calling the factory and pumping at most once more and never backing off in the loop.
   */
  lemma {:induction false} StopsWithinFiveSteps(c: Config, s: State, tape: seq<Input>)
    requires s.stopMe
    ensures var r := After(c, s, tape);
            && r.stopMe
            && (Ended(r.pc) || StepsLeft(r.pc) + Goes(tape) <= StepsLeft(s.pc))
            && (Goes(tape) >= 5 ==> Ended(r.pc))
            && r.factoryCalls + CallsLeft(r.pc) <= s.factoryCalls + CallsLeft(s.pc)
            && r.pumps + PumpsLeft(r.pc) <= s.pumps + PumpsLeft(s.pc)
            && Backoffs(r.log) == Backoffs(s.log)
  {
    if tape != [] {
      hide Step;
      StopsWithinFiveSteps(c, s, tape[..|tape| - 1]);
      StoppedStep(c, After(c, s, tape[..|tape| - 1]), tape[|tape| - 1]);
    }
  }

  /** The answers of the thread's own calls on a tape, in order. */
  function Own(tape: seq<Input>): seq<Answer> {
    if tape == [] then [] else (if tape[0].Go? then [tape[0].answer] else []) + Own(tape[1..])
  }

  /** The first k calls succeed. */
  predicate Succeed(own: seq<Answer>, k: nat) {
    k <= |own| && forall i :: 0 <= i < k ==> own[i].ok
  }

  /** How many calls of the iteration are ahead up to and with the pump, on a connection that is open. */
  function ToPump(pc: Pc): nat {
    if pc.SettingUp? then 2 else if pc.Pumping? then 1 else 0
  }

  /** The pump ahead is reached, runs the request that waits, and the close succeeds. */
  predicate RunsClose(pc: Pc, own: seq<Answer>) {
    var k := ToPump(pc);
    1 <= k <= |own| && Succeed(own, k - 1) && own[k - 1].ran && own[k - 1].closeOk
  }

  /**
   Whether `stop_listening`, coming to close in this state, sees to it that the thread ends without an open
   connection, given how that request and the thread's own calls are answered.
   */
  predicate Closes(s: State, enqueued: bool, closeOk: bool, own: seq<Answer>) {
    if !s.conn.IsOpen() then !(s.pc.Calling? && Succeed(own, 1))
    else if enqueued then RunsClose(s.pc, own)
    else closeOk
  }

  /** A stopped thread that is not disturbed ends with a connection open. */
  predicate StaysOpen(s: State, own: seq<Answer>) {
    if s.conn.IsOpen() then !(s.closing && RunsClose(s.pc, own)) else s.pc.Calling? && Succeed(own, 1)
  }

  lemma {:induction false} AfterCons(c: Config, s: State, e: Input, rest: seq<Input>)
    ensures After(c, s, [e] + rest) == After(c, Step(c, s, e), rest)
  {
    AfterConcat(c, s, [e], rest);
    assert [e][..0] == [];
    assert After(c, s, [e]) == Step(c, s, e);
  }

  lemma SucceedCons(a: Answer, own: seq<Answer>, k: nat)
    requires k >= 1
    ensures Succeed([a] + own, k) <==> a.ok && Succeed(own, k - 1)
  {
    if Succeed([a] + own, k) {
      assert ([a] + own)[0] == a;
      forall i | 0 <= i < k - 1
        ensures own[i].ok
      {
        assert ([a] + own)[i + 1] == own[i];
      }
    } else if a.ok && Succeed(own, k - 1) {
      forall i | 0 <= i < k
        ensures ([a] + own)[i].ok
      {
        assert i > 0 ==> ([a] + own)[i] == own[i - 1];
      }
    }
  }

  lemma GoKeepsOutlook(c: Config, s: State, a: Answer, own: seq<Answer>)
    requires s.stopMe && s.stopper.Finished? && Inv(c, s)
    ensures var r := Step(c, s, Go(a));
            && r.stopMe && r.stopper.Finished? && r.lost == s.lost
            && (!Ended(s.pc) ==> (StaysOpen(s, [a] + own) <==> StaysOpen(r, own)))
            && (Ended(s.pc) ==> r == s)
  {
    hide GivesUp, BackoffRaises, DelayForAttempt, TrailingFailures, Succeed;
    SucceedCons(a, own, 1);
    assert ([a] + own)[0] == a;
    assert own != [] ==> ([a] + own)[1] == own[0];
    assert forall o: seq<Answer> :: Succeed(o, 0) by {
      NoneNeeded();
    }
  }

  lemma NoneNeeded()
    ensures forall o: seq<Answer> :: Succeed(o, 0)
  {
  }

  lemma OtherKeepsOutlook(c: Config, s: State, e: Input, own: seq<Answer>)
    requires s.stopMe && s.stopper.Finished? && Inv(c, s) && !e.Go?
    ensures var r := Step(c, s, e);
            && r.stopMe && r.stopper.Finished? && r.pc == s.pc
            && (r.lost == s.lost ==> r == s)
            && (r.lost != s.lost ==> r.lost == s.lost + 1 && !r.conn.IsOpen() && !StaysOpen(r, own))
  {
    hide TrailingFailures, Succeed;
  }

  /** Nothing opens any more. */
  lemma {:induction false} EndsAsForeseen(c: Config, s: State, tape: seq<Input>)
    requires s.stopMe && s.stopper.Finished? && InvLogged(c, s) && Ended(After(c, s, tape).pc)
    ensures var r := After(c, s, tape);
            && r.lost >= s.lost
            && (r.conn.IsOpen() ==> StaysOpen(s, Own(tape)))
            && (StaysOpen(s, Own(tape)) ==> (r.conn.IsOpen() <==> r.lost == s.lost))
    decreases |tape|
  {
    if tape == [] {
      assert Own(tape) == [];
    } else {
      var e, rest := tape[0], tape[1..];
      assert tape == [e] + rest;
      AfterCons(c, s, e, rest);
      InvKept(c, s, e);
      if e.Go? {
        GoKeepsOutlook(c, s, e.answer, Own(rest));
      } else {
        OtherKeepsOutlook(c, s, e, Own(rest));
      }
      hide Step, StaysOpen, InvLogged;
      assert Own(tape) == if e.Go? then [e.answer] + Own(rest) else Own(rest);
      if Ended(s.pc) {
        EndedStaysOpen(s, Own(tape), Own(rest));
      }
      EndsAsForeseen(c, Step(c, s, e), rest);
    }
  }

  lemma EndedStaysOpen(s: State, a: seq<Answer>, b: seq<Answer>)
    requires Ended(s.pc)
    ensures StaysOpen(s, a) == StaysOpen(s, b)
  {
  }

  lemma RequestOutlook(c: Config, s: State, enqueued: bool, closeOk: bool, own: seq<Answer>)
    requires Inv(c, s) && s.stopper.FlagSet?
    ensures var r := Step(c, s, RequestClose(enqueued, closeOk));
            && r.stopMe && r.stopper.Finished? && r.lost == s.lost
            && (StaysOpen(r, own) <==> !Closes(s, enqueued, closeOk, own))
  {
    hide TrailingFailures, Succeed;
  }

  /**
   On every tape after `stop_listening` has come to close, with any faults and drops: once the thread has
   ended, its connection is not open exactly when the close was made directly, or was enqueued in time for
   a pump that was reached, ran it, and could close; or there was none open and the connect under way,
   if any, failed; or the connection was lost.  Otherwise it is left open for good.
   */
  lemma ClosedAtEndIff(c: Config, s: State, enqueued: bool, closeOk: bool, tape: seq<Input>)
    requires InvLogged(c, s) && s.stopper.FlagSet?
    requires Ended(After(c, Step(c, s, RequestClose(enqueued, closeOk)), tape).pc)
    ensures var r := After(c, Step(c, s, RequestClose(enqueued, closeOk)), tape);
            !r.conn.IsOpen() <==> Closes(s, enqueued, closeOk, Own(tape)) || r.lost > s.lost
  {
    RequestOutlook(c, s, enqueued, closeOk, Own(tape));
    InvKept(c, s, RequestClose(enqueued, closeOk));
    EndsAsForeseen(c, Step(c, s, RequestClose(enqueued, closeOk)), tape);
  }

  /** Asked too late for a pump, an open connection stays open, whatever else happens, unless it is lost. */
  lemma OpenIfLate(c: Config, s: State, closeOk: bool, tape: seq<Input>)
    requires InvLogged(c, s) && s.stopper.FlagSet?
    requires Ended(After(c, Step(c, s, RequestClose(true, closeOk)), tape).pc)
    requires s.conn.IsOpen() && ToPump(s.pc) == 0
    ensures var r := After(c, Step(c, s, RequestClose(true, closeOk)), tape);
            r.conn.IsOpen() <==> r.lost == s.lost
  {
    ClosedAtEndIff(c, s, true, closeOk, tape);
    LostOnlyGrows(c, s, closeOk, tape);
  }

  /** Asked in time, with none of the thread's own calls failing and a pump that still runs it, the close is made. */
  lemma ClosedIfInTime(c: Config, s: State, tape: seq<Input>)
    requires InvLogged(c, s) && s.stopper.FlagSet?
    requires Ended(After(c, Step(c, s, RequestClose(true, true)), tape).pc)
    requires s.conn.IsOpen() && ToPump(s.pc) > 0
    requires forall i :: 0 <= i < |Own(tape)| ==> Own(tape)[i].ok
    requires ToPump(s.pc) <= |Own(tape)| ==> Own(tape)[ToPump(s.pc) - 1].ran && Own(tape)[ToPump(s.pc) - 1].closeOk
    ensures !After(c, Step(c, s, RequestClose(true, true)), tape).conn.IsOpen()
  {
    ClosedAtEndIff(c, s, true, true, tape);
    var r := Step(c, s, RequestClose(true, true));
    TakesItsSteps(c, r, tape);
  }

  /** From the setup or the pump the thread does not end before the pump has been answered. */
  lemma {:induction false} TakesItsSteps(c: Config, s: State, tape: seq<Input>)
    requires s.stopMe && Ended(After(c, s, tape).pc)
    requires forall i :: 0 <= i < |Own(tape)| ==> Own(tape)[i].ok
    ensures |Own(tape)| >= ToPump(s.pc)
    decreases |tape|
  {
    if tape != [] {
      var e, rest := tape[0], tape[1..];
      assert tape == [e] + rest;
      AfterCons(c, s, e, rest);
      OneStepNearer(c, s, e);
      hide Step, ToPump;
      assert Own(tape) == (if e.Go? then [e.answer] else []) + Own(rest);
      assert e.Go? ==> Own(tape)[0] == e.answer;
      forall i | 0 <= i < |Own(rest)|
        ensures Own(rest)[i].ok
      {
        assert Own(rest)[i] == Own(tape)[if e.Go? then i + 1 else i];
      }
      TakesItsSteps(c, Step(c, s, e), rest);
    }
  }

  lemma OneStepNearer(c: Config, s: State, e: Input)
    requires s.stopMe
    ensures var r := Step(c, s, e);
            && r.stopMe
            && (!e.Go? ==> r.pc == s.pc)
            && (e.Go? && e.answer.ok ==> ToPump(r.pc) + 1 >= ToPump(s.pc))
  {
    hide GivesUp, BackoffRaises, DelayForAttempt;
  }

  /** A stop that comes while the first connect is under way leaves the connection open. */
  lemma StopCanLeaveOpen(c: Config)
    ensures var s := Run(c, [FINE, FINE, SetFlag]);
            && s.stopper.FlagSet? && s.pc.Calling?
            && forall tape :: Ended(After(c, Step(c, s, RequestClose(true, true)), tape).pc) && Succeed(Own(tape), 1) ==>
                 var r := After(c, Step(c, s, RequestClose(true, true)), tape);
                 r.conn.IsOpen() <==> r.lost == s.lost
  {
    var t := [FINE, FINE, SetFlag];
    assert t[..2] == [FINE, FINE] && [FINE, FINE][..1] == [FINE] && [FINE][..0] == [];
    assert After(c, Init(), []) == Init();
    assert After(c, Init(), [FINE]) == Step(c, Init(), FINE);
    assert After(c, Init(), [FINE, FINE]).pc.Calling?;
    RunsKeepInv(c, t);
    var s := Run(c, t);
    forall tape | Ended(After(c, Step(c, s, RequestClose(true, true)), tape).pc) && Succeed(Own(tape), 1)
      ensures var r := After(c, Step(c, s, RequestClose(true, true)), tape);
              r.conn.IsOpen() <==> r.lost == s.lost
    {
      LostOnlyGrows(c, s, true, tape);
      ClosedAtEndIff(c, s, true, true, tape);
    }
  }

  lemma LostOnlyGrows(c: Config, s: State, closeOk: bool, tape: seq<Input>)
    requires InvLogged(c, s) && s.stopper.FlagSet?
    requires Ended(After(c, Step(c, s, RequestClose(true, closeOk)), tape).pc)
    ensures After(c, Step(c, s, RequestClose(true, closeOk)), tape).lost >= s.lost
  {
    RequestOutlook(c, s, true, closeOk, []);
    InvKept(c, s, RequestClose(true, closeOk));
    EndsAsForeseen(c, Step(c, s, RequestClose(true, closeOk)), tape);
  }

  /** So does one that is enqueued in time for a pump that raises before it runs it: stopping, its handler does nothing. */
  lemma FailingPumpLeavesOpen(c: Config, s: State)
    requires InvLogged(c, s) && s.stopper.FlagSet? && s.pc.Pumping? && s.conn.IsOpen()
    ensures var r := After(c, Step(c, s, RequestClose(true, true)), [FAIL, FINE, FINE]);
            r.pc.Done? && r.conn.IsOpen() && r.closing
  {
    var r := Step(c, s, RequestClose(true, true));
    assert [FAIL, FINE, FINE][..2] == [FAIL, FINE] && [FAIL, FINE][..1] == [FAIL] && [FAIL][..0] == [];
    assert After(c, r, [FAIL]) == Step(c, r, FAIL);
    assert After(c, r, [FAIL, FINE]) == Step(c, Step(c, r, FAIL), FINE);
    hide GivesUp, BackoffRaises, DelayForAttempt, TrailingFailures;
  }

  /**
   Nor is it run if it is enqueued while the pump's own turn of callbacks is over, as it is when the stop
   comes from, or during, a message callback: the pump returns, the loop sees the flag, and the thread ends
   without a fault and with the connection open.
   */
  lemma StopInsideCallbackLeavesOpen(c: Config, s: State, closeOk: bool, draw: real)
    requires InvLogged(c, s) && s.stopper.FlagSet? && s.pc.Pumping? && s.conn.IsOpen()
    ensures var r := After(c, Step(c, s, RequestClose(true, true)), [Go(Answer(true, false, closeOk, draw)), FINE]);
            r.pc.Done? && r.conn.IsOpen() && r.closing
  {
    var r := Step(c, s, RequestClose(true, true));
    var e := Go(Answer(true, false, closeOk, draw));
    assert [e, FINE][..1] == [e] && [e][..0] == [];
    assert After(c, r, [e]) == Step(c, r, e);
    hide GivesUp, BackoffRaises, DelayForAttempt, TrailingFailures;
  }

  /** A first iteration without faults comes to either case. */
  lemma PumpCaseReached(c: Config)
    ensures var s := Run(c, [FINE, FINE, FINE, FINE, SetFlag]);
            InvLogged(c, s) && s.stopper.FlagSet? && s.pc.Pumping? && s.conn.IsOpen()
  {
    RunsKeepInv(c, [FINE, FINE, FINE, FINE, SetFlag]);
    AfterFive(c, Init(), FINE, FINE, FINE, FINE, SetFlag);
    hide After, InvLogged, BackoffRaises, DelayForAttempt, GivesUp, PumpStep, FailStep;
  }

  // ---------------------------------------------------------------- the listener

  /** How a part of an iteration ended; `Cut` when the tape ended first. */
  datatype Outcome = Completed | Threw | Cut

  /** The listener's variables; `pc` and what has happened are for the record. */
  class Listener {
    const config: Config
    var stopMe: bool
    var stopper: Stopper
    var conn: Conn
    var closing: bool
    var loopFailures: nat
    var connectionsOpened: nat
    var connectionsClosed: nat
    var attempt: nat
    ghost var pc: Pc
    ghost var past: State

    ghost function View(): State
      reads this
    {
      past.(pc := pc, stopMe := stopMe, stopper := stopper, conn := conn, closing := closing, attempt := attempt,
            loopFailures := loopFailures, connectionsOpened := connectionsOpened, connectionsClosed := connectionsClosed)
    }

    ghost predicate At(v: State, tape: seq<Input>, i: nat)
      reads this
    {
      i <= |tape| && View() == After(config, v, tape[..i])
    }

    constructor (config: Config)
      ensures this.config == config && View() == Init()
    {
      this.config := config;
      stopMe, stopper, conn, closing, attempt := false, Idle, NoConn, false, 1;
      loopFailures, connectionsOpened, connectionsClosed := 0, 0, 0;
      pc, past := AtHead, Init();
    }

    /** The first half of `stop_listening`. */
    method SetStopFlag()
      modifies this
      ensures View() == Step(config, old(View()), SetFlag) && pc == old(pc)
    {
      if stopper == Idle {
        stopMe, stopper := true, FlagSet;
      }
    }

    /** The second half: the close is handed to the I/O thread, or made directly and then not counted. */
    method AskForClose(enqueued: bool, closeOk: bool)
      modifies this
      ensures View() == Step(config, old(View()), RequestClose(enqueued, closeOk)) && pc == old(pc)
    {
      if stopper == FlagSet {
        if conn.IsOpen() {
          if enqueued {
            closing := true;
          } else if closeOk {
            conn := Conn(false);
            past := past.(uncounted := past.uncounted + 1);
          }
        }
        stopper := Finished;
      }
    }

    method LoseConnection()
      modifies this
      ensures View() == Step(config, old(View()), Drop) && pc == old(pc)
    {
      if conn.IsOpen() {
        conn := Conn(false);
        past := past.(lost := past.lost + 1);
      }
    }

    /** Lets the others act until the thread's next step is answered, or the tape ends. */
    method Others(ghost v: State, tape: seq<Input>, i: nat) returns (used: nat, answer: Option<Answer>)
      requires At(v, tape, i)
      modifies this
      ensures pc == old(pc) && i <= used <= |tape|
      ensures answer.Some? ==> i < used && tape[used - 1] == Go(answer.value) && At(v, tape, used - 1)
      ensures answer.Some? ==> tape[..used][..used - 1] == tape[..used - 1]
      ensures answer.None? ==> used == |tape| && At(v, tape, used)
    {
      hide Step, View;
      used := i;
      while used < |tape|
        invariant At(v, tape, used) && i <= used && pc == old(pc)
      {
        assert tape[..used + 1][..used] == tape[..used];
        match tape[used] {
          case Go(a) => return used + 1, Some(a);
          case SetFlag => SetStopFlag();
          case RequestClose(enqueued, closeOk) => AskForClose(enqueued, closeOk);
          case Drop => LoseConnection();
        }
        used := used + 1;
      }
      answer := None;
    }

    method CheckStop(a: Answer) returns (stop: bool)
      requires pc.AtHead?
      modifies this
      ensures View() == Step(config, old(View()), Go(a))
      ensures stop <==> pc.Done?
      ensures !stop ==> pc == if conn.IsOpen() then SettingUp else Polling
      ensures conn == old(conn)
    {
      stop := stopMe;
      if stop {
        pc := Done;
      } else if conn.IsOpen() {
        pc := SettingUp;
      } else {
        attempt := 1;
        pc := Polling;
      }
    }

    method Poll(a: Answer) returns (stop: bool)
      requires pc.Polling?
      modifies this
      ensures View() == Step(config, old(View()), Go(a))
      ensures pc == if stop then Failing else Calling
    {
      stop := stopMe;
      pc := if stop then Failing else Calling;
    }

    method ConnectOnce(a: Answer) returns (done: bool, raised: bool)
      requires pc.Calling?
      modifies this
      ensures View() == Step(config, old(View()), Go(a))
      ensures pc == if !done then Polling else if raised then Failing else SettingUp
    {
      past := past.(factoryCalls := past.factoryCalls + 1);
      done, raised := true, !a.ok;
      if a.ok {
        conn, closing := Conn(true), false;
        connectionsOpened := connectionsOpened + 1;
        pc := SettingUp;
      } else if config.connect.maxAttempts.Some? && attempt >= config.connect.maxAttempts.value {
        pc := Failing;
      } else if BackoffRaises(config.connect, true, attempt + 1, a.draw) {
        pc := Failing;
      } else {
        attempt := attempt + 1;
        done := false;
        pc := Polling;
      }
    }

    /** `__create_connection`: the connect retry, polling the stop flag before each call. */
    method CreateConnection(ghost v: State, tape: seq<Input>, i: nat) returns (used: nat, outcome: Outcome)
      requires At(v, tape, i) && pc.Polling?
      modifies this
      ensures At(v, tape, used) && i <= used
      ensures outcome.Completed? ==> pc.SettingUp?
      ensures outcome.Threw? ==> pc.Failing?
      ensures outcome.Cut? ==> used == |tape|
    {
      hide Step, View;
      used := i;
      while true
        invariant At(v, tape, used) && pc.Polling? && i <= used
        decreases |tape| - used
      {
        var answer;
        used, answer := Others(v, tape, used);
        if answer.None? {
          return used, Cut;
        }
        var stop := Poll(answer.value);
        if stop {
          return used, Threw;
        }
        used, answer := Others(v, tape, used);
        if answer.None? {
          return used, Cut;
        }
        var done, raised := ConnectOnce(answer.value);
        if done {
          return used, if raised then Threw else Completed;
        }
      }
    }

    method SetupChannel(a: Answer) returns (raised: bool)
      requires pc.SettingUp?
      modifies this
      ensures View() == Step(config, old(View()), Go(a))
      ensures pc == if raised then Failing else Pumping
    {
      raised := !a.ok;
      pc := if raised then Failing else Pumping;
    }

    /** The callback that `stop_listening` has left with the connection. */
    method RunCallbacks(a: Answer)
      modifies this`closing, this`conn, this`connectionsClosed
      ensures View() == RunRequest(old(View()), a)
      ensures View().pumps == old(View()).pumps && View().log == old(View()).log
    {
      if closing && a.ran {
        if conn.IsOpen() && a.closeOk {
          conn := Conn(false);
          connectionsClosed := connectionsClosed + 1;
        }
        closing := false;
      }
    }

    method Pump(a: Answer) returns (raised: bool)
      requires pc.Pumping?
      modifies this
      ensures View() == Step(config, old(View()), Go(a))
      ensures pc == if raised then PumpFailing else AtHead
    {
      hide RunRequest;
      RunCallbacks(a);
      past := past.(pumps := past.pumps + 1);
      raised := !a.ok;
      pc := if raised then PumpFailing else AtHead;
      if !raised {
        loopFailures := 0;
        past := past.(log := past.log + [Healthy]);
      }
    }

    method CloseBestEffort(ok: bool)
      modifies this
      ensures View() == Abandon(old(View()), ok)
      ensures pc == old(pc) && loopFailures == old(loopFailures) && View().log == old(View()).log
    {
      if conn.IsOpen() {
        if ok {
          connectionsClosed := connectionsClosed + 1;
        } else {
          past := past.(closeRaised := past.closeRaised + 1);
        }
      }
      conn, closing := NoConn, false;
    }

    /** Both handlers of the loop: nothing once stopping; otherwise close, forget, count and back off, which may raise. */
    method HandleFailure(a: Answer) returns (raised: bool)
      requires pc.Failing? || pc.PumpFailing?
      modifies this
      ensures View() == Step(config, old(View()), Go(a))
      ensures pc == if !raised then AtHead else if old(pc).Failing? then Crashed else Failing
    {
      hide DelayForAttempt, BackoffRaises, Abandon;
      raised := false;
      if stopMe {
        pc := AtHead;
        return;
      }
      CloseBestEffort(a.closeOk);
      raised := Count(a.draw);
      pc := if !raised then AtHead else if pc.Failing? then Crashed else Failing;
    }

    method Count(draw: real) returns (raised: bool)
      modifies this
      ensures View() == old(View()).(loopFailures := old(loopFailures) + 1,
                                     log := old(View()).log + [FailureMark(config, old(loopFailures), draw)])
      ensures raised <==> BackoffRaises(config.loop, true, old(loopFailures) + 2, draw)
      ensures pc == old(pc)
    {
      hide DelayForAttempt, BackoffRaises;
      loopFailures := loopFailures + 1;
      raised := BackoffRaises(config.loop, true, loopFailures + 1, draw);
      past := past.(log := past.log + [FailureMark(config, loopFailures - 1, draw)]);
    }

    /** The loop body's `try`, on an open connection, with the handler around its pump. */
    method SetupAndPump(ghost v: State, tape: seq<Input>, i: nat) returns (used: nat, outcome: Outcome)
      requires At(v, tape, i) && pc.SettingUp?
      modifies this
      ensures At(v, tape, used) && i <= used
      ensures outcome.Completed? ==> pc.AtHead?
      ensures outcome.Threw? ==> pc.Failing?
      ensures outcome.Cut? ==> used == |tape|
    {
      hide Step, View;
      var answer;
      used, answer := Others(v, tape, i);
      if answer.None? {
        return used, Cut;
      }
      var raised := SetupChannel(answer.value);
      if raised {
        return used, Threw;
      }
      used, answer := Others(v, tape, used);
      if answer.None? {
        return used, Cut;
      }
      raised := Pump(answer.value);
      if raised {
        used, answer := Others(v, tape, used);
        if answer.None? {
          return used, Cut;
        }
        raised := HandleFailure(answer.value);
      }
      outcome := if raised then Threw else Completed;
    }

    /** `run`: every input up to the end of the tape or of the thread takes the listener one machine step on. */
    method Run(tape: seq<Input>) returns (used: nat)
      requires pc.AtHead?
      modifies this
      ensures used <= |tape| && View() == After(config, old(View()), tape[..used])
      ensures used == |tape| || Ended(pc)
    {
      hide Step, View;
      ghost var v := View();
      used := 0;
      while true
        invariant At(v, tape, used) && pc.AtHead?
        decreases |tape| - used
      {
        var answer, outcome;
        used, answer := Others(v, tape, used);
        if answer.None? {
          return used;
        }
        var stop := CheckStop(answer.value);
        if stop {
          return used;
        }
        outcome := Completed;
        if !conn.IsOpen() {
          used, outcome := CreateConnection(v, tape, used);
        }
        if outcome.Completed? {
          used, outcome := SetupAndPump(v, tape, used);
        }
        if outcome.Threw? {
          used, answer := Others(v, tape, used);
          if answer.None? {
            return used;
          }
          var raised := HandleFailure(answer.value);
          if raised {
            return used;
          }
        }
        if outcome.Cut? {
          return used;
        }
      }
    }
  }
}
