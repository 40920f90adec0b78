/** What a delivery's record says has happened on the tape, and the calls made for it are its handler's. */
module SettlementHistory {
  import opened Wrappers
  import opened Handlers
  import opened Settlement
  import opened SettlementRuns

  // ---------------------------------------------------------------- events

  /** This input makes delivery j, of message m as it then is, on the open channel. */
  predicate Makes(u: Setup, s: State, e: Input, j: nat, t: Task) {
    && e == Deliver(t.mail) && j == |s.tasks|
    && t.mail < |s.mail| && s.mail[t.mail].at.Ready?
    && t.x.message == s.mail[t.mail].message
    && s.net.channel == Some(t.key.epoch)
  }

  /** This input is the end of delivery j's callback, by a return or an exception. */
  predicate EndsCallback(s: State, e: Input, j: nat, raised: bool) {
    e.End? && e.j == j && e.raised == raised && j < |s.tasks| && s.tasks[j].pc.InCallback?
  }

  /** This input takes delivery j out of handling: a stop finds it, or its task is cancelled. */
  predicate Abandons(u: Setup, s: State, e: Input, j: nat) {
    if u.mode.Async? then e == Cancel(j)
    else s.stopMe && ((e.Deliver? && j == |s.tasks|) || e == Submit(j, false))
  }

  ghost predicate WasMade(u: Setup, tape: seq<Input>, j: nat, t: Task) {
    exists i :: 0 <= i < |tape| && Makes(u, Run(u, tape[..i]), tape[i], j, t)
  }

  ghost predicate CallbackEnded(u: Setup, tape: seq<Input>, j: nat, raised: bool) {
    exists i :: 0 <= i < |tape| && EndsCallback(Run(u, tape[..i]), tape[i], j, raised)
  }

  ghost predicate WasAbandoned(u: Setup, tape: seq<Input>, j: nat) {
    exists i :: 0 <= i < |tape| && Abandons(u, Run(u, tape[..i]), tape[i], j)
  }

  // ---------------------------------------------------------------- the calls made

  function NextOf(pc: Pc): Next {
    match pc
    case Queued(_, op) => Do(op)
    case Doing(op) => Do(op)
    case _ => Finish
  }

  /** A delivery has made its handler's calls up to where it stands, and none before its callback ended. */
  predicate Traced(t: Task) {
    && (t.abandoned ==> t.pc.Finished?)
    && match t.raised
    case None => t.log == [] && (t.abandoned || t.pc.Arriving? || t.pc.Submitting? || t.pc.InCallback?)
    case Some(raised) =>
      && !t.pc.Arriving? && !t.pc.Submitting? && !t.pc.InCallback?
      && var at := Reached(t.x, FirstOp(t.x, raised), t.log);
         at.Some? && (!t.abandoned ==> at.value == NextOf(t.pc))
  }

  // ---------------------------------------------------------------- one step

  /** What one input may do to the record of delivery j. */
  ghost predicate Recorded(u: Setup, s: State, e: Input, j: nat, t: Task, t': Task) {
    && t'.mail == t.mail && t'.key == t.key
    && t'.x == (if e == Submit(j, false) && t.pc.Submitting? then t.x.(mode := Direct) else t.x)
    && t'.raised == (if EndsCallback(s, e, j, true) then Some(true)
                     else if EndsCallback(s, e, j, false) then Some(false) else t.raised)
    && (t'.abandoned && !t.abandoned ==> Abandons(u, s, e, j))
    && Traced(t')
  }

  lemma CallTraced(t: Task, op: Op, ok: bool, t': Task)
    requires t.pc == Doing(op) && t'.log == t.log + [Done(op, ok)] && t'.x == t.x && t'.raised == t.raised
    requires t'.pc == PcOf(NextOp(t.x, op, ok)) && t'.abandoned == t.abandoned && Traced(t)
    ensures Traced(t')
  {
    assert t'.log[..|t'.log| - 1] == t.log;
  }

  lemma PerformRecorded(u: Setup, s: State, j: nat, op: Op, ok: bool)
    requires j < |s.tasks| && s.tasks[j].pc == Doing(op) && Traced(s.tasks[j])
    ensures var r := PerformStep(s, j, op, ok);
            && |r.tasks| == |s.tasks|
            && (forall k :: 0 <= k < |s.tasks| && k != j ==> r.tasks[k] == s.tasks[k])
            && Recorded(u, s, Perform(j, ok), j, s.tasks[j], r.tasks[j])
  {
    var t := s.tasks[j];
    CallTraced(t, op, false, Raised(t, op));
    CallTraced(t, op, true, Settled(t, op));
    CallTraced(t, op, true, Published(t, op, |s.copies|));
    hide Traced, Find, Reaches, PlaceAfter, NextOp;
  }

  lemma EndRecorded(u: Setup, s: State, e: Input, j: nat)
    requires j < |s.tasks| && e.End? && e.j == j && s.tasks[j].pc.InCallback? && Traced(s.tasks[j])
    ensures Recorded(u, s, e, j, s.tasks[j], EndTask(s.net, s.tasks[j], e.raised, e.enqueued))
  {
    hide FirstOp;
  }

  /** The inputs that are steps of a delivery and make no broker call. */
  predicate StepOf(e: Input, j: nat) {
    (e.Acquire? || e.Submit? || e.End? || e.RunQueued? || e.Release? || e.Cancel?) && e.j == j
  }

  lemma LocalRecorded(u: Setup, s: State, e: Input, j: nat)
    requires j < |s.tasks| && StepOf(e, j)
    requires TaskOk(u, s.tasks[j]) && PermitFits(s.tasks[j]) && Traced(s.tasks[j])
    ensures var r := TaskStep(s, e, j);
            && |r.tasks| == |s.tasks|
            && (forall k :: 0 <= k < |s.tasks| && k != j ==> r.tasks[k] == s.tasks[k])
            && Recorded(u, s, e, j, s.tasks[j], r.tasks[j])
  {
    if e.End? && s.tasks[j].pc.InCallback? {
      EndRecorded(u, s, e, j);
      hide Recorded, EndTask, TaskOk, Traced;
    } else {
      hide Reached, FirstOp, EndTask, Fits;
    }
  }

  lemma Untouched(u: Setup, s: State, e: Input, j: nat)
    requires j < |s.tasks| && Traced(s.tasks[j]) && !StepOf(e, j)
    ensures Recorded(u, s, e, j, s.tasks[j], s.tasks[j])
  {
  }

  /** A new delivery, or none. */
  lemma MadeRecorded(u: Setup, s: State, m: nat)
    ensures var r := DeliverStep(u, s, m);
            && |r.tasks| >= |s.tasks| && r.tasks[..|s.tasks|] == s.tasks
            && forall j :: |s.tasks| <= j < |r.tasks| ==>
                 var t := r.tasks[j];
                 && Makes(u, s, Deliver(m), j, t)
                 && t.raised.None? && Traced(t) && (t.abandoned ==> Abandons(u, s, Deliver(m), j))
  {
  }

  ghost predicate AllTraced(tasks: seq<Task>) {
    forall j :: 0 <= j < |tasks| ==> Traced(tasks[j])
  }

  /** What one input does to all records. */
  ghost predicate RecordedStep(u: Setup, s: State, e: Input, r: State, j: nat) {
    && |r.tasks| >= |s.tasks|
    && (j < |r.tasks| ==>
          if j < |s.tasks| then Recorded(u, s, e, j, s.tasks[j], r.tasks[j])
          else
            var t := r.tasks[j];
            && Makes(u, s, e, j, t) && t.raised.None? && Traced(t) && (t.abandoned ==> Abandons(u, s, e, j)))
  }

  lemma DeliverCase(u: Setup, s: State, m: nat, j: nat)
    requires AllTraced(s.tasks)
    ensures RecordedStep(u, s, Deliver(m), DeliverStep(u, s, m), j)
  {
    MadeRecorded(u, s, m);
    hide DeliverStep, Makes, Abandons, Traced;
    if j < |s.tasks| {
      assert DeliverStep(u, s, m).tasks[..|s.tasks|][j] == DeliverStep(u, s, m).tasks[j];
      Untouched(u, s, Deliver(m), j);
    }
  }

  lemma PerformCase(u: Setup, s: State, i: nat, ok: bool, j: nat)
    requires AllTraced(s.tasks) && i < |s.tasks| && s.tasks[i].pc.Doing?
    ensures RecordedStep(u, s, Perform(i, ok), PerformStep(s, i, s.tasks[i].pc.op, ok), j)
  {
    PerformRecorded(u, s, i, s.tasks[i].pc.op, ok);
    hide PerformStep, Recorded, Makes, Abandons, Traced;
    if j < |s.tasks| && j != i {
      Untouched(u, s, Perform(i, ok), j);
    }
  }

  lemma LocalCase(u: Setup, s: State, e: Input, i: nat, j: nat)
    requires Inv(u, s) && AllTraced(s.tasks) && i < |s.tasks| && StepOf(e, i)
    ensures RecordedStep(u, s, e, TaskStep(s, e, i), j)
  {
    assert TaskOk(u, s.tasks[i]) && PermitFits(s.tasks[i]);
    hide KeysOk, MailOk, CopiesOk, QueuedOk, TaskOk, PermitFits, TaskStep, Recorded, Makes, Abandons, Traced;
    LocalRecorded(u, s, e, i);
    if j < |s.tasks| && j != i {
      Untouched(u, s, e, j);
    }
  }

  lemma OtherCase(u: Setup, s: State, e: Input, r: State, j: nat)
    requires AllTraced(s.tasks) && r.tasks == s.tasks && (j < |s.tasks| ==> !StepOf(e, j))
    ensures RecordedStep(u, s, e, r, j)
  {
    if j < |s.tasks| {
      Untouched(u, s, e, j);
    }
    hide Recorded, Makes, Abandons, Traced;
  }

  lemma StepRecorded(u: Setup, s: State, e: Input, j: nat)
    requires Inv(u, s) && AllTraced(s.tasks)
    ensures RecordedStep(u, s, e, Step(u, s, e), j)
  {
    hide Inv, AllTraced, RecordedStep;
    match e
    case Deliver(m) => DeliverCase(u, s, m, j);
    case Perform(i, ok) =>
      if i < |s.tasks| && s.tasks[i].pc.Doing? {
        PerformCase(u, s, i, ok, j);
      } else {
        OtherCase(u, s, e, s, j);
      }
    case Arrive(_) => OtherCase(u, s, e, Step(u, s, e), j);
    case ReturnDead(_, _) => OtherCase(u, s, e, Step(u, s, e), j);
    case Connect => OtherCase(u, s, e, Step(u, s, e), j);
    case OpenChannel => OtherCase(u, s, e, Step(u, s, e), j);
    case LoseChannel => OtherCase(u, s, e, Step(u, s, e), j);
    case LoseConnection => OtherCase(u, s, e, Step(u, s, e), j);
    case StopListening => OtherCase(u, s, e, Step(u, s, e), j);
    case _ =>
      if e.j < |s.tasks| {
        LocalCase(u, s, e, e.j, j);
      } else {
        OtherCase(u, s, e, s, j);
      }
  }

  // ---------------------------------------------------------------- every run

  /** The record of delivery j is true of the tape. */
  ghost predicate TrueRecord(u: Setup, tape: seq<Input>, j: nat, t: Task) {
    && Traced(t)
    && WasMade(u, tape, j, t)
    && (t.raised.Some? ==> CallbackEnded(u, tape, j, t.raised.value))
    && (t.abandoned ==> WasAbandoned(u, tape, j))
  }

  lemma RecordsExtend(u: Setup, front: seq<Input>, e: Input, j: nat, t: Task)
    ensures var tape := front + [e];
            && (WasMade(u, front, j, t) || Makes(u, Run(u, front), e, j, t) ==> WasMade(u, tape, j, t))
            && (WasAbandoned(u, front, j) || Abandons(u, Run(u, front), e, j) ==> WasAbandoned(u, tape, j))
            && (forall raised ::
                  CallbackEnded(u, front, j, raised) || EndsCallback(Run(u, front), e, j, raised) ==>
                    CallbackEnded(u, tape, j, raised))
  {
    hide Run, Makes, Abandons, EndsCallback;
    var tape := front + [e];
    assert forall i :: 0 <= i < |front| ==> tape[..i] == front[..i] && tape[i] == front[i];
    assert tape[..|front|] == front && tape[|front|] == e;
  }

  lemma SameMade(u: Setup, tape: seq<Input>, j: nat, t: Task, t': Task)
    requires WasMade(u, tape, j, t)
    requires t'.mail == t.mail && t'.key == t.key && t'.x.message == t.x.message
    ensures WasMade(u, tape, j, t')
  {
    var i :| 0 <= i < |tape| && Makes(u, Run(u, tape[..i]), tape[i], j, t);
    assert Makes(u, Run(u, tape[..i]), tape[i], j, t');
  }

  lemma RecordKept(u: Setup, front: seq<Input>, e: Input, j: nat)
    requires Inv(u, Run(u, front)) && AllTraced(Run(u, front).tasks)
    requires forall k :: 0 <= k < |Run(u, front).tasks| ==> TrueRecord(u, front, k, Run(u, front).tasks[k])
    requires j < |Step(u, Run(u, front), e).tasks|
    ensures TrueRecord(u, front + [e], j, Step(u, Run(u, front), e).tasks[j])
  {
    var s := Run(u, front);
    var t' := Step(u, s, e).tasks[j];
    StepRecorded(u, s, e, j);
    assert RecordedStep(u, s, e, Step(u, s, e), j);
    hide Run, Step, Traced, Makes, Abandons, EndsCallback, Inv, WasMade, CallbackEnded, WasAbandoned, TrueRecord, Recorded;
    if j < |s.tasks| {
      OldRecordKept(u, front, e, j, s.tasks[j], t');
    } else {
      NewRecord(u, front, e, j, t');
    }
  }

  lemma OldRecordKept(u: Setup, front: seq<Input>, e: Input, j: nat, t: Task, t': Task)
    requires TrueRecord(u, front, j, t) && Recorded(u, Run(u, front), e, j, t, t')
    ensures TrueRecord(u, front + [e], j, t')
  {
    hide Run, Traced, Makes, Abandons, EndsCallback, WasMade, CallbackEnded, WasAbandoned;
    RecordsExtend(u, front, e, j, t');
    SameMade(u, front, j, t, t');
  }

  lemma NewRecord(u: Setup, front: seq<Input>, e: Input, j: nat, t: Task)
    requires Makes(u, Run(u, front), e, j, t) && t.raised.None? && Traced(t)
    requires t.abandoned ==> Abandons(u, Run(u, front), e, j)
    ensures TrueRecord(u, front + [e], j, t)
  {
    hide Run, Traced, Makes, Abandons, EndsCallback, WasMade, CallbackEnded, WasAbandoned;
    RecordsExtend(u, front, e, j, t);
  }

  /**
   In every run each delivery was made by a delivery of its message as it then was, is recorded as returned
   or raised exactly as its callback ended, and has made its handler's calls up to where it stands.
   */
  lemma {:induction false} RecordsAreTrue(u: Setup, tape: seq<Input>)
    ensures forall j :: 0 <= j < |Run(u, tape).tasks| ==> TrueRecord(u, tape, j, Run(u, tape).tasks[j])
  {
    if tape != [] {
      var front, e := tape[..|tape| - 1], tape[|tape| - 1];
      assert tape == front + [e];
      RecordsAreTrue(u, front);
      RunsKeepInv(u, front);
      assert AllTraced(Run(u, front).tasks);
      hide Inv, TrueRecord, Step;
      forall j | 0 <= j < |Run(u, tape).tasks|
        ensures TrueRecord(u, tape, j, Run(u, tape).tasks[j])
      {
        RecordKept(u, front, e, j);
      }
    }
  }

  /**
   The calls made for a delivery that has run its course are exactly what its handler does with the way
   its callback ended, for some answers; and one whose callback has not ended has made none.
   */
  lemma CallsAreTheHandlers(u: Setup, tape: seq<Input>, j: nat) returns (answers: Answers)
    requires j < |Run(u, tape).tasks|
    ensures var t := Run(u, tape).tasks[j];
            && t.x.autoAck == u.autoAck && t.x.cfg == u.cfg
            && (t.x.mode == u.mode || (u.mode.Offload? && t.x.mode.Direct?))
            && (t.raised.None? ==> t.log == [])
            && (t.raised.Some? && t.pc.Finished? && !t.abandoned ==> t.log == Handle(t.x, t.raised.value, answers))
  {
    RecordsAreTrue(u, tape);
    RunsKeepInv(u, tape);
    var t := Run(u, tape).tasks[j];
    assert TaskOk(u, t);
    hide Inv, TaskOk, Run;
    assert TrueRecord(u, tape, j, t);
    answers := FAULTLESS;
    if t.raised.Some? && t.pc.Finished? && !t.abandoned {
      answers := EndedIsPlay(t.x, FirstOp(t.x, t.raised.value), t.log);
    }
  }
}
