/** What consumers are promised, over every run of a listener against the broker. */
module SettlementTheorems {
  import opened Wrappers
  import opened DeadLettering
  import opened Handlers
  import opened Settlement
  import opened SettlementRuns
  import opened SettlementHistory

  /** A copy of the message as delivered is in the configured dead-letter queue. */
  predicate Copied(s: State, t: Task) {
    && t.copy.Some? && t.copy.value < |s.copies|
    && s.copies[t.copy.value].message == t.x.message
    && Some(s.copies[t.copy.value].queue) == t.x.cfg.deadLetterQueue
    && IsPoison(t.x)
  }

  /**
   At least once, over whole runs: without auto-ack an acknowledged message was acknowledged by a
   delivery the tape made of it, whose callback returned on the tape, or whose copy is in the dead-letter
   queue, body and headers as delivered; every other message is still with the broker.
   */
  lemma AtLeastOnce(u: Setup, tape: seq<Input>, m: nat)
    requires !u.autoAck && m < |Run(u, tape).mail|
    ensures var s := Run(u, tape);
            var at := s.mail[m].at;
            && !at.AutoAcked?
            && (at.Acked? ==>
                  && at.task < |s.tasks|
                  && var t := s.tasks[at.task];
                     && t.mail == m && |t.accepted| == 1 && t.accepted[0].Ack?
                     && WasMade(u, tape, at.task, t)
                     && (CallbackEnded(u, tape, at.task, false) || Copied(s, t)))
  {
    RunsKeepInv(u, tape);
    RecordsAreTrue(u, tape);
    hide Run, WasMade, CallbackEnded, WasAbandoned, Traced;
    var s := Run(u, tape);
    if s.mail[m].at.Acked? {
      var j := s.mail[m].at.task;
      var t := s.tasks[j];
      assert TaskOk(u, t) && AckedBy(t, m) && TrueRecord(u, tape, j, t);
      if t.copy.Some? {
        assert s.copies[t.copy.value].task == j;
      }
    }
  }

  /** From s to r message m keeps its body, and an acknowledgement of it is final. */
  predicate Keeps(s: State, r: State, m: nat)
    requires m < |s.mail|
  {
    && m < |r.mail|
    && r.mail[m].message.body == s.mail[m].message.body
    && (s.mail[m].at.Acked? || s.mail[m].at.AutoAcked? ==> r.mail[m] == s.mail[m])
  }

  lemma CustodyStep(u: Setup, s: State, e: Input, m: nat)
    requires Inv(u, s) && m < |s.mail|
    ensures Keeps(s, Step(u, s, e), m)
  {
    hide TasksOk, KeysOk, MailOk, CopiesOk, PermitsOk, QueuedOk;
    if e.Perform? && e.j < |s.tasks| && s.tasks[e.j].pc.Doing? {
      SettlesOwnOnly(u, s, e.j, e.ok, m);
      hide PerformStep;
    } else {
      hide Inv;
      CustodyQuiet(u, s, e, m);
    }
  }

  lemma CustodyQuiet(u: Setup, s: State, e: Input, m: nat)
    requires m < |s.mail| && !(e.Perform? && e.j < |s.tasks| && s.tasks[e.j].pc.Doing?)
    ensures Keeps(s, Step(u, s, e), m)
  {
  }

  lemma CustodyTransitive(s: State, r: State, t: State, m: nat)
    requires m < |s.mail| && Keeps(s, r, m) && Keeps(r, t, m)
    ensures Keeps(s, t, m)
  {
  }

  lemma KeepsSize(s: State, r: State, m: nat)
    requires m < |s.mail| && Keeps(s, r, m)
    ensures m < |r.mail|
  {
  }

  /** Whatever happens after a run, its acknowledged messages stay acknowledged and every message keeps its body. */
  lemma {:induction false} AckIsFinal(u: Setup, tape: seq<Input>, more: seq<Input>, m: nat)
    requires m < |Run(u, tape).mail|
    ensures Keeps(Run(u, tape), Run(u, tape + more), m)
  {
    if more == [] {
      assert tape + more == tape;
    } else {
      hide Step, Inv, Keeps;
      var front := tape + more[..|more| - 1];
      AckIsFinal(u, tape, more[..|more| - 1], m);
      KeepsSize(Run(u, tape), Run(u, front), m);
      RunsKeepInv(u, front);
      CustodyStep(u, Run(u, front), more[|more| - 1], m);
      assert (tape + more)[..|tape + more| - 1] == front;
      CustodyTransitive(Run(u, tape), Run(u, front), Run(u, tape + more), m);
    }
  }

  /**
   A call made for delivery j changes no message but the one j delivered, and that one only while it is
   unsettled under j's own channel and tag: a completion that comes late, on whatever connection it is
   run, never settles another delivery, even one with the same tag.
   */
  lemma SettlesOwnOnly(u: Setup, s: State, j: nat, ok: bool, m: nat)
    requires Inv(u, s) && j < |s.tasks| && s.tasks[j].pc.Doing? && m < |s.mail|
    ensures var t := s.tasks[j];
            var r := PerformStep(s, j, t.pc.op, ok);
            && |r.mail| == |s.mail|
            && r.mail[m].message == s.mail[m].message
            && (r.mail[m] != s.mail[m] ==>
                  m == t.mail && s.mail[m].at == Unsettled(t.key, j) && s.net.channel == Some(t.key.epoch))
            && (s.net.channel != Some(t.key.epoch) ==> r.mail == s.mail && r.rejected == s.rejected)
  {
    var t := s.tasks[j];
    assert TaskOk(u, t);
    if t.accepted == [] && s.net.channel == Some(t.key.epoch) {
      FindsOwn(u, s, j);
      assert s.mail[t.mail].at == Unsettled(t.key, j);
    }
  }

  /** In every run no delivery is settled twice and the broker never sees a settlement it must refuse. */
  lemma SettledOnce(u: Setup, tape: seq<Input>)
    ensures var s := Run(u, tape);
            && s.rejected == 0
            && (forall j :: 0 <= j < |s.tasks| ==> |s.tasks[j].accepted| <= 1)
            && (forall i, j :: 0 <= i < j < |s.tasks| ==> s.tasks[i].key != s.tasks[j].key)
            && (u.autoAck ==> forall j :: 0 <= j < |s.tasks| ==> s.tasks[j].accepted == [])
  {
    RunsKeepInv(u, tape);
    var s := Run(u, tape);
    assert forall j :: 0 <= j < |s.tasks| ==> TaskOk(u, s.tasks[j]);
  }

  /**
   A delivery on which something is still to happen, or that gave up for a reason.  What is queued on the
   connection that is up is run only if its thread still pumps; a stopped listener's thread may have ended
   with its connection open, and then the broker holds such a delivery until that connection goes.
   */
  predicate AccountedFor(net: Net, t: Task) {
    match t.pc
    case Finished => t.abandoned || (t.log != [] && EndedBy(t, t.log[|t.log| - 1]))
    case Queued(conn, _) => net.conn == Some(conn)
    case _ => true
  }

  /**
   No delivery is stranded: in every run what is unsettled is being handled, or its settlement waits on
   the connection that is up, or it was ignored or cancelled, or the last call made for it raised.  For
   an async listener that last call is the nack.
   */
  lemma NothingStranded(u: Setup, tape: seq<Input>, m: nat)
    requires m < |Run(u, tape).mail| && Run(u, tape).mail[m].at.Unsettled?
    ensures var s := Run(u, tape);
            var j := s.mail[m].at.task;
            && j < |s.tasks| && s.tasks[j].mail == m && s.tasks[j].key == s.mail[m].at.key
            && AccountedFor(s.net, s.tasks[j])
            && (s.tasks[j].abandoned ==> WasAbandoned(u, tape, j))
            && (u.mode.Async? && s.tasks[j].pc.Finished? && !s.tasks[j].abandoned ==>
                  s.tasks[j].log != [] && s.tasks[j].log[|s.tasks[j].log| - 1].op.Nack?)
  {
    RunsKeepInv(u, tape);
    RecordsAreTrue(u, tape);
    hide Run, WasMade, CallbackEnded, WasAbandoned, Traced, KeysOk, CopiesOk, PermitsOk, Fits, IsPoison;
    var s := Run(u, tape);
    var j := s.mail[m].at.task;
    assert HeldFor(s.tasks[j], m, s.mail[m].at.key) && TaskOk(u, s.tasks[j]) && TrueRecord(u, tape, j, s.tasks[j]);
    hide TrueRecord, TasksOk, MailOk;
  }

  /** Copies are published for poison deliveries only, at most one by each. */
  lemma CopiesArePoison(u: Setup, tape: seq<Input>, i: nat)
    requires i < |Run(u, tape).copies|
    ensures var s := Run(u, tape);
            var j := s.copies[i].task;
            && j < |s.tasks| && Copied(s, s.tasks[j]) && s.tasks[j].copy == Some(i)
            && Attempt(s.copies[i].message.headers) >= u.cfg.maxRetries && !s.tasks[j].x.mode.Direct?
    ensures var s := Run(u, tape);
            forall k :: 0 <= k < |s.copies| && s.copies[k].task == s.copies[i].task ==> k == i
  {
    RunsKeepInv(u, tape);
    var s := Run(u, tape);
    assert TaskOk(u, s.tasks[s.copies[i].task]);
  }

  // ---------------------------------------------------------------- permits

  lemma {:induction false} SomeHolder(tasks: seq<Task>) returns (i: nat)
    requires Holding(tasks) > 0
    ensures i < |tasks| && tasks[i].holds
  {
    if tasks[|tasks| - 1].holds {
      i := |tasks| - 1;
    } else {
      i := SomeHolder(tasks[..|tasks| - 1]);
    }
  }

  /** The worker's way to giving the permit back does not pass the I/O thread. */
  predicate WorkerHolds(t: Task) {
    t.holds && (t.pc.InCallback? || MayRelease(t) || (t.pc.Doing? && !t.scheduled))
  }

  /** What a worker may be answered: how its callback ends, whether it can enqueue, whether its call is let through. */
  datatype WorkerAnswer = WorkerAnswer(raised: bool, enqueued: bool, ok: bool)

  /** The worker's next step. */
  function WorkerInput(t: Task, i: nat, a: WorkerAnswer): Input {
    if MayRelease(t) then Release(i)
    else if t.pc.InCallback? then End(i, a.raised, a.enqueued)
    else Perform(i, a.ok)
  }

  /** The steps of the worker of delivery i alone, up to its release, with the answers given. */
  function WorkOff(u: Setup, s: State, i: nat, answers: seq<WorkerAnswer>): seq<Input>
    decreases |answers|
  {
    if answers == [] || i >= |s.tasks| then []
    else
      var e := WorkerInput(s.tasks[i], i, answers[0]);
      if e.Release? then [e] else [e] + WorkOff(u, Step(u, s, e), i, answers[1..])
  }

  /** In every run the permits are all there: free, or held by a delivery. */
  lemma PermitsConserved(u: Setup, tape: seq<Input>)
    ensures Run(u, tape).free + Holding(Run(u, tape).tasks) == u.maxInFlight
  {
    RunsKeepInv(u, tape);
  }

  /** How many steps a worker has at most before it may release. */
  function StepsLeft(t: Task): nat {
    if MayRelease(t) then 0
    else match t.pc
      case InCallback => 5
      case Doing(op) => Rank(Do(op))
      case _ => 0
  }

  /** From s to r delivery i's worker has released its permit or come closer to that, and nobody else has moved. */
  predicate WorkerMoved(s: State, r: State, i: nat)
    requires i < |s.tasks|
  {
    && |r.tasks| == |s.tasks| && r.busy == s.busy
    && (forall k :: 0 <= k < |s.tasks| && k != i ==> r.tasks[k] == s.tasks[k])
    && (MayRelease(s.tasks[i]) ==> r.free == s.free + 1)
    && (!MayRelease(s.tasks[i]) ==>
          && PermitFits(r.tasks[i]) && WorkerHolds(r.tasks[i]) && r.free == s.free
          && StepsLeft(r.tasks[i]) < StepsLeft(s.tasks[i]))
  }

  lemma WorkerEnds(s: State, i: nat, raised: bool, enqueued: bool)
    requires i < |s.tasks| && PermitFits(s.tasks[i]) && s.busy != Some(i)
    requires s.tasks[i].pc.InCallback? && s.tasks[i].holds && !s.tasks[i].scheduled
    ensures WorkerMoved(s, TaskStep(s, End(i, raised, enqueued), i), i)
  {
  }

  lemma WorkerPerforms(s: State, i: nat, ok: bool)
    requires i < |s.tasks| && PermitFits(s.tasks[i]) && s.busy != Some(i)
    requires s.tasks[i].pc.Doing? && s.tasks[i].holds && !s.tasks[i].scheduled
    ensures WorkerMoved(s, PerformStep(s, i, s.tasks[i].pc.op, ok), i)
  {
    hide Reaches, PlaceAfter, FirstOp;
  }

  /** Whatever it is answered, a step of a worker releases its permit or brings that closer. */
  lemma WorkerStep(u: Setup, s: State, i: nat, a: WorkerAnswer)
    requires i < |s.tasks| && PermitFits(s.tasks[i]) && WorkerHolds(s.tasks[i]) && s.busy != Some(i)
    ensures WorkerMoved(s, Step(u, s, WorkerInput(s.tasks[i], i, a)), i)
  {
    if MayRelease(s.tasks[i]) {
      hide StepsLeft, WorkerHolds;
    } else if s.tasks[i].pc.InCallback? {
      WorkerEnds(s, i, a.raised, a.enqueued);
      hide WorkerMoved, EndTask;
    } else {
      WorkerPerforms(s, i, a.ok);
      hide WorkerMoved, PerformStep;
    }
  }

  lemma {:induction false} WorkerFrees(u: Setup, s: State, i: nat, j: nat, answers: seq<WorkerAnswer>)
    requires i < |s.tasks| && PermitFits(s.tasks[i]) && WorkerHolds(s.tasks[i]) && s.busy != Some(i)
    requires j < |s.tasks| && i != j && |answers| > StepsLeft(s.tasks[i])
    ensures var r := After(u, s, WorkOff(u, s, i, answers));
            r.free == s.free + 1 && j < |r.tasks| && r.tasks[j] == s.tasks[j]
    decreases |answers|
  {
    var e := WorkerInput(s.tasks[i], i, answers[0]);
    WorkerStep(u, s, i, answers[0]);
    assert WorkerMoved(s, Step(u, s, e), i);
    assert [e][..0] == [];
    assert After(u, s, [e]) == Step(u, s, e);
    hide Step, WorkerHolds, PermitFits, StepsLeft;
    if !MayRelease(s.tasks[i]) {
      WorkerFrees(u, Step(u, s, e), i, j, answers[1..]);
      AfterConcat(u, s, [e], WorkOff(u, Step(u, s, e), i, answers[1..]));
    }
  }

  lemma {:induction false} AfterConcat(u: Setup, s: State, a: seq<Input>, b: seq<Input>)
    ensures After(u, s, a + b) == After(u, After(u, s, a), b)
  {
    if b == [] {
      assert a + b == a;
    } else {
      AfterConcat(u, s, a, b[..|b| - 1]);
      assert (a + b)[..|a + b| - 1] == a + b[..|b| - 1];
    }
  }

  lemma AnotherHolds(u: Setup, s: State, j: nat) returns (i: nat)
    requires PermitsOk(u, s.tasks, s.free, s.busy) && u.maxInFlight >= 1
    requires j < |s.tasks| && s.tasks[j].pc.Arriving? && s.free == 0
    ensures s.busy == Some(j) && i < |s.tasks| && i != j && PermitFits(s.tasks[i]) && WorkerHolds(s.tasks[i])
  {
    i := SomeHolder(s.tasks);
    assert PermitFits(s.tasks[i]) && PermitFits(s.tasks[j]);
  }

  lemma FewSteps(t: Task)
    ensures StepsLeft(t) <= 5
  {
  }

  /**
   The I/O thread never waits for itself: whenever it is blocked acquiring a permit, some other delivery
   holds one, and that delivery's worker gives it back within six steps of its own, whatever its callback
   does and however its calls are answered; after that the I/O thread gets it.
   */
  lemma BlockedNotForever(u: Setup, tape: seq<Input>, j: nat) returns (i: nat)
    requires u.maxInFlight >= 1 && j < |Run(u, tape).tasks|
    requires Run(u, tape).tasks[j].pc.Arriving? && Run(u, tape).free == 0
    ensures i != j && i < |Run(u, tape).tasks| && Run(u, tape).tasks[i].holds
    ensures forall answers: seq<WorkerAnswer> :: |answers| >= 6 ==>
              var r := After(u, Run(u, tape), WorkOff(u, Run(u, tape), i, answers));
              && j < |r.tasks| && r.tasks[j].pc.Arriving? && r.free == 1
              && var a := Step(u, r, Acquire(j));
                 j < |a.tasks| && a.tasks[j].pc.Submitting? && a.tasks[j].holds
  {
    hide PermitFits, TasksOk, KeysOk, MailOk, CopiesOk, PermitsOk, QueuedOk, Step, StepsLeft, WorkOff, After, Run;
    RunsKeepInv(u, tape);
    var s := Run(u, tape);
    i := AnotherHolds(u, s, j);
    FewSteps(s.tasks[i]);
    forall answers: seq<WorkerAnswer> | |answers| >= 6
      ensures var r := After(u, s, WorkOff(u, s, i, answers));
              && j < |r.tasks| && r.tasks[j].pc.Arriving? && r.free == 1
              && var a := Step(u, r, Acquire(j));
                 j < |a.tasks| && a.tasks[j].pc.Submitting? && a.tasks[j].holds
    {
      WorkerFrees(u, s, i, j, answers);
      AcquireWorks(u, After(u, s, WorkOff(u, s, i, answers)), j);
    }
  }

  lemma AcquireWorks(u: Setup, s: State, j: nat)
    requires j < |s.tasks| && s.tasks[j].pc.Arriving? && s.free > 0
    ensures var r := Step(u, s, Acquire(j));
            j < |r.tasks| && r.tasks[j].pc.Submitting? && r.tasks[j].holds
  {
  }
}
