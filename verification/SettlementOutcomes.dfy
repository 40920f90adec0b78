/** What becomes of a message when nothing fails, and what the broker does to those it holds. */
module SettlementOutcomes {
  import opened Wrappers
  import opened DeadLettering
  import opened Handlers
  import opened Settlement
  import opened SettlementRuns

  lemma AfterOne(u: Setup, s: State, e: Input)
    ensures After(u, s, [e]) == Step(u, s, e)
  {
    assert [e][..0] == [];
  }

  lemma AfterSnoc(u: Setup, s: State, tape: seq<Input>, e: Input)
    ensures After(u, s, tape + [e]) == Step(u, After(u, s, tape), e)
  {
    assert (tape + [e])[..|tape|] == tape;
  }

  lemma {:induction false} InvAlong(u: Setup, s: State, tape: seq<Input>)
    requires Inv(u, s)
    ensures Inv(u, After(u, s, tape))
  {
    if tape != [] {
      hide Inv, Step;
      InvAlong(u, s, tape[..|tape| - 1]);
      InvKept(u, After(u, s, tape[..|tape| - 1]), tape[|tape| - 1]);
    }
  }

  // ---------------------------------------------------------------- the steps of a delivery

  /** Delivery j is of message m, unsettled and on the open channel, with these copies published so far. */
  predicate Open(u: Setup, s: State, j: nat, m: nat, message: Message, copies: seq<Copy>) {
    && j < |s.tasks| && m < |s.mail|
    && var t := s.tasks[j];
    && t.x == Context(u.mode, false, u.cfg, message)
    && t.mail == m && t.accepted == []
    && s.mail[m] == Mail(message, Unsettled(t.key, j))
    && s.net.conn.Some? && s.net.channel == Some(t.key.epoch)
    && s.copies == copies
  }

  lemma Delivers(u: Setup, s: State, m: nat)
    requires !u.autoAck && m < |s.mail| && s.mail[m].at.Ready?
    requires s.net.conn.Some? && s.net.channel.Some? && s.busy.None? && !s.stopMe
    ensures var r, j := DeliverStep(u, s, m), |s.tasks|;
            && Open(u, r, j, m, s.mail[m].message, s.copies)
            && r.free == s.free && r.tasks[j].log == []
            && r.tasks[j].pc == (if u.mode.Offload? then Arriving else InCallback)
            && r.busy == (if u.mode.Async? then None else Some(j))
  {
  }

  lemma Acquires(u: Setup, s: State, j: nat, m: nat, message: Message, copies: seq<Copy>)
    requires Open(u, s, j, m, message, copies) && s.tasks[j].pc.Arriving? && s.free > 0
    ensures var r := TaskStep(s, Acquire(j), j);
            && Open(u, r, j, m, message, copies) && r.tasks[j].pc.Submitting? && r.tasks[j].log == s.tasks[j].log
  {
  }

  lemma Submits(u: Setup, s: State, j: nat, m: nat, message: Message, copies: seq<Copy>)
    requires Open(u, s, j, m, message, copies) && s.tasks[j].pc.Submitting?
    ensures var r := TaskStep(s, Submit(j, true), j);
            && Open(u, r, j, m, message, copies) && r.tasks[j].pc.InCallback? && r.tasks[j].log == s.tasks[j].log
            && r.busy.None?
  {
  }

  lemma SomeFirst(x: Context, raised: bool)
    requires !x.autoAck
    ensures FirstOp(x, raised).Do?
  {
  }

  /** The callback ends, and the first call is made here, or waits for the I/O thread if it can be asked to make it. */
  lemma Ends(u: Setup, s: State, j: nat, m: nat, message: Message, copies: seq<Copy>, raised: bool, enqueued: bool)
    requires Open(u, s, j, m, message, copies) && s.tasks[j].pc.InCallback?
    ensures var r := TaskStep(s, End(j, raised, enqueued), j);
            var first := FirstOp(s.tasks[j].x, raised);
            && first.Do? && Open(u, r, j, m, message, copies) && r.tasks[j].log == s.tasks[j].log
            && r.busy == s.busy
            && r.tasks[j].pc == if u.mode.Offload? && enqueued then Queued(s.net.conn.value, first.op) else Doing(first.op)
  {
    SomeFirst(s.tasks[j].x, raised);
    hide FirstOp;
  }

  lemma RunsQueued(u: Setup, s: State, j: nat, m: nat, message: Message, copies: seq<Copy>)
    requires Open(u, s, j, m, message, copies) && s.tasks[j].pc.Queued?
    requires s.net.conn == Some(s.tasks[j].pc.conn) && s.busy.None?
    ensures var r := TaskStep(s, RunQueued(j), j);
            && Open(u, r, j, m, message, copies) && r.tasks[j].log == s.tasks[j].log
            && r.tasks[j].pc == Doing(s.tasks[j].pc.op)
  {
  }

  /** Where a settlement of delivery j leaves its message: gone by an ack, ready again, or on the dead-letter route. */
  function LeftAt(op: Op, j: nat): Place {
    match op
    case Ack(_) => Acked(j)
    case Nack(requeue) => if requeue then Ready else DeadLettered
    case _ => DeadLettered
  }

  lemma Publishes(u: Setup, s: State, j: nat, m: nat, message: Message, copies: seq<Copy>, op: Op)
    requires Open(u, s, j, m, message, copies) && s.tasks[j].pc == Doing(op) && op.Publish?
    ensures var r := PerformStep(s, j, op, true);
            && Open(u, r, j, m, message, copies + [Copy(op.queue, op.message, j)])
            && r.mail == s.mail
            && r.tasks[j].log == s.tasks[j].log + [Done(op, true)]
            && r.tasks[j].pc == PcOf(NextOp(s.tasks[j].x, op, true))
  {
    hide NextOp;
  }

  /** A settlement that reaches its channel and is let through does what it says, to its own message and no other. */
  lemma Settles(u: Setup, s: State, j: nat, m: nat, message: Message, copies: seq<Copy>, op: Op)
    requires Open(u, s, j, m, message, copies) && s.tasks[j].pc == Doing(op) && !op.Publish?
    requires Find(s.mail, s.tasks[j].key) == Some(m)
    ensures var r := PerformStep(s, j, op, true);
            && |r.tasks| == |s.tasks|
            && r.mail == s.mail[m := s.mail[m].(at := LeftAt(op, j))] && r.copies == copies
            && r.tasks[j].log == s.tasks[j].log + [Done(op, true)] && r.tasks[j].accepted == [op]
            && r.tasks[j].pc.Finished?
  {
  }

  // ---------------------------------------------------------------- a delivery without faults

  lemma OpenHeld(u: Setup, s: State, j: nat, m: nat, message: Message, copies: seq<Copy>)
    requires Inv(u, s) && Open(u, s, j, m, message, copies) && !u.autoAck
    ensures Find(s.mail, s.tasks[j].key) == Some(m)
  {
    FindsOwn(u, s, j);
  }

  lemma LastCall(u: Setup, s: State, j: nat, m: nat, message: Message, copies: seq<Copy>, op: Op)
    requires Inv(u, s) && Open(u, s, j, m, message, copies) && !u.autoAck
    requires s.tasks[j].pc == Doing(op) && !op.Publish?
    ensures var r := After(u, s, [Perform(j, true)]);
            && j < |r.tasks| && m < |r.mail| && r.tasks[j].pc.Finished?
            && r.mail[m] == Mail(message, LeftAt(op, j)) && r.copies == copies
  {
    hide Inv, Open, PerformStep, After, Step;
    OpenIsThere(u, s, j, m, message, copies);
    AfterOne(u, s, Perform(j, true));
    PerformIs(u, s, j, op);
    OpenHeld(u, s, j, m, message, copies);
    Settles(u, s, j, m, message, copies, op);
  }

  lemma PerformIs(u: Setup, s: State, j: nat, op: Op)
    requires j < |s.tasks| && s.tasks[j].pc == Doing(op)
    ensures Step(u, s, Perform(j, true)) == PerformStep(s, j, op, true)
  {
    hide PerformStep;
  }

  lemma CopyThenAck(u: Setup, s: State, j: nat, m: nat, message: Message, copies: seq<Copy>, op: Op)
    requires Inv(u, s) && Open(u, s, j, m, message, copies) && !u.autoAck
    requires s.tasks[j].pc == Doing(op) && op.Publish?
    ensures var r := After(u, s, [Perform(j, true), Perform(j, true)]);
            && j < |r.tasks| && m < |r.mail| && r.tasks[j].pc.Finished?
            && r.mail[m] == Mail(message, Acked(j)) && r.copies == copies + [Copy(op.queue, op.message, j)]
  {
    var e, r := Perform(j, true), PerformStep(s, j, op, true);
    hide Inv, Open, PerformStep, After, Step, NextOp;
    OpenIsThere(u, s, j, m, message, copies);
    Publishes(u, s, j, m, message, copies, op);
    OpenIsThere(u, r, j, m, message, copies + [Copy(op.queue, op.message, j)]);
    PerformIs(u, s, j, op);
    InvKept(u, s, e);
    AckFollows(s.tasks[j].x, op);
    AfterOne(u, s, e);
    LastCall(u, r, j, m, message, copies + [Copy(op.queue, op.message, j)], Ack(true));
    assert [e] + [e] == [e, e];
    AfterConcat(u, s, [e], [e]);
  }

  lemma AckFollows(x: Context, op: Op)
    requires op.Publish?
    ensures NextOp(x, op, true) == Do(Ack(true))
  {
  }

  /** A delivery comes to its callback. */
  lemma ToCallback(u: Setup, s: State, m: nat) returns (tape: seq<Input>)
    requires Inv(u, s) && !u.autoAck && m < |s.mail| && s.mail[m].at.Ready?
    requires s.net.channel.Some? && s.busy.None? && !s.stopMe && (u.mode.Offload? ==> s.free > 0)
    ensures var r, j := After(u, s, tape), |s.tasks|;
            && Open(u, r, j, m, s.mail[m].message, s.copies) && r.tasks[j].pc.InCallback?
            && (u.mode.Offload? ==> r.busy.None?)
  {
    assert s.net.conn.Some?;
    hide Inv, Open, DeliverStep, After;
    Delivers(u, s, m);
    AfterOne(u, s, Deliver(m));
    tape := [Deliver(m)];
    if u.mode.Offload? {
      hide Step;
      var more := ToWorker(u, After(u, s, tape), |s.tasks|, m, s.mail[m].message, s.copies);
      AfterConcat(u, s, tape, more);
      tape := tape + more;
    }
  }

  /** An offloaded one takes its permit and is handed to a worker. */
  lemma ToWorker(u: Setup, s: State, j: nat, m: nat, message: Message, copies: seq<Copy>) returns (tape: seq<Input>)
    requires Open(u, s, j, m, message, copies) && s.tasks[j].pc.Arriving? && s.free > 0
    ensures var r := After(u, s, tape);
            Open(u, r, j, m, message, copies) && r.tasks[j].pc.InCallback? && r.busy.None?
  {
    hide Open, TaskStep, After;
    OpenIsThere(u, s, j, m, message, copies);
    var r := TaskStep(s, Acquire(j), j);
    Acquires(u, s, j, m, message, copies);
    OpenIsThere(u, r, j, m, message, copies);
    Submits(u, r, j, m, message, copies);
    AfterOne(u, s, Acquire(j));
    AfterSnoc(u, s, [Acquire(j)], Submit(j, true));
    tape := [Acquire(j)] + [Submit(j, true)];
  }

  lemma OpenIsThere(u: Setup, s: State, j: nat, m: nat, message: Message, copies: seq<Copy>)
    requires Open(u, s, j, m, message, copies)
    ensures j < |s.tasks| && m < |s.mail| && s.tasks[j].x == Context(u.mode, false, u.cfg, message) && s.net.conn.Some?
    ensures s.mail[m].message == message
  {
  }

  /** And from there to its first call, on this thread or, offloaded, by way of the connection's callbacks. */
  lemma ToFirstCall(u: Setup, s: State, j: nat, m: nat, message: Message, copies: seq<Copy>, raised: bool, enqueued: bool)
      returns (tape: seq<Input>)
    requires Open(u, s, j, m, message, copies) && s.tasks[j].pc.InCallback? && (u.mode.Offload? ==> s.busy.None?)
    ensures var r, first := After(u, s, tape), FirstOp(Context(u.mode, false, u.cfg, message), raised);
            first.Do? && Open(u, r, j, m, message, copies) && r.tasks[j].pc == Doing(first.op)
  {
    OpenIsThere(u, s, j, m, message, copies);
    Ends(u, s, j, m, message, copies, raised, enqueued);
    AfterOne(u, s, End(j, raised, enqueued));
    SomeFirst(s.tasks[j].x, raised);
    var s1 := TaskStep(s, End(j, raised, enqueued), j);
    OpenIsThere(u, s1, j, m, message, copies);
    SameConnection(s, End(j, raised, enqueued), j);
    hide Open, TaskStep, After, FirstOp;
    tape := [End(j, raised, enqueued)];
    if u.mode.Offload? && enqueued {
      RunsQueued(u, s1, j, m, message, copies);
      AfterSnoc(u, s, [End(j, raised, enqueued)], RunQueued(j));
      tape := [End(j, raised, enqueued)] + [RunQueued(j)];
    }
  }

  lemma SameConnection(s: State, e: Input, j: nat)
    requires j < |s.tasks|
    ensures TaskStep(s, e, j).net == s.net
  {
  }

  /**
   Without faults, in every mode and whichever way its settlement goes, a delivered message is
   acknowledged if its callback returned; if it raised, it is copied to the dead-letter queue and
   acknowledged when a queue is named and its attempt is at the limit, except by a direct handler, which
   always requeues; and else it is requeued or dead-lettered as `on_error` says.
   */
  lemma FaultlessDelivery(u: Setup, s: State, m: nat, raised: bool, enqueued: bool) returns (tape: seq<Input>)
    requires Inv(u, s) && !u.autoAck && m < |s.mail| && s.mail[m].at.Ready?
    requires s.net.channel.Some? && s.busy.None? && !s.stopMe && (u.mode.Offload? ==> s.free > 0)
    ensures var r, j, message, queue := After(u, s, tape), |s.tasks|, s.mail[m].message, u.cfg.deadLetterQueue;
            var copied := raised && !u.mode.Direct? && queue.Some? && queue.value != ""
                          && Attempt(message.headers) >= u.cfg.maxRetries;
            && j < |r.tasks| && m < |r.mail| && r.tasks[j].pc.Finished?
            && r.mail[m] == Mail(message, if !raised || copied then Acked(j)
                                          else if u.mode.Direct? || u.cfg.onError.Requeue? then Ready
                                          else DeadLettered)
            && r.copies == s.copies + if copied then [Copy(queue.value, message, j)] else []
  {
    var j, message := |s.tasks|, s.mail[m].message;
    var x := Context(u.mode, false, u.cfg, message);
    var a := ToCallback(u, s, m);
    var s1 := After(u, s, a);
    var b := ToFirstCall(u, s1, j, m, message, s.copies, raised, enqueued);
    var s2 := After(u, s1, b);
    InvAlong(u, s, a);
    InvAlong(u, s1, b);
    FirstExact(x, raised);
    hide *;
    var c := MakesItsCalls(u, s2, j, m, message, s.copies, FirstOp(x, raised).op);
    AfterConcat(u, s1, b, c);
    AfterConcat(u, s, a, b + c);
    tape := a + (b + c);
  }

  lemma MakesItsCalls(u: Setup, s: State, j: nat, m: nat, message: Message, copies: seq<Copy>, op: Op)
      returns (tape: seq<Input>)
    requires Inv(u, s) && Open(u, s, j, m, message, copies) && s.tasks[j].pc == Doing(op) && !u.autoAck
    ensures var r := After(u, s, tape);
            && j < |r.tasks| && m < |r.mail| && r.tasks[j].pc.Finished?
            && r.mail[m] == Mail(message, match op
                                          case Nack(requeue) => if requeue then Ready else DeadLettered
                                          case _ => Acked(j))
            && r.copies == copies + if op.Publish? then [Copy(op.queue, op.message, j)] else []
  {
    hide Inv, Open, After;
    OpenIsThere(u, s, j, m, message, copies);
    if op.Publish? {
      CopyThenAck(u, s, j, m, message, copies, op);
      tape := [Perform(j, true), Perform(j, true)];
    } else {
      LastCall(u, s, j, m, message, copies, op);
      tape := [Perform(j, true)];
    }
  }

  lemma FirstExact(x: Context, raised: bool)
    requires !x.autoAck
    ensures var queue := x.cfg.deadLetterQueue;
            FirstOp(x, raised) ==
            if !raised then Do(Ack(false))
            else if x.mode.Direct? then Do(Nack(true))
            else if queue.Some? && queue.value != "" && Attempt(x.message.headers) >= x.cfg.maxRetries
            then Do(Publish(queue.value, x.message))
            else Do(Nack(x.cfg.onError.Requeue?))
  {
  }

  // ---------------------------------------------------------------- the broker's and the environment's moves

  /** A channel that goes gives back all it held and nothing else changes hands. */
  lemma LossRequeues(u: Setup, s: State, e: Input)
    requires e.LoseChannel? || e.LoseConnection?
    ensures var r := Step(u, s, e);
            && r.net.channel.None? && (r.net.conn == if e.LoseChannel? then s.net.conn else None)
            && r.tasks == s.tasks && r.copies == s.copies && |r.mail| == |s.mail|
            && forall m :: 0 <= m < |s.mail| ==>
                 r.mail[m] == if s.mail[m].at.Unsettled? then Mail(s.mail[m].message, Ready) else s.mail[m]
  {
  }

  /** A new channel is a new epoch, and its tags start again from 1. */
  lemma ChannelOpens(u: Setup, s: State)
    requires s.net.conn.Some? && s.net.channel.None?
    ensures var r := Step(u, s, OpenChannel);
            r.net == Net(s.net.conn, Some(s.net.epochs), s.net.conns, s.net.epochs + 1, 1)
  {
  }

  lemma ConnectionOpens(u: Setup, s: State)
    requires s.net.conn.None?
    ensures Step(u, s, Connect).net == s.net.(conn := Some(s.net.conns), conns := s.net.conns + 1)
  {
  }

  /** What arrives is ready, and what the dead-letter route returns is ready again with its new headers. */
  lemma MailComes(u: Setup, s: State, m: nat, message: Message)
    ensures Step(u, s, Arrive(message)).mail == s.mail + [Mail(message, Ready)]
    ensures m < |s.mail| && s.mail[m].at.DeadLettered? ==>
              Step(u, s, ReturnDead(m, message.headers)).mail
              == s.mail[m := Mail(Message(s.mail[m].message.body, message.headers), Ready)]
    ensures m < |s.mail| && !s.mail[m].at.DeadLettered? ==> Step(u, s, ReturnDead(m, message.headers)) == s
  {
  }

  /** Under auto-ack a delivery is the broker's last word on its message; a stopped sync listener ignores it. */
  lemma DeliversOtherwise(u: Setup, s: State, m: nat)
    requires m < |s.mail| && s.mail[m].at.Ready? && s.net.channel.Some? && s.busy.None?
    ensures var r, j := Step(u, s, Deliver(m)), |s.tasks|;
            && |r.tasks| == j + 1 && r.tasks[j].mail == m && r.tasks[j].key == Key(s.net.channel.value, s.net.nextTag)
            && r.mail[m].at == (if u.autoAck then AutoAcked else Unsettled(r.tasks[j].key, j))
            && r.net.nextTag == s.net.nextTag + 1
            && (r.tasks[j].abandoned <==> s.stopMe && !u.mode.Async?)
            && (r.tasks[j].pc.Finished? <==> r.tasks[j].abandoned)
  {
  }

  /** A refused submit hands the delivery and the permit back, unless a stop has come between. */
  lemma RefusalFallsBack(u: Setup, s: State, j: nat)
    requires j < |s.tasks| && s.tasks[j].pc.Submitting?
    ensures var r, t := Step(u, s, Submit(j, false)), s.tasks[j];
            && j < |r.tasks| && r.free == s.free + 1 && r.tasks[j].x == t.x.(mode := Mode.Direct) && !r.tasks[j].holds
            && (if s.stopMe then r.tasks[j].pc.Finished? && r.tasks[j].abandoned else r.tasks[j].pc.InCallback?)
  {
  }

  /** A call that raises, or that does not reach its channel, changes nothing with the broker and is remembered. */
  lemma RaisesLeaveAll(u: Setup, s: State, j: nat, ok: bool)
    requires j < |s.tasks| && s.tasks[j].pc.Doing?
    requires !ok || (if s.tasks[j].x.mode.Async? && s.tasks[j].pc.op.Publish? then s.net.channel.None?
                     else s.net.channel != Some(s.tasks[j].key.epoch))
    ensures var r, t := Step(u, s, Perform(j, ok)), s.tasks[j];
            && j < |r.tasks| && r.mail == s.mail && r.copies == s.copies && r.rejected == s.rejected
            && r.tasks[j].log == t.log + [Done(t.pc.op, false)] && r.tasks[j].accepted == t.accepted
            && r.tasks[j].pc == PcOf(NextOp(t.x, t.pc.op, false))
  {
  }

  /** A poison copy of an async listener goes by its channel of the moment, even if the delivery's own is gone. */
  lemma AsyncCopyGoesByCurrent(u: Setup, s: State, j: nat)
    requires j < |s.tasks| && s.tasks[j].x.mode.Async? && s.tasks[j].pc.Doing? && s.tasks[j].pc.op.Publish?
    requires s.net.channel.Some?
    ensures var r, op := Step(u, s, Perform(j, true)), s.tasks[j].pc.op;
            && j < |r.tasks| && r.copies == s.copies + [Copy(op.queue, op.message, j)]
            && r.tasks[j].pc == Doing(Ack(true)) && r.mail == s.mail
  {
  }

  /** A settlement under a tag that holds nothing is the protocol error the broker counts. */
  lemma DoubleSettlementRefused(u: Setup, s: State, j: nat)
    requires j < |s.tasks| && s.tasks[j].pc.Doing? && !s.tasks[j].pc.op.Publish?
    requires s.net.channel == Some(s.tasks[j].key.epoch)
    requires forall m :: 0 <= m < |s.mail| && s.mail[m].at.Unsettled? ==> s.mail[m].at.key != s.tasks[j].key
    ensures var r := Step(u, s, Perform(j, true));
            r.rejected == s.rejected + 1 && r.mail == s.mail
  {
    hide NextOp;
  }

  /** A stop is seen by whatever looks at the flag after it. */
  lemma StopIsSeen(u: Setup, s: State)
    ensures Step(u, s, StopListening) == s.(stopMe := true)
  {
  }

  /** At first there is no message, no connection and no stop, and every permit is free. */
  lemma AtFirst(u: Setup)
    ensures var s := Init(u);
            && s.mail == [] && s.tasks == [] && s.copies == [] && s.rejected == 0
            && s.net.conn.None? && s.net.channel.None? && s.busy.None? && !s.stopMe && s.free == u.maxInFlight
  {
  }

  /** A cancelled task makes no further call. */
  lemma CancelEnds(u: Setup, s: State, j: nat)
    requires j < |s.tasks| && s.tasks[j].x.mode.Async? && (s.tasks[j].pc.InCallback? || s.tasks[j].pc.Doing?)
    ensures var r := Step(u, s, Cancel(j));
            j < |r.tasks| && r.tasks[j].pc.Finished? && r.tasks[j].abandoned && r.mail == s.mail
  {
  }

  /** Nothing is delivered without a channel, while the I/O thread is busy, or a second time while it is out. */
  lemma DeliversOnlyThen(u: Setup, s: State, m: nat)
    requires m >= |s.mail| || !s.mail[m].at.Ready? || s.net.channel.None? || s.busy.Some?
    ensures Step(u, s, Deliver(m)) == s
  {
  }

  /** The I/O thread is busy with a delivery from its arrival until it is handed to a worker, or is done with. */
  lemma BusyExact(u: Setup, s: State, e: Input, j: nat)
    requires j < |s.tasks| && s.busy == Some(j) && (e.Acquire? || e.Submit? || e.End? || e.Perform?) && e.j == j
    requires (e.Acquire? && s.tasks[j].pc.Arriving? && s.free > 0) || (e.Submit? && s.tasks[j].pc.Submitting?)
          || (e.End? && s.tasks[j].pc.InCallback?) || (e.Perform? && s.tasks[j].pc.Doing?)
    ensures var r := Step(u, s, e);
            && j < |r.tasks|
            && (r.busy == Some(j) || r.busy == None)
            && (r.busy.None? <==> r.tasks[j].pc.Finished? || e == Submit(j, true))
  {
    hide NextOp, FirstOp, Find;
  }

  /** What waits on a connection runs on that connection only, and when its thread is not busy; a sync task is not cancelled. */
  lemma WaitsExact(u: Setup, s: State, j: nat)
    requires j < |s.tasks|
    ensures s.tasks[j].pc.Queued? && (s.net.conn != Some(s.tasks[j].pc.conn) || s.busy.Some?) ==> Step(u, s, RunQueued(j)) == s
    ensures !s.tasks[j].x.mode.Async? ==> Step(u, s, Cancel(j)) == s
    ensures s.tasks[j].holds && !s.tasks[j].pc.Finished? && !s.tasks[j].scheduled ==> Step(u, s, Release(j)) == s
  {
  }

  lemma {:induction false} AfterConcat(u: Setup, s: State, a: seq<Input>, b: seq<Input>)
    ensures After(u, s, a + b) == After(u, After(u, s, a), b)
  {
    if b == [] {
      assert a + b == a;
    } else {
      AfterConcat(u, s, a, b[..|b| - 1]);
      assert (a + b)[..|a + b| - 1] == a + b[..|b| - 1];
    }
  }
}
