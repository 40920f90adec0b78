/** What single steps of the publish backend come to, and what that makes of its heartbeats. */
module BackendSteps {
  import opened RetryPolicies
  import opened BackendMachine
  import opened BackendRuns
  import opened BackendTheorems

  // ---------------------------------------------------------------- heartbeats

  /** A heartbeat that is due on an open connection is sent, whatever was taken, and the next is due an interval later. */
  lemma DuePumpIsMade(c: Config, s: State, a: Answer)
    requires s.pc.Pumping? && c.heartbeat > 0.0
    ensures var t, now := Step(c, s, Go(a)).clock, s.clock.now;
            if now < s.clock.nextHeartbeat then t == s.clock
            else
              && t.now == now && t.nextHeartbeat == now + c.heartbeat
              && t.pumps == if s.link.conn.Conn? && s.link.conn.open then s.clock.pumps + [now] else s.clock.pumps
    ensures c.heartbeat <= 0.0 ==> Step(c, s, Go(a)).clock == s.clock
  {
  }

  /** A wait ends with the head of the queue, if there is one, or with the tick once a heartbeat is due, and else goes on. */
  lemma WaitExact(c: Config, s: State, a: Answer)
    requires s.pc.Waiting?
    ensures var t := Step(c, s, Go(a));
            if s.flow.queue != [] then t.pc == Pumping(Got(s.flow.queue[0]), s.clock.now) && t.flow.queue == s.flow.queue[1..]
            else if c.heartbeat > 0.0 && s.clock.now >= s.clock.nextHeartbeat
            then t == s.(pc := Pumping(HeartbeatTick, s.clock.now))
            else t == s
  {
  }

  /** A start is due a heartbeat at once; a reconnect an interval after it. */
  lemma ScheduleRealigned(c: Config, s: State, a: Answer)
    ensures s.pc.Dead? && !s.control.stopping ==>
              Step(c, s, StartCall).clock == Clock(s.clock.now, s.clock.now, [])
    ensures s.pc.BackingOff? ==> Step(c, s, Go(a)).clock == s.clock.(nextHeartbeat := s.clock.now + c.heartbeat)
  {
  }

  /** No drop, no start, and no call of the thread fails. */
  predicate Undisturbed(tape: seq<Input>) {
    forall i :: 0 <= i < |tape| ==> !tape[i].Drop? && !tape[i].StartCall? && (tape[i].Go? ==> tape[i].answer.ok)
  }

  /** The connection is up, or the thread is on its way out. */
  predicate Up(s: State) {
    && !s.pc.Failing? && !s.pc.BackingOff?
    && (s.pc.Exiting? || s.pc.Dead? || s.link.conn.IsOpen())
  }

  /** Since s the due time has stayed, or was set one interval after the last of the pumps made since. */
  predicate PumpedFor(c: Config, s: Clock, t: Clock) {
    && |s.pumps| <= |t.pumps| && t.pumps[..|s.pumps|] == s.pumps
    && if |t.pumps| == |s.pumps| then t.nextHeartbeat == s.nextHeartbeat
       else t.nextHeartbeat == t.pumps[|t.pumps| - 1] + c.heartbeat
  }

  lemma UpStep(c: Config, s: State, e: Input)
    requires Up(s) && !e.Drop? && !e.StartCall? && (e.Go? ==> e.answer.ok)
    ensures Up(Step(c, s, e)) && PumpedFor(c, s.clock, Step(c, s, e).clock)
  {
    hide BackoffRaises, DelayForAttempt, Enqueue, Dequeue, RecordAttempt, RecordConfirmFailure, NextChannel;
  }

  lemma PumpedOn(c: Config, s: Clock, t: Clock, r: Clock)
    requires PumpedFor(c, s, t) && PumpedFor(c, t, r)
    ensures PumpedFor(c, s, r)
  {
    assert r.pumps[..|s.pumps|] == r.pumps[..|t.pumps|][..|s.pumps|];
  }

  /**
   While the connection holds, every move of the due time is a pump that was made: in any run without a
   drop or a failing call the due time is where it was or one interval after the last pump since.
   */
  lemma {:induction false} PumpsKeepUp(c: Config, s: State, tape: seq<Input>)
    requires Up(s) && Undisturbed(tape)
    ensures Up(After(c, s, tape)) && PumpedFor(c, s.clock, After(c, s, tape).clock)
  {
    if tape != [] {
      var front := After(c, s, tape[..|tape| - 1]);
      hide Step, Up, PumpedFor;
      PumpsKeepUp(c, s, tape[..|tape| - 1]);
      UpStep(c, front, tape[|tape| - 1]);
      PumpedOn(c, s.clock, front.clock, Step(c, front, tape[|tape| - 1]).clock);
    } else {
      assert PumpedFor(c, s.clock, s.clock);
    }
  }

  // ---------------------------------------------------------------- the connection

  /** A connection that is open is kept with its channels; one that is not is replaced by a new one without any, or not at all. */
  lemma ConnectExact(c: Config, s: State, a: Answer)
    requires s.pc.Ensuring?
    ensures var t := Step(c, s, Go(a));
            if s.link.conn.Conn? && s.link.conn.open then t.pc.OpeningChannels? && t.link == s.link && t.account == s.account
            else if a.ok then
              && t.pc.OpeningChannels? && t.link.conn == Conn(s.link.connectionsCreated, true) && t.link.channels == []
              && t.link.chIndex == 0 && t.link.connectionsCreated == s.link.connectionsCreated + 1
              && t.account == s.account.(connectionsOpened := s.account.connectionsOpened + 1)
            else t.pc == Failing(ConnectError) && t.link == s.link && t.account == s.account
  {
  }

  /** A missing channel is opened and kept even if its confirms cannot be set up, which is counted as a failed publish. */
  lemma ChannelExact(c: Config, s: State, a: Answer)
    requires s.pc.OpeningChannels? && |s.link.channels| < c.channels
    ensures var t := Step(c, s, Go(a));
            && (a.ok ==> t.pc.OpeningChannels? && |t.link.channels| == |s.link.channels| + 1
                         && t.link.channelsCreated == s.link.channelsCreated + 1)
            && (!a.ok ==> t.pc == Failing(ConnectError) && t.link == s.link)
            && t.flow == if a.ok && c.confirm && !a.confirmOk
                         then s.flow.(publishFailed := s.flow.publishFailed + 1, confirmFailures := s.flow.confirmFailures + 1)
                         else s.flow
  {
  }

  /** Leaving a connection closes it if it is open, and counts the close exactly if it does not raise. */
  lemma CloseExact(c: Config, s: State, a: Answer)
    requires s.pc.BackingOff? || s.pc.Exiting?
    ensures var t := Step(c, s, Go(a));
            && t.link.conn.NoConn? && t.link.channels == [] && t.flow == s.flow
            && (t.pc == if s.pc.Exiting? then Dead else AtHead)
            && t.account == if !(s.link.conn.Conn? && s.link.conn.open) then s.account
                            else if a.ok then s.account.(connectionsClosed := s.account.connectionsClosed + 1)
                            else s.account.(closeRaised := s.account.closeRaised + 1)
  {
  }

  /** A publish is one attempt; if it raises the iteration fails, with the request spent. */
  lemma PublishExact(c: Config, s: State, a: Answer)
    requires s.pc.Publishing?
    ensures var t := Step(c, s, Go(a));
            && t.pc == (if a.ok then AtHead else Failing(PublishError))
            && |t.flow.attempts| == |s.flow.attempts| + 1
            && t.flow.attempts[|s.flow.attempts|].request == s.pc.request
            && t.flow.attempts[|s.flow.attempts|].ok == a.ok
            && t.flow.queue == s.flow.queue && t.flow.unfinished == s.flow.unfinished - 1
  {
  }

  // ---------------------------------------------------------------- the other threads

  /** A put is accepted, at the end of the queue, exactly when the queue has no bound or is below it. */
  lemma PutExact(c: Config, s: State, r: PublishRequest)
    ensures var t := Step(c, s, Put(r));
            if c.maxsize == 0 || |s.flow.queue| < c.maxsize
            then t.flow.queue == s.flow.queue + [Request(r)] && t.flow.accepted == s.flow.accepted + [r]
                 && t == s.(flow := t.flow)
            else t == s
  {
  }

  /** A stop sets the event once; its sentinel goes in by the same rule as a put. */
  lemma StopExact(c: Config, s: State)
    ensures var t := Step(c, s, StopCall);
            t == if s.control.stopEvent || s.control.stopping then s
                 else s.(control := s.control.(stopEvent := true, stopping := true, stops := s.control.stops + 1))
    ensures var t := Step(c, s, StopPut);
            if s.control.stopping && (c.maxsize == 0 || |s.flow.queue| < c.maxsize)
            then t.flow.queue == s.flow.queue + [Sentinel] && t.flow.accepted == s.flow.accepted
                 && t == s.(flow := t.flow, control := s.control.(stopping := false))
            else t == s.(control := s.control.(stopping := false))
  {
  }

  /** A start finds a live thread, or makes a new one that has nothing of the old but the queue and the counts. */
  lemma StartExact(c: Config, s: State)
    ensures var t := Step(c, s, StartCall);
            if s.pc.Dead? && !s.control.stopping
            then t.pc.AtHead? && !t.control.stopEvent && t.control.starts == s.control.starts + 1
                 && t.link.conn.NoConn? && t.link.channels == [] && t.link.chIndex == 0
                 && t.flow == s.flow && t.retry == s.retry && t.account == s.account
            else t == s
  {
  }

  /** A drop loses an open connection, and time only goes forward. */
  lemma WorldExact(c: Config, s: State, time: real)
    ensures var t := Step(c, s, Drop);
            if s.link.conn.Conn? && s.link.conn.open
            then t == s.(link := s.link.(conn := Conn(s.link.conn.epoch, false)), account := s.account.(lost := s.account.lost + 1))
            else t == s
    ensures var t := Step(c, s, Elapse(time));
            t == s.(clock := s.clock.(now := if time < 0.0 then s.clock.now else s.clock.now + time))
  {
  }
}
