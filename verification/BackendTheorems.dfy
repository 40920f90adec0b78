/** The publish backend's guarantees, over every tape of inputs. */
module BackendTheorems {
  import opened RetryPolicies
  import opened BackendMachine
  import opened BackendRuns

  /** The state a fresh backend is in after a tape. */
  function Run(c: Config, tape: seq<Input>): State {
    After(c, Init(), tape)
  }

  lemma {:induction false} RunsKeepInv(c: Config, tape: seq<Input>)
    requires c.Valid()
    ensures Inv(c, Run(c, tape))
  {
    if tape != [] {
      hide Inv, Step;
      RunsKeepInv(c, tape[..|tape| - 1]);
      InvKept(c, Run(c, tape[..|tape| - 1]), tape[|tape| - 1]);
    }
  }

  // ---------------------------------------------------------------- conservation and order

  lemma {:induction false} RequestsOnly(queue: seq<Item>)
    ensures |Requests(queue)| + Sentinels(queue) == |queue|
  {
    if queue != [] {
      RequestsOnly(queue[1..]);
    }
  }

  /**
   In every run the i-th attempt is of the i-th accepted request, whatever was dropped, retried or
   restarted in between; what has not been attempted is the one request in hand or still queued.
   */
  lemma AcceptedAttemptedInOrder(c: Config, tape: seq<Input>)
    requires c.Valid()
    ensures var s := Run(c, tape);
            var f := s.flow;
            && |f.accepted| == |f.attempts| + |InHand(s.pc)| + |f.queue| - Sentinels(f.queue)
            && |f.attempts| <= |f.accepted|
            && (forall i :: 0 <= i < |f.attempts| ==> f.attempts[i].request == f.accepted[i])
            && f.accepted == Attempted(f.attempts) + InHand(s.pc) + Requests(f.queue)
            && f.published == Succeeded(f.attempts)
            && f.published + f.publishFailed == |f.attempts| + f.confirmFailures
  {
    RunsKeepInv(c, tape);
    RequestsOnly(Run(c, tape).flow.queue);
  }

  predicate Extends<T(==)>(longer: seq<T>, shorter: seq<T>) {
    |shorter| <= |longer| && longer[..|shorter|] == shorter
  }

  /** `t` has everything that had happened in `f`. */
  predicate Later(t: Flow, f: Flow) {
    && Extends(t.accepted, f.accepted)
    && Extends(t.taken, f.taken)
    && Extends(t.attempts, f.attempts)
  }

  lemma StepIsLater(c: Config, s: State, e: Input)
    ensures Later(Step(c, s, e).flow, s.flow)
  {
  }

  /** Nothing accepted, taken or attempted is ever forgotten or reordered. */
  lemma {:induction false} HistoryOnlyGrows(c: Config, s: State, tape: seq<Input>)
    ensures Later(After(c, s, tape).flow, s.flow)
  {
    if tape != [] {
      hide Step;
      HistoryOnlyGrows(c, s, tape[..|tape| - 1]);
      StepIsLater(c, After(c, s, tape[..|tape| - 1]), tape[|tape| - 1]);
    }
  }

  // ---------------------------------------------------------------- channels

  /** The number of j below k with j % n == ch. */
  function Share(k: nat, n: nat, ch: nat): nat
    requires n >= 1
  {
    if k == 0 then 0 else Share(k - 1, n, ch) + (if (k - 1) % n == ch then 1 else 0)
  }

  lemma {:induction false} ShareExact(k: nat, n: nat, ch: nat)
    requires n >= 1
    ensures ch < n ==> Share(k, n, ch) == k / n + (if ch < k % n then 1 else 0)
    ensures ch >= n ==> Share(k, n, ch) == 0
  {
    if k == 0 {
      assert 0 / n == 0 && 0 % n == 0;
    } else {
      ShareExact(k - 1, n, ch);
      DivStep(k - 1, n);
    }
  }

  lemma DivStep(k: nat, n: nat)
    requires n >= 1
    ensures k % n + 1 < n ==> (k + 1) / n == k / n && (k + 1) % n == k % n + 1
    ensures k % n + 1 == n ==> (k + 1) / n == k / n + 1 && (k + 1) % n == 0
  {
    var q, r := k / n, k % n;
    assert k == q * n + r;
    if r + 1 < n {
      DivUnique(k + 1, n, q, r + 1);
    } else {
      assert k + 1 == (q + 1) * n;
      DivUnique(k + 1, n, q + 1, 0);
    }
  }

  lemma DivUnique(k: nat, n: nat, q: nat, r: nat)
    requires n >= 1 && k == q * n + r && r < n
    ensures k / n == q && k % n == r
  {
    var d := k / n - q;
    assert d * n == r - k % n;
    MultipleIsFar(d, n);
  }

  lemma MultipleIsFar(d: int, n: int)
    requires n >= 1
    ensures d >= 1 ==> d * n >= n
    ensures d <= -1 ==> d * n <= -n
  {
  }

  lemma {:induction false} OnChannelIsShare(n: nat, attempts: seq<Attempt>, epoch: nat, ch: nat)
    requires n >= 1 && RoundRobinLog(n, attempts)
    ensures OnChannel(attempts, epoch, ch) == Share(InEpoch(attempts, epoch), n, ch)
  {
    if attempts != [] {
      OnChannelIsShare(n, attempts[..|attempts| - 1], epoch, ch);
    }
  }

  /**
   In every run, of the k attempts made on one connection channel ch got k/N, and one more exactly
   when ch is among the first k%N; so two channels of a connection never differ by more than one.
   */
  lemma ChannelsShareFairly(c: Config, tape: seq<Input>, epoch: nat, a: nat, b: nat)
    requires c.Valid() && a < c.channels && b < c.channels
    ensures var attempts := Run(c, tape).flow.attempts;
            var k := InEpoch(attempts, epoch);
            && OnChannel(attempts, epoch, a) == k / c.channels + (if a < k % c.channels then 1 else 0)
            && -1 <= OnChannel(attempts, epoch, a) - OnChannel(attempts, epoch, b) <= 1
  {
    RunsKeepInv(c, tape);
    var attempts := Run(c, tape).flow.attempts;
    OnChannelIsShare(c.channels, attempts, epoch, a);
    OnChannelIsShare(c.channels, attempts, epoch, b);
    ShareExact(InEpoch(attempts, epoch), c.channels, a);
    ShareExact(InEpoch(attempts, epoch), c.channels, b);
  }

  /** At every publish there are N channels, all of the current connection, and no connection got more than N. */
  lemma PublishOnCurrentChannels(c: Config, tape: seq<Input>)
    requires c.Valid()
    ensures var s := Run(c, tape);
            && (s.pc.Publishing? ==>
                  && |s.link.channels| == c.channels
                  && s.link.conn.Conn? && s.link.conn.epoch == s.link.connectionsCreated - 1
                  && (forall i :: 0 <= i < c.channels ==> s.link.channels[i] == s.link.conn.epoch))
            && s.link.channelsCreated <= c.channels * s.link.connectionsCreated
  {
    RunsKeepInv(c, tape);
  }

  // ---------------------------------------------------------------- stopping

  /** How many requests the I/O thread may still take once a stop is requested. */
  function TakesLeft(pc: Pc): nat {
    if pc.Ensuring? || pc.OpeningChannels? || pc.Waiting? then 1 else 0
  }

  predicate NoStart(tape: seq<Input>) {
    forall i :: 0 <= i < |tape| ==> !tape[i].StartCall?
  }

  predicate NoStop(tape: seq<Input>) {
    forall i :: 0 <= i < |tape| ==> !tape[i].StopCall?
  }

  lemma StoppedStep(c: Config, s: State, e: Input)
    requires s.control.stopEvent && !e.StartCall?
    ensures var t := Step(c, s, e);
            && t.control.stopEvent
            && |t.flow.taken| + TakesLeft(t.pc) <= |s.flow.taken| + TakesLeft(s.pc)
            && (s.pc.AtHead? && e.Go? ==> t.pc.Exiting?)
            && (s.pc.Dead? || s.pc.Exiting? ==> t.pc.Dead? || t.pc.Exiting?)
  {
  }

  /**
   From the moment the stop event is set until a later start, at most one more request is taken, none
   if the thread is past its wait, and a thread at the head of its loop leaves it.
   */
  lemma {:induction false} StopTakesAtMostOne(c: Config, s: State, tape: seq<Input>)
    requires s.control.stopEvent && NoStart(tape)
    ensures var t := After(c, s, tape);
            && t.control.stopEvent
            && |t.flow.taken| + TakesLeft(t.pc) <= |s.flow.taken| + TakesLeft(s.pc)
            && (s.pc.Dead? || s.pc.Exiting? ==> t.pc.Dead? || t.pc.Exiting?)
  {
    if tape != [] {
      hide Step;
      StopTakesAtMostOne(c, s, tape[..|tape| - 1]);
      StoppedStep(c, After(c, s, tape[..|tape| - 1]), tape[|tape| - 1]);
    }
  }

  /** A thread that a completed stop may find waiting, or on its way there, has something to take. */
  ghost predicate Woken(s: State) {
    s.control.stopEvent && !s.control.stopping && (s.pc.Ensuring? || s.pc.OpeningChannels? || s.pc.Waiting?) ==>
      s.flow.queue != []
  }

  lemma WokenKept(c: Config, s: State, e: Input)
    requires Woken(s)
    ensures Woken(Step(c, s, e))
  {
    hide BackoffRaises, DelayForAttempt, Dequeue, Pump, Close, Connect, OpenChannel, RecordAttempt, NextChannel;
  }

  lemma {:induction false} RunsKeepWoken(c: Config, tape: seq<Input>)
    ensures Woken(Run(c, tape))
  {
    if tape != [] {
      hide Step, Woken;
      RunsKeepWoken(c, tape[..|tape| - 1]);
      WokenKept(c, Run(c, tape[..|tape| - 1]), tape[|tape| - 1]);
    } else {
      assert Woken(Init());
    }
  }

  /** The most steps the I/O thread has before it after a stop. */
  function StepsLeft(c: Config, s: State): nat {
    match s.pc
    case Dead => 0
    case Exiting => 1
    case AtHead => 2
    case BackingOff => 3
    case Failing(_) => 4
    case Publishing(_, _) => 5
    case Pumping(_, _) => 6
    case Waiting => 7
    case OpeningChannels => 8 + (if |s.link.channels| < c.channels then c.channels - |s.link.channels| else 0)
    case Ensuring => 9 + c.channels
  }

  /** The number of steps of the I/O thread on a tape. */
  function Goes(tape: seq<Input>): nat {
    if tape == [] then 0 else Goes(tape[..|tape| - 1]) + (if tape[|tape| - 1].Go? then 1 else 0)
  }

  ghost predicate Stopped(s: State) {
    s.control.stopEvent && !s.control.stopping && Woken(s)
  }

  lemma EndingStep(c: Config, s: State, e: Input)
    requires Stopped(s) && !e.StartCall?
    ensures var t := Step(c, s, e);
            && Stopped(t)
            && StepsLeft(c, t) <= StepsLeft(c, s)
            && (e.Go? && !s.pc.Dead? ==> StepsLeft(c, t) < StepsLeft(c, s))
  {
    hide BackoffRaises, DelayForAttempt, Dequeue, Pump, Close, RecordAttempt, NextChannel, AfterPump;
    if e.Go? && s.pc.Pumping? {
      PumpLeadsOn(s.pc.taken, s.pc.at);
    }
  }

  lemma PumpLeadsOn(taken: Taken, at: real)
    ensures var pc := AfterPump(taken, at); pc.AtHead? || pc.Exiting? || pc.Publishing?
  {
  }

  lemma {:induction false} StopEndsFrom(c: Config, s: State, tape: seq<Input>)
    requires Stopped(s) && NoStart(tape)
    ensures var t := After(c, s, tape);
            && Stopped(t)
            && (t.pc.Dead? || StepsLeft(c, t) + Goes(tape) <= StepsLeft(c, s))
  {
    if tape != [] {
      hide Step, Stopped, StepsLeft;
      StopEndsFrom(c, s, tape[..|tape| - 1]);
      EndingStep(c, After(c, s, tape[..|tape| - 1]), tape[|tape| - 1]);
      DeadHasNone(c, After(c, s, tape[..|tape| - 1]));
      DeadHasNone(c, After(c, s, tape));
    }
  }

  lemma DeadHasNone(c: Config, s: State)
    ensures StepsLeft(c, s) == 0 <==> s.pc.Dead?
    ensures StepsLeft(c, s) <= c.channels + 9
  {
  }

  /**
   A completed stop ends the thread, until a later start: within channels + 9 of the thread's own steps,
   whatever they meet and whoever runs in between, and even if there are no heartbeats to wake it and its
   sentinel found no room.
   */
  lemma StopEndsThread(c: Config, before: seq<Input>, after: seq<Input>)
    requires Run(c, before).control.stopEvent && !Run(c, before).control.stopping && NoStart(after)
    requires Goes(after) >= c.channels + 9
    ensures After(c, Run(c, before), after).pc.Dead?
  {
    RunsKeepWoken(c, before);
    StopEndsFrom(c, Run(c, before), after);
    hide Step, After, Woken, StepsLeft;
    DeadHasNone(c, Run(c, before));
    DeadHasNone(c, After(c, Run(c, before), after));
  }

  lemma {:induction false} StopsUnchanged(c: Config, s: State, tape: seq<Input>)
    requires NoStop(tape)
    ensures After(c, s, tape).control.stops == s.control.stops
    ensures After(c, s, tape).control.starts >= s.control.starts
  {
    if tape != [] {
      hide Step;
      StopsUnchanged(c, s, tape[..|tape| - 1]);
      StopsStep(c, After(c, s, tape[..|tape| - 1]), tape[|tape| - 1]);
    }
  }

  lemma StopsStep(c: Config, s: State, e: Input)
    requires !e.StopCall?
    ensures Step(c, s, e).control.stops == s.control.stops
    ensures Step(c, s, e).control.starts >= s.control.starts
  {
    hide BackoffRaises, DelayForAttempt, Enqueue, Dequeue, Pump, Close, Connect, OpenChannel, RecordAttempt, NextChannel;
  }

  /**
   A backend that was started and never stopped has a live thread after all its starts but those that
   ended in a raising backoff.  Heartbeats, drops and errors, in any number, end none.
   */
  lemma OnlyBackoffsKill(c: Config, tape: seq<Input>)
    requires c.Valid() && NoStop(tape)
    ensures var s := Run(c, tape);
            s.control.starts == Crashes(s.retry.log) + (if Alive(s.pc) then 1 else 0)
  {
    RunsKeepInv(c, tape);
    StopsUnchanged(c, Init(), tape);
  }

  /** Sentinels queued or consumed never outnumber the stops that got past their guard. */
  lemma SentinelsBounded(c: Config, tape: seq<Input>)
    requires c.Valid()
    ensures var s := Run(c, tape);
            Sentinels(s.flow.queue) + s.flow.sentinelsTaken + (if s.control.stopping then 1 else 0) <= s.control.stops
  {
    RunsKeepInv(c, tape);
  }

  // ---------------------------------------------------------------- restarting

  ghost predicate CleanlyRunning(s: State) {
    && !s.control.stopEvent && !s.control.stopping
    && Alive(s.pc)
    && Sentinel !in s.flow.queue
  }

  lemma {:induction false} CleanRunsOn(c: Config, s: State, tape: seq<Input>)
    requires CleanlyRunning(s) && NoStop(tape) && AlwaysSafe(c.policy, true)
    ensures CleanlyRunning(After(c, s, tape))
  {
    if tape != [] {
      CleanRunsOn(c, s, tape[..|tape| - 1]);
      hide AlwaysSafe;
      CleanStep(c, After(c, s, tape[..|tape| - 1]), tape[|tape| - 1]);
    }
  }

  lemma CleanStep(c: Config, s: State, e: Input)
    requires CleanlyRunning(s) && !e.StopCall? && AlwaysSafe(c.policy, true)
    ensures CleanlyRunning(Step(c, s, e))
  {
    if e.Go? {
      AlwaysSafeNeverRaises(c.policy, true, s.retry.failures + 2, e.answer.draw);
    }
    hide AlwaysSafe, BackoffRaises, DelayForAttempt;
  }

  const FINE := Go(Answer(true, true, 0.0))

  /** The I/O thread takes n steps in which every call succeeds and no other thread does anything. */
  function Steady(n: nat): (tape: seq<Input>)
    ensures |tape| == n && NoStop(tape) && NoStart(tape)
  {
    seq(n, _ => FINE)
  }

  lemma SteadyStep(c: Config, s: State, n: nat)
    requires n >= 1
    ensures After(c, s, Steady(n)) == Step(c, After(c, s, Steady(n - 1)), FINE)
  {
    assert Steady(n)[..n - 1] == Steady(n - 1);
  }

  lemma {:induction false} SteadyConcat(c: Config, s: State, m: nat, n: nat)
    ensures After(c, s, Steady(m + n)) == After(c, After(c, s, Steady(m)), Steady(n))
  {
    assert Steady(m + n) == Steady(m) + Steady(n);
    AfterConcat(c, s, Steady(m), Steady(n));
  }

  /** The distance, in steady steps, to taking the next item. */
  function StepsToWait(c: Config, s: State): nat {
    match s.pc
    case AtHead => 3 + c.channels
    case Ensuring => 2 + c.channels
    case OpeningChannels => 1 + (if |s.link.channels| < c.channels then c.channels - |s.link.channels| else 0)
    case _ => 0
  }

  ghost predicate TowardsWait(c: Config, s: State) {
    && !s.control.stopEvent
    && (s.pc.AtHead? || s.pc.Ensuring? || s.pc.OpeningChannels? || (s.pc.Waiting? && s.retry.failures == 0))
  }

  /** In a steady run the thread comes to wait, with what it is to publish as it was. */
  lemma {:induction false} ReachesWait(c: Config, s: State) returns (n: nat)
    requires TowardsWait(c, s)
    ensures var t := After(c, s, Steady(n));
            TowardsWait(c, t) && t.pc.Waiting? && t.flow == s.flow
    decreases StepsToWait(c, s)
  {
    if s.pc.Waiting? {
      n := 0;
    } else {
      var t := Step(c, s, FINE);
      var m := ReachesWait(c, t);
      n := 1 + m;
      SteadyConcat(c, s, 1, m);
      SteadyStep(c, s, 1);
    }
  }

  /** The position of the first sentinel. */
  function FirstSentinel(queue: seq<Item>): (k: nat)
    requires Sentinel in queue
    ensures k < |queue| && queue[k].Sentinel? && forall j :: 0 <= j < k ==> queue[j].Request?
  {
    if queue[0].Sentinel? then 0 else 1 + FirstSentinel(queue[1..])
  }

  /** Three steady steps from a wait with something queued: the item is taken, pumped for and acted on. */
  lemma ActsOnItem(c: Config, s: State)
    requires s.pc.Waiting? && !s.control.stopEvent && s.flow.queue != []
    ensures var t := After(c, s, Steady(3));
            && t.flow.queue == s.flow.queue[1..]
            && !t.control.stopEvent
            && (s.flow.queue[0].Request? ==> t.pc.AtHead? && t.flow.taken == s.flow.taken + [s.flow.queue[0].request])
            && (s.flow.queue[0].Sentinel? ==> t.pc.Dead? && t.flow.taken == s.flow.taken)
  {
    SteadyStep(c, s, 1);
    SteadyStep(c, s, 2);
    SteadyStep(c, s, 3);
  }

  lemma NothingAhead(queue: seq<Item>)
    requires queue != [] && queue[0].Sentinel?
    ensures Sentinel in queue && FirstSentinel(queue) == 0 && Requests(queue[..0]) == []
  {
    assert queue[0] == Sentinel;
  }

  lemma OneAhead(queue: seq<Item>)
    requires Sentinel in queue && queue[0].Request?
    ensures Sentinel in queue[1..]
    ensures var k := FirstSentinel(queue[1..]);
            && FirstSentinel(queue) == k + 1
            && Requests(queue[..k + 1]) == [queue[0].request] + Requests(queue[1..][..k])
            && queue[k + 2..] == queue[1..][k + 1..]
  {
    var k := FirstSentinel(queue[1..]);
    assert queue[..k + 1][1..] == queue[1..][..k];
  }

  /**
   With a sentinel in the queue the thread, left alone and with every call succeeding, publishes what is
   ahead of the first sentinel, dies without a stop having been asked of it, and leaves the rest queued.
   */
  lemma {:induction false} DiesAtSentinel(c: Config, s: State) returns (n: nat)
    requires TowardsWait(c, s) && Sentinel in s.flow.queue
    ensures var t := After(c, s, Steady(n));
            var k := FirstSentinel(s.flow.queue);
            && t.pc.Dead? && !t.control.stopEvent
            && t.flow.queue == s.flow.queue[k + 1..]
            && t.flow.taken == s.flow.taken + Requests(s.flow.queue[..k])
    decreases |s.flow.queue|
  {
    hide Step;
    var queue := s.flow.queue;
    var m := ReachesWait(c, s);
    var w := After(c, s, Steady(m));
    ActsOnItem(c, w);
    var t := After(c, w, Steady(3));
    SteadyConcat(c, s, m, 3);
    hide TowardsWait, After, Steady, Requests, FirstSentinel;
    if queue[0].Sentinel? {
      n := m + 3;
      NothingAhead(queue);
    } else {
      OneAhead(queue);
      var r := DiesAtSentinel(c, t);
      n := m + 3 + r;
      SteadyConcat(c, s, m + 3, r);
    }
  }

  // ---------------------------------------------------------------- going past a sentinel

  lemma {:induction false} FirstSentinelIs(queue: seq<Item>, k: nat)
    requires k < |queue| && queue[k].Sentinel? && forall j :: 0 <= j < k ==> queue[j].Request?
    ensures Sentinel in queue && FirstSentinel(queue) == k
  {
    assert queue[k] == Sentinel;
    if k > 0 {
      FirstSentinelIs(queue[1..], k - 1);
    }
  }

  /** `due` is all the thread may have taken when it meets the first sentinel, or it has met it. */
  ghost predicate Heading(s: State, due: seq<PublishRequest>) {
    || (Sentinel in s.flow.queue && s.flow.taken + Requests(s.flow.queue[..FirstSentinel(s.flow.queue)]) == due)
    || (s.flow.taken == due && !Alive(s.pc))
  }

  lemma HeadingAppend(f: Flow, item: Item)
    requires Sentinel in f.queue
    ensures var queue := f.queue + [item];
            && Sentinel in queue
            && queue[..FirstSentinel(queue)] == f.queue[..FirstSentinel(f.queue)]
  {
    FirstSentinelIs(f.queue + [item], FirstSentinel(f.queue));
  }

  lemma HeadingDequeue(f: Flow)
    requires Sentinel in f.queue && f.queue[0].Request?
    ensures var g := Dequeue(f);
            && Sentinel in g.queue
            && g.taken + Requests(g.queue[..FirstSentinel(g.queue)]) == f.taken + Requests(f.queue[..FirstSentinel(f.queue)])
  {
    var k := FirstSentinel(f.queue);
    FirstSentinelIs(f.queue[1..], k - 1);
    assert f.queue[..k][1..] == f.queue[1..][..k - 1];
  }

  lemma HeadingKept(c: Config, s: State, e: Input, due: seq<PublishRequest>)
    requires Heading(s, due) && !e.StartCall?
    ensures Heading(Step(c, s, e), due)
  {
    hide BackoffRaises, DelayForAttempt, Connect, OpenChannel, Close, Pump, NextChannel, FirstSentinel, Requests;
    if Sentinel in s.flow.queue && !(s.flow.taken == due && !Alive(s.pc)) {
      HeadingAppend(s.flow, Sentinel);
      if e.Put? {
        HeadingAppend(s.flow, Request(e.request));
      } else if e.Go? && s.pc.Waiting? {
        if s.flow.queue[0].Request? {
          HeadingDequeue(s.flow);
        } else {
          NothingAhead(s.flow.queue);
        }
      }
    }
  }

  lemma {:induction false} HeadingAlong(c: Config, s: State, tape: seq<Input>, due: seq<PublishRequest>)
    requires Heading(s, due) && NoStart(tape)
    ensures Heading(After(c, s, tape), due)
  {
    if tape != [] {
      hide Step, Heading;
      HeadingAlong(c, s, tape[..|tape| - 1], due);
      HeadingKept(c, After(c, s, tape[..|tape| - 1]), tape[|tape| - 1], due);
    }
  }

  /** With a sentinel in the queue, no run without a new start ever takes a request that is behind it. */
  lemma NeverPastSentinel(c: Config, s: State, tape: seq<Input>)
    requires Sentinel in s.flow.queue && NoStart(tape)
    ensures Extends(s.flow.taken + Requests(s.flow.queue[..FirstSentinel(s.flow.queue)]), After(c, s, tape).flow.taken)
  {
    HeadingAlong(c, s, tape, s.flow.taken + Requests(s.flow.queue[..FirstSentinel(s.flow.queue)]));
  }

  // ---------------------------------------------------------------- failing until the backoff raises

  const FAIL := Go(Answer(false, true, 0.0))

  /** One iteration whose connect fails. */
  const OUTAGE := [FINE, FAIL, FAIL, FAIL]

  ghost predicate Failed(s: State, failures: nat) {
    s.pc.AtHead? && !s.control.stopEvent && s.link.conn.NoConn? && s.retry.failures == failures
  }

  lemma AfterOutage(c: Config, s: State)
    ensures After(c, s, OUTAGE) == Step(c, Step(c, Step(c, Step(c, s, FINE), FAIL), FAIL), FAIL)
  {
    hide Step;
    var a, b := FINE, FAIL;
    assert [a, b, b, b][..3] == [a, b, b] && [a, b, b][..2] == [a, b] && [a, b][..1] == [a];
    AfterOne(c, s, a);
    assert After(c, s, [a, b]) == Step(c, Step(c, s, a), b);
    assert After(c, s, [a, b, b]) == Step(c, Step(c, Step(c, s, a), b), b);
  }

  lemma OneOutage(c: Config, s: State, failures: nat)
    requires Failed(s, failures)
    ensures var t := After(c, s, OUTAGE);
            if BackoffRaises(c.policy, true, failures + 2, 0.0) then t.pc.Dead? else Failed(t, failures + 1)
  {
    AfterOutage(c, s);
    hide BackoffRaises, DelayForAttempt;
  }

  lemma NoStopConcat(a: seq<Input>, b: seq<Input>)
    requires NoStop(a) && NoStop(b)
    ensures NoStop(a + b)
  {
  }

  /** Failing on, the thread comes to a backoff that raises, if there is one for more failures than it has had. */
  lemma {:induction false} DiesFailing(c: Config, s: State, failures: nat, n: nat) returns (tape: seq<Input>)
    requires Failed(s, failures) && failures <= n && BackoffRaises(c.policy, true, n + 2, 0.0)
    ensures NoStop(tape) && After(c, s, tape).pc.Dead?
    decreases n - failures
  {
    OneOutage(c, s, failures);
    if BackoffRaises(c.policy, true, failures + 2, 0.0) {
      tape := OUTAGE;
    } else {
      var t := After(c, s, OUTAGE);
      var rest := DiesFailing(c, t, failures + 1, n);
      tape := OUTAGE + rest;
      AfterConcat(c, s, OUTAGE, rest);
      NoStopConcat(OUTAGE, rest);
    }
  }

  /** From a wait, a request that is taken, pumped for and not published is a first failure in a row. */
  const REFUSAL := [FINE, FINE, FAIL, FAIL, FAIL]

  lemma AfterRefusal(c: Config, s: State)
    ensures After(c, s, REFUSAL) == Step(c, Step(c, Step(c, Step(c, Step(c, s, FINE), FINE), FAIL), FAIL), FAIL)
  {
    hide Step;
    var a, b := FINE, FAIL;
    assert [a, a, b, b, b][..4] == [a, a, b, b] && [a, a, b, b][..3] == [a, a, b];
    assert [a, a, b][..2] == [a, a] && [a, a][..1] == [a];
    AfterOne(c, s, a);
    assert After(c, s, [a, a]) == Step(c, Step(c, s, a), a);
    assert After(c, s, [a, a, b]) == Step(c, Step(c, Step(c, s, a), a), b);
  }

  lemma RefusalFails(c: Config, s: State)
    requires s.pc.Waiting? && !s.control.stopEvent && s.retry.failures == 0
    requires s.flow.queue != [] && s.flow.queue[0].Request?
    ensures var t := After(c, s, REFUSAL);
            if BackoffRaises(c.policy, true, 2, 0.0) then t.pc.Dead? else Failed(t, 1)
  {
    AfterRefusal(c, s);
    hide BackoffRaises, DelayForAttempt;
  }

  /** A backoff that raises after a refused publish leaves the connection open: the handler closes only after its sleep. */
  lemma CrashLeavesOpen(c: Config, s: State)
    requires s.pc.Waiting? && !s.control.stopEvent && s.retry.failures == 0 && s.link.conn.IsOpen()
    requires s.flow.queue != [] && s.flow.queue[0].Request? && BackoffRaises(c.policy, true, 2, 0.0)
    ensures var t := After(c, s, REFUSAL);
            && t.pc.Dead? && t.account.abandoned == s.account.abandoned + 1
            && t.account.connectionsClosed == s.account.connectionsClosed
  {
    AfterRefusal(c, s);
    hide BackoffRaises, DelayForAttempt;
  }

  ghost predicate Connected(s: State) {
    s.pc.OpeningChannels? || s.pc.Waiting? ==> s.link.conn.IsOpen()
  }

  lemma {:induction false} StaysConnected(c: Config, s: State, n: nat)
    requires Connected(s)
    ensures Connected(After(c, s, Steady(n)))
  {
    if n > 0 {
      StaysConnected(c, s, n - 1);
      SteadyStep(c, s, n);
      hide After, Steady, BackoffRaises, DelayForAttempt, Dequeue, Pump, RecordAttempt, NextChannel;
    }
  }

  /** Such a wait is reached: a start, no fault up to it, and one request. */
  lemma CrashReached(c: Config, r: PublishRequest) returns (tape: seq<Input>)
    requires BackoffRaises(c.policy, true, 2, 0.0)
    ensures NoStop(tape) && Run(c, tape).pc.Dead? && Run(c, tape).account.abandoned >= 1
  {
    hide Step, BackoffRaises;
    var t := StartStep(Init());
    AfterOne(c, Init(), StartCall);
    FirstStart(c);
    var m := ReachesWait(c, t);
    StaysConnected(c, t, m);
    var w := After(c, t, Steady(m));
    AfterOne(c, w, Put(r));
    PutWaits(c, w, r);
    CrashLeavesOpen(c, Step(c, w, Put(r)));
    AfterConcat(c, w, [Put(r)], REFUSAL);
    AfterConcat(c, t, Steady(m), [Put(r)] + REFUSAL);
    AfterConcat(c, Init(), [StartCall], Steady(m) + ([Put(r)] + REFUSAL));
    tape := [StartCall] + (Steady(m) + ([Put(r)] + REFUSAL));
  }

  lemma PutWaits(c: Config, w: State, r: PublishRequest)
    requires w.flow.queue == []
    ensures var s := Step(c, w, Put(r));
            s == w.(flow := s.flow) && s.flow.queue == [Request(r)]
  {
  }

  /** From a wait with nothing but requests queued, a policy that is not always safe can end the thread. */
  lemma DiesFromWait(c: Config, s: State, n: nat) returns (tape: seq<Input>)
    requires s.pc.Waiting? && !s.control.stopEvent && s.retry.failures == 0
    requires Sentinel !in s.flow.queue && BackoffRaises(c.policy, true, n + 2, 0.0)
    ensures NoStop(tape) && After(c, s, tape).pc.Dead?
  {
    hide BackoffRaises;
    var put: seq<Input> := [];
    if s.flow.queue == [] {
      put := [Put(PublishRequest([], [], []))];
      AfterOne(c, s, put[0]);
    }
    var w := After(c, s, put);
    RefusalFails(c, w);
    AfterConcat(c, s, put, REFUSAL);
    tape := put + REFUSAL;
    if n > 0 && !BackoffRaises(c.policy, true, 2, 0.0) {
      var rest := DiesFailing(c, After(c, w, REFUSAL), 1, n);
      AfterConcat(c, s, tape, rest);
      tape := tape + rest;
    }
  }

  /**
   A restart runs on, whatever happens short of another stop, exactly when no sentinel is queued at the
   start and the policy's backoffs never raise.  What the documentation calls an idempotent start is not
   one after a stop that left its sentinel.
   */
  lemma RestartCleanIffNoSentinel(c: Config, s: State)
    requires s.pc.Dead? && !s.control.stopping
    ensures (forall tape | NoStop(tape) :: Alive(After(c, StartStep(s), tape).pc))
       <==> Sentinel !in s.flow.queue && AlwaysSafe(c.policy, true)
  {
    var t := StartStep(s);
    hide AlwaysSafe;
    if Sentinel in s.flow.queue {
      var n := DiesAtSentinel(c, t);
      assert NoStop(Steady(n)) && !Alive(After(c, t, Steady(n)).pc);
    } else if AlwaysSafe(c.policy, true) {
      forall tape | NoStop(tape)
        ensures Alive(After(c, t, tape).pc)
      {
        CleanRunsOn(c, t, tape);
      }
    } else {
      var tape := DiesStarted(c, t);
    }
  }

  lemma DiesStarted(c: Config, t: State) returns (tape: seq<Input>)
    requires TowardsWait(c, t) && Sentinel !in t.flow.queue && !AlwaysSafe(c.policy, true)
    ensures NoStop(tape) && !Alive(After(c, t, tape).pc)
  {
    hide Step, AlwaysSafe;
    var m := ReachesWait(c, t);
    var n := SomeBackoffRaises(c.policy, true);
    var rest := DiesFromWait(c, After(c, t, Steady(m)), n);
    tape := Steady(m) + rest;
    AfterConcat(c, t, Steady(m), rest);
  }

  /**
   A backend that is never stopped survives everything, for ever, if and only if its policy's backoffs
   never raise: its jitter is positive or its delays cannot be negative, and no power of its multiplier
   leaves the range of floats.
   */
  lemma NeverStoppedNeverDies(c: Config)
    requires c.Valid()
    ensures (forall tape | NoStop(tape) && Run(c, tape).control.starts > 0 :: Alive(Run(c, tape).pc))
       <==> AlwaysSafe(c.policy, true)
  {
    RestartCleanIffNoSentinel(c, Init());
    hide Step, AlwaysSafe;
    if AlwaysSafe(c.policy, true) {
      forall tape | NoStop(tape) && Run(c, tape).control.starts > 0
        ensures Alive(Run(c, tape).pc)
      {
        OnlyBackoffsKill(c, tape);
        NoCrashes(c, tape);
      }
    } else {
      var tape :| NoStop(tape) && !Alive(After(c, StartStep(Init()), tape).pc);
      AfterConcat(c, Init(), [StartCall], tape);
      AfterOne(c, Init(), StartCall);
      FirstStart(c);
      StopsUnchanged(c, StartStep(Init()), tape);
      assert NoStop([StartCall] + tape);
    }
  }

  lemma FirstStart(c: Config)
    ensures Step(c, Init(), StartCall) == StartStep(Init()) && StartStep(Init()).control.starts == 1
  {
  }

  lemma {:induction false} NoneCrashed(c: Config, log: seq<Mark>)
    requires BackoffLog(c, log) && AlwaysSafe(c.policy, true)
    ensures Crashes(log) == 0
  {
    if log != [] {
      var front, last := log[..|log| - 1], log[|log| - 1];
      NoneCrashed(c, front);
      if !last.Healthy? {
        AlwaysSafeNeverRaises(c.policy, true, TrailingFailures(front) + 2, last.draw);
      }
    }
  }

  lemma NoCrashes(c: Config, tape: seq<Input>)
    requires c.Valid() && AlwaysSafe(c.policy, true)
    ensures Crashes(Run(c, tape).retry.log) == 0
  {
    RunsKeepInv(c, tape);
    NoneCrashed(c, Run(c, tape).retry.log);
  }

  /** A start, a stop that the thread notices at its loop head, and the sentinel put after that. */
  const QUICK_STOP := [StartCall, StopCall, FINE, FINE, StopPut]

  /** The state in which a restart fails, whatever the policy, is reached by one start and one stop. */
  lemma StaleSentinelReachable(c: Config)
    ensures var s := Run(c, QUICK_STOP);
            && s.pc.Dead? && !s.control.stopping && s.flow.queue == [Sentinel]
            && exists tape :: NoStop(tape) && !Alive(After(c, StartStep(s), tape).pc)
  {
    var s1 := Step(c, Init(), StartCall);
    var s2 := Step(c, s1, StopCall);
    var s3 := Step(c, s2, FINE);
    var s4 := Step(c, s3, FINE);
    assert s4.pc.Dead? && s4.control.stopping && s4.flow.queue == [];
    AfterOne(c, Init(), StartCall);
    assert QUICK_STOP[..4] == [StartCall, StopCall, FINE, FINE];
    assert QUICK_STOP[..4][..3] == [StartCall, StopCall, FINE];
    assert QUICK_STOP[..4][..3][..2] == [StartCall, StopCall];
    assert QUICK_STOP[..4][..3][..2][..1] == [StartCall];
    assert Run(c, [StartCall, StopCall]) == s2;
    assert Run(c, [StartCall, StopCall, FINE]) == s3;
    assert Run(c, [StartCall, StopCall, FINE, FINE]) == s4;
    RestartCleanIffNoSentinel(c, Run(c, QUICK_STOP));
  }

  // ---------------------------------------------------------------- reconnecting

  lemma {:induction false} BackoffLogAt(c: Config, log: seq<Mark>, i: nat)
    requires BackoffLog(c, log) && i < |log| && !log[i].Healthy?
    ensures log[i] == FailureMark(c, TrailingFailures(log[..i]), log[i].cause, log[i].draw)
    ensures log[i].cause.PublishError? ==> TrailingFailures(log[..i]) == 0
  {
    var front := log[..|log| - 1];
    if i < |front| {
      BackoffLogAt(c, front, i);
      assert front[..i] == log[..i];
    }
  }

  /**
   In every run the k-th failed iteration in a row sleeps the delay of attempt k+1, or ends the thread
   exactly when that delay or sleep raises; a publish error, which always follows a healthy connect in
   its own iteration, is a first failure.
   */
  lemma BackoffFollowsFailures(c: Config, tape: seq<Input>, i: nat)
    requires c.Valid() && i < |Run(c, tape).retry.log| && !Run(c, tape).retry.log[i].Healthy?
    ensures var log := Run(c, tape).retry.log;
            var k := TrailingFailures(log[..i]) + 1;
            && (log[i].Crashed? <==> BackoffRaises(c.policy, true, k + 1, log[i].draw))
            && (log[i].BackedOff? ==> log[i].delay == DelayForAttempt(c.policy, k + 1, log[i].draw) >= 0.0)
            && (log[i].cause.PublishError? ==> k == 1)
    ensures Run(c, tape).retry.failures == TrailingFailures(Run(c, tape).retry.log)
    ensures Run(c, tape).retry.reconnectAttempts == Failures(Run(c, tape).retry.log)
  {
    RunsKeepInv(c, tape);
    BackoffLogAt(c, Run(c, tape).retry.log, i);
  }

  /**
   With a multiplier beyond 1 in size, an outage ends the thread at the failure that takes the power out
   of range and at no other: at failure e+2 in a row, 1025 with doubles and multiplier 2.
   */
  lemma LongOutageKills(c: Config, tape: seq<Input>, e: nat, i: nat)
    requires c.Valid() && Abs(c.policy.multiplier) > 1.0 && NonNegative(c.policy, 2)
    requires Power(Abs(c.policy.multiplier), e) <= c.policy.range < Power(Abs(c.policy.multiplier), e + 1)
    requires i < |Run(c, tape).retry.log| && !Run(c, tape).retry.log[i].Healthy?
    ensures var log := Run(c, tape).retry.log;
            log[i].Crashed? <==> TrailingFailures(log[..i]) + 1 >= e + 2
  {
    BackoffFollowsFailures(c, tape, i);
    var log := Run(c, tape).retry.log;
    RaisesBeyond(c.policy, true, e, TrailingFailures(log[..i]), log[i].draw);
  }

  /** A negative cap without jitter: a start and one refused connect, and the thread is dead unasked. */
  lemma NegativeCapKills(c: Config)
    requires c.Valid() && c.policy.jitter <= 0.0 && c.policy.maxDelay < 0.0
    ensures var s := Run(c, [StartCall] + OUTAGE);
            s.pc.Dead? && s.control.starts == 1 && s.control.stops == 0 && s.flow.queue == []
  {
    AfterConcat(c, Init(), [StartCall], OUTAGE);
    AfterOne(c, Init(), StartCall);
    FirstStart(c);
    AfterOutage(c, StartStep(Init()));
    NegativeIff(c.policy, 2, 0.0);
    assert BackoffRaises(c.policy, true, 2, 0.0);
    hide BackoffRaises, DelayForAttempt;
  }

  /** In every run each connection opened was closed, was lost, was left by a raising close or a crash, or is the live one. */
  lemma ConnectionsNeverForgotten(c: Config, tape: seq<Input>)
    requires c.Valid()
    ensures var s := Run(c, tape);
            && s.account.connectionsOpened
               == s.account.connectionsClosed + s.account.lost + s.account.closeRaised + s.account.abandoned
                  + (if s.link.conn.IsOpen() then 1 else 0)
            && s.account.abandoned <= Crashes(s.retry.log)
            && (s.pc.Dead? ==> !s.link.conn.IsOpen())
  {
    RunsKeepInv(c, tape);
  }

  // ---------------------------------------------------------------- heartbeats

  /** Within a session a heartbeat's due time never moves back. */
  lemma {:induction false} DueTimesMoveOn(c: Config, s: State, tape: seq<Input>)
    requires c.Valid() && HeartbeatsKept(c, s.clock, s.pc) && NoStart(tape)
    ensures HeartbeatsKept(c, After(c, s, tape).clock, After(c, s, tape).pc)
    ensures After(c, s, tape).clock.nextHeartbeat >= s.clock.nextHeartbeat
  {
    if tape != [] {
      var front := After(c, s, tape[..|tape| - 1]);
      DueTimesMoveOn(c, s, tape[..|tape| - 1]);
      HeartbeatsKeptKept(c, front, tape[|tape| - 1]);
    }
  }

  /**
   In every run the pumps of a session are an interval apart, and a publish never overtakes a heartbeat
   that was due when its request was taken.
   */
  lemma PumpNeverStarved(c: Config, tape: seq<Input>)
    requires c.Valid() && c.heartbeat > 0.0
    ensures var s := Run(c, tape);
            && (forall i, j :: 0 <= i < j < |s.clock.pumps| ==> s.clock.pumps[i] + c.heartbeat <= s.clock.pumps[j])
            && (s.pc.Publishing? ==> s.pc.at < s.clock.nextHeartbeat)
  {
    RunsKeepInv(c, tape);
  }
}
