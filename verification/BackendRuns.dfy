/** What every run of the publish backend keeps, over all interleavings, faults and restarts. */
module BackendRuns {
  import opened RetryPolicies
  import opened BackendMachine

  // ---------------------------------------------------------------- reading a state

  function Requests(queue: seq<Item>): seq<PublishRequest> {
    if queue == [] then []
    else (if queue[0].Request? then [queue[0].request] else []) + Requests(queue[1..])
  }

  function Sentinels(queue: seq<Item>): nat {
    if queue == [] then 0 else (if queue[0].Sentinel? then 1 else 0) + Sentinels(queue[1..])
  }

  function Attempted(attempts: seq<Attempt>): (r: seq<PublishRequest>)
    ensures |r| == |attempts|
    ensures forall i :: 0 <= i < |r| ==> r[i] == attempts[i].request
  {
    seq(|attempts|, i requires 0 <= i < |attempts| => attempts[i].request)
  }

  /** The request taken from the queue and not yet given to a channel. */
  function InHand(pc: Pc): (r: seq<PublishRequest>)
    ensures |r| <= 1
  {
    match pc
    case Pumping(Got(Request(r)), _) => [r]
    case Publishing(r, _) => [r]
    case _ => []
  }

  function Succeeded(attempts: seq<Attempt>): nat {
    if attempts == [] then 0
    else Succeeded(attempts[..|attempts| - 1]) + (if attempts[|attempts| - 1].ok then 1 else 0)
  }

  function InEpoch(attempts: seq<Attempt>, epoch: nat): nat {
    if attempts == [] then 0
    else InEpoch(attempts[..|attempts| - 1], epoch) + (if attempts[|attempts| - 1].epoch == epoch then 1 else 0)
  }

  function OnChannel(attempts: seq<Attempt>, epoch: nat, channel: nat): nat {
    if attempts == [] then 0
    else
      var last := attempts[|attempts| - 1];
      OnChannel(attempts[..|attempts| - 1], epoch, channel)
      + (if last.epoch == epoch && last.channel == channel then 1 else 0)
  }

  /** How many failed iterations end a log. */
  function TrailingFailures(log: seq<Mark>): nat {
    if log == [] || log[|log| - 1].Healthy? then 0 else 1 + TrailingFailures(log[..|log| - 1])
  }

  function Failures(log: seq<Mark>): nat {
    if log == [] then 0 else Failures(log[..|log| - 1]) + (if log[|log| - 1].Healthy? then 0 else 1)
  }

  function Crashes(log: seq<Mark>): nat {
    if log == [] then 0 else Crashes(log[..|log| - 1]) + (if log[|log| - 1].Crashed? then 1 else 0)
  }

  /** The thread is running and is not on its way out. */
  predicate Alive(pc: Pc) {
    !pc.Dead? && !pc.Exiting? && !(pc.Pumping? && pc.taken == Got(Sentinel))
  }

  /** The thread stands between a healthy connect-and-channels step and the end of that iteration. */
  predicate Healthful(pc: Pc) {
    pc.Waiting? || pc.Pumping? || pc.Publishing?
  }

  // ---------------------------------------------------------------- the invariant

  /** Every accepted request is, in order, attempted, then in hand, then queued; every count agrees. */
  ghost predicate Conserved(c: Config, f: Flow, hand: seq<PublishRequest>) {
    && f.accepted == f.taken + Requests(f.queue)
    && f.taken == Attempted(f.attempts) + hand
    && f.published == Succeeded(f.attempts)
    && f.published + f.publishFailed == |f.attempts| + f.confirmFailures
    && f.unfinished == |f.queue| + |hand| + f.sentinelsTaken
    && f.sentinelsPut == Sentinels(f.queue) + f.sentinelsTaken
    && (c.maxsize > 0 ==> |f.queue| <= c.maxsize)
  }

  /** Sentinels come from stops, and without a stop nothing but a crash ends the thread. */
  ghost predicate StopsAccounted(k: Control, f: Flow, pc: Pc) {
    && f.sentinelsPut + (if k.stopping then 1 else 0) <= k.stops
    && f.sentinelsPut == Sentinels(f.queue) + f.sentinelsTaken
    && (k.stops == 0 ==> !k.stopEvent && k.starts == k.crashes + (if Alive(pc) then 1 else 0))
    && (k.starts == 0 ==> pc.Dead?)
  }

  /** The channels belong to the current connection, all of them wherever a request may be published. */
  ghost predicate ChannelsCurrent(c: Config, l: Link, pc: Pc) {
    && |l.channels| <= c.channels
    && (forall i :: 0 <= i < |l.channels| ==> l.channels[i] == EpochOf(l.conn))
    && (l.conn.NoConn? ==> l.channels == [])
    && (l.conn.Conn? ==> l.conn.epoch + 1 == l.connectionsCreated)
    && (pc.OpeningChannels? ==> l.conn.Conn?)
    && (pc.Dead? ==> l.conn.NoConn?)
    && (Healthful(pc) ==> l.conn.Conn? && |l.channels| == c.channels)
    && l.channelsCreated + (if l.conn.Conn? then c.channels - |l.channels| else 0) <= c.channels * l.connectionsCreated
  }

  /** Every attempt used the channel its rank within its connection assigns to it. */
  ghost predicate RoundRobinLog(channels: nat, attempts: seq<Attempt>)
    requires channels >= 1
  {
    attempts != [] ==>
      var front, last := attempts[..|attempts| - 1], attempts[|attempts| - 1];
      && RoundRobinLog(channels, front)
      && last.channel == InEpoch(front, last.epoch) % channels
  }

  ghost predicate RoundRobin(c: Config, attempts: seq<Attempt>, l: Link)
    requires c.Valid()
  {
    && RoundRobinLog(c.channels, attempts)
    && (forall i :: 0 <= i < |attempts| ==> attempts[i].epoch < l.connectionsCreated)
    && (l.conn.Conn? ==> l.chIndex == InEpoch(attempts, l.conn.epoch))
  }

  /** Each failure slept, or raised, as those since the last healthy step called for; after a publish error, none. */
  ghost predicate BackoffLog(c: Config, log: seq<Mark>) {
    log != [] ==>
      var front, last := log[..|log| - 1], log[|log| - 1];
      && BackoffLog(c, front)
      && (!last.Healthy? ==>
            && last == FailureMark(c, TrailingFailures(front), last.cause, last.draw)
            && (last.cause.PublishError? ==> TrailingFailures(front) == 0))
  }

  ghost predicate BackoffExact(c: Config, k: Retry, crashes: nat, pc: Pc) {
    && BackoffLog(c, k.log)
    && k.failures == TrailingFailures(k.log)
    && crashes == Crashes(k.log)
    && k.reconnectAttempts == Failures(k.log)
    && (Healthful(pc) || pc == Failing(PublishError) ==> k.failures == 0)
  }

  /** Opened connections are closed, lost, left by a close that raised or by a crash, or live. */
  ghost predicate ConnectionsAccounted(k: Account, l: Link, crashes: nat) {
    && k.connectionsOpened == l.connectionsCreated
    && k.abandoned <= crashes
    && k.connectionsOpened
       == k.connectionsClosed + k.lost + k.closeRaised + k.abandoned + (if l.conn.IsOpen() then 1 else 0)
  }

  /** Pumps keep an interval apart, and no request is published while a heartbeat due when it was taken is owed. */
  ghost predicate HeartbeatsKept(c: Config, k: Clock, pc: Pc) {
    && k.nextHeartbeat <= k.now + c.heartbeat
    && (forall i :: 0 <= i < |k.pumps| ==> k.pumps[i] + c.heartbeat <= k.nextHeartbeat)
    && (forall i, j :: 0 <= i < j < |k.pumps| ==> k.pumps[i] + c.heartbeat <= k.pumps[j])
    && (pc.Pumping? ==> pc.at <= k.now)
    && (pc.Publishing? && c.heartbeat > 0.0 ==> pc.at < k.nextHeartbeat)
  }

  ghost predicate Inv(c: Config, s: State)
    requires c.Valid()
  {
    && Conserved(c, s.flow, InHand(s.pc))
    && StopsAccounted(s.control, s.flow, s.pc)
    && ChannelsCurrent(c, s.link, s.pc)
    && RoundRobin(c, s.flow.attempts, s.link)
    && BackoffExact(c, s.retry, s.control.crashes, s.pc)
    && ConnectionsAccounted(s.account, s.link, s.control.crashes)
    && HeartbeatsKept(c, s.clock, s.pc)
  }

  // ---------------------------------------------------------------- small facts

  lemma {:induction false} QueueAppend(q: seq<Item>, item: Item)
    ensures Requests(q + [item]) == Requests(q) + (if item.Request? then [item.request] else [])
    ensures Sentinels(q + [item]) == Sentinels(q) + (if item.Sentinel? then 1 else 0)
  {
    if q == [] {
      assert q + [item] == [item];
    } else {
      QueueAppend(q[1..], item);
      assert (q + [item])[1..] == q[1..] + [item];
    }
  }

  lemma AttemptAppend(a: seq<Attempt>, x: Attempt)
    ensures Attempted(a + [x]) == Attempted(a) + [x.request]
    ensures Succeeded(a + [x]) == Succeeded(a) + (if x.ok then 1 else 0)
    ensures forall e :: InEpoch(a + [x], e) == InEpoch(a, e) + (if x.epoch == e then 1 else 0)
  {
    assert (a + [x])[..|a + [x]| - 1] == a;
  }

  lemma {:induction false} NoneInEpoch(a: seq<Attempt>, epoch: nat)
    requires forall i :: 0 <= i < |a| ==> a[i].epoch < epoch
    ensures InEpoch(a, epoch) == 0
  {
    if a != [] {
      NoneInEpoch(a[..|a| - 1], epoch);
    }
  }

  // ---------------------------------------------------------------- preservation

  lemma EnqueueConserves(c: Config, f: Flow, hand: seq<PublishRequest>, item: Item)
    requires Conserved(c, f, hand) && HasSpace(c, f)
    ensures Conserved(c, Enqueue(f, item), hand)
  {
    QueueAppend(f.queue, item);
  }

  lemma DequeueConserves(c: Config, f: Flow)
    requires Conserved(c, f, []) && f.queue != []
    ensures Conserved(c, Dequeue(f), if f.queue[0].Request? then [f.queue[0].request] else [])
  {
  }

  lemma AttemptConserves(c: Config, f: Flow, a: Attempt)
    requires Conserved(c, f, [a.request])
    ensures Conserved(c, RecordAttempt(f, a), [])
  {
    AttemptAppend(f.attempts, a);
  }

  lemma ConfirmFailureConserves(c: Config, f: Flow, hand: seq<PublishRequest>)
    requires Conserved(c, f, hand)
    ensures Conserved(c, RecordConfirmFailure(f), hand)
  {
  }

  lemma ConservedKept(c: Config, s: State, e: Input)
    requires c.Valid() && Conserved(c, s.flow, InHand(s.pc))
    ensures Conserved(c, Step(c, s, e).flow, InHand(Step(c, s, e).pc))
  {
    hide Conserved;
    if e.Put? && HasSpace(c, s.flow) {
      EnqueueConserves(c, s.flow, InHand(s.pc), Request(e.request));
    } else if e.StopPut? && HasSpace(c, s.flow) {
      EnqueueConserves(c, s.flow, InHand(s.pc), Sentinel);
    } else if e.Go? && s.pc.OpeningChannels? {
      ConfirmFailureConserves(c, s.flow, []);
    } else if e.Go? && s.pc.Waiting? && s.flow.queue != [] {
      DequeueConserves(c, s.flow);
    } else if e.Go? && s.pc.Publishing? {
      AttemptConserves(c, s.flow, Attempt(s.pc.request, EpochOf(s.link.conn), NextChannel(s.link), e.answer.ok));
    }
  }

  lemma StopsAccountedKept(c: Config, s: State, e: Input)
    requires c.Valid() && StopsAccounted(s.control, s.flow, s.pc)
    ensures StopsAccounted(Step(c, s, e).control, Step(c, s, e).flow, Step(c, s, e).pc)
  {
    hide BackoffRaises, DelayForAttempt, Connect, OpenChannel, Close, Pump, NextChannel;
    match e
    case Put(r) => QueueAppend(s.flow.queue, Request(r));
    case StopPut => QueueAppend(s.flow.queue, Sentinel);
    case _ =>
  }

  lemma ChannelsCurrentKept(c: Config, s: State, e: Input)
    requires c.Valid() && ChannelsCurrent(c, s.link, s.pc)
    ensures ChannelsCurrent(c, Step(c, s, e).link, Step(c, s, e).pc)
  {
    var created := s.link.connectionsCreated;
    assert c.channels * (created + 1) == c.channels * created + c.channels;
  }

  lemma RoundRobinKept(c: Config, s: State, e: Input)
    requires c.Valid() && RoundRobin(c, s.flow.attempts, s.link) && ChannelsCurrent(c, s.link, s.pc)
    ensures RoundRobin(c, Step(c, s, e).flow.attempts, Step(c, s, e).link)
  {
    hide RoundRobinLog;
    if e.Go? && s.pc.Ensuring? {
      NoneInEpoch(s.flow.attempts, s.link.connectionsCreated);
    } else if e.Go? && s.pc.Publishing? {
      RoundRobinAppend(c, s.flow.attempts, s.link,
                       Attempt(s.pc.request, EpochOf(s.link.conn), NextChannel(s.link), e.answer.ok));
    }
  }

  lemma RoundRobinAppend(c: Config, a: seq<Attempt>, l: Link, x: Attempt)
    requires c.Valid() && RoundRobin(c, a, l) && l.conn.Conn?
    requires x.epoch == l.conn.epoch < l.connectionsCreated && x.channel == l.chIndex % c.channels
    ensures RoundRobin(c, a + [x], l.(chIndex := l.chIndex + 1))
  {
    AttemptAppend(a, x);
    assert (a + [x])[..|a + [x]| - 1] == a;
  }

  lemma LogAppend(c: Config, log: seq<Mark>, mark: Mark)
    requires BackoffLog(c, log)
    requires !mark.Healthy? ==> mark == FailureMark(c, TrailingFailures(log), mark.cause, mark.draw)
    requires !mark.Healthy? && mark.cause.PublishError? ==> TrailingFailures(log) == 0
    ensures BackoffLog(c, log + [mark])
    ensures TrailingFailures(log + [mark]) == if mark.Healthy? then 0 else TrailingFailures(log) + 1
    ensures Crashes(log + [mark]) == Crashes(log) + if mark.Crashed? then 1 else 0
    ensures Failures(log + [mark]) == Failures(log) + if mark.Healthy? then 0 else 1
  {
    assert (log + [mark])[..|log + [mark]| - 1] == log;
  }

  lemma BackoffExactKept(c: Config, s: State, e: Input)
    requires c.Valid() && BackoffExact(c, s.retry, s.control.crashes, s.pc)
    ensures BackoffExact(c, Step(c, s, e).retry, Step(c, s, e).control.crashes, Step(c, s, e).pc)
  {
    hide BackoffLog, TrailingFailures, Crashes, Failures, DelayForAttempt, BackoffRaises;
    if e.Go? && s.pc.OpeningChannels? {
      LogAppend(c, s.retry.log, Healthy);
    } else if e.Go? && s.pc.Failing? {
      LogAppend(c, s.retry.log, FailureMark(c, s.retry.failures, s.pc.cause, e.answer.draw));
    }
  }

  lemma ConnectionsAccountedKept(c: Config, s: State, e: Input)
    requires c.Valid() && ConnectionsAccounted(s.account, s.link, s.control.crashes) && ChannelsCurrent(c, s.link, s.pc)
    ensures ConnectionsAccounted(Step(c, s, e).account, Step(c, s, e).link, Step(c, s, e).control.crashes)
  {
    hide BackoffRaises, DelayForAttempt, Enqueue, Dequeue, RecordAttempt, RecordConfirmFailure, Pump, NextChannel, CountFailure;
  }

  lemma PumpKeepsHeartbeats(c: Config, k: Clock, taken: Taken, at: real, open: bool)
    requires c.Valid() && HeartbeatsKept(c, k, Pc.Pumping(taken, at))
    ensures HeartbeatsKept(c, Pump(c, k, open), AfterPump(taken, at))
  {
  }

  lemma HeartbeatsKeptKept(c: Config, s: State, e: Input)
    requires c.Valid() && HeartbeatsKept(c, s.clock, s.pc)
    ensures HeartbeatsKept(c, Step(c, s, e).clock, Step(c, s, e).pc)
  {
    if e.Go? && s.pc.Pumping? {
      hide HeartbeatsKept;
      PumpKeepsHeartbeats(c, s.clock, s.pc.taken, s.pc.at, s.link.conn.IsOpen());
    }
  }

  lemma InvKept(c: Config, s: State, e: Input)
    requires c.Valid() && Inv(c, s)
    ensures Inv(c, Step(c, s, e))
  {
    hide Step, Conserved, StopsAccounted, ChannelsCurrent, RoundRobin, BackoffExact, ConnectionsAccounted, HeartbeatsKept;
    ConservedKept(c, s, e);
    StopsAccountedKept(c, s, e);
    ChannelsCurrentKept(c, s, e);
    RoundRobinKept(c, s, e);
    BackoffExactKept(c, s, e);
    ConnectionsAccountedKept(c, s, e);
    HeartbeatsKeptKept(c, s, e);
  }
}
