/**
 The publish backend (`sync_publisher_backend.py`) as a step machine.

 One I/O thread runs `_run`; any other thread may run between any two of its steps.  An `Input` is
 either something another thread or the broker does, or `Go`: the I/O thread takes its next step and
 the environment answers the call it makes there.  `Step` is total: an input that cannot happen in a
 state (a `put` into a full queue, a `get` from an empty one) leaves the state as it is.  A call that
 raises took no effect, and `start` and `stop` are called one at a time.

 The state is split by concern.  In each part the first fields are the program's variables and the
 rest is a record of what has happened, which nothing the code does depends on.
 */
module BackendMachine {
  import opened Wrappers
  import opened RetryPolicies

  datatype PublishRequest = PublishRequest(body: string, exchange: string, routingKey: string)

  datatype Item = Request(request: PublishRequest) | Sentinel

  /** What a wait on the queue gave: an item, or the timeout that stands for a heartbeat. */
  datatype Taken = Got(item: Item) | HeartbeatTick

  datatype Config = Config(
    channels: nat,
    confirm: bool,
    maxsize: nat,
    heartbeat: real,
    policy: RetryPolicy,
    exchange: string,
    defaultKey: string)
  {
    predicate Valid() {
      channels >= 1 && heartbeat >= 0.0
    }
  }

  datatype Conn = NoConn | Conn(epoch: nat, open: bool) {
    predicate IsOpen() {
      Conn? && open
    }
  }

  datatype Cause = ConnectError | PublishError

  /** Where the I/O thread stands; `at` is the time the item in hand was taken. */
  datatype Pc =
    | Dead
    | AtHead
    | Ensuring
    | OpeningChannels
    | Waiting
    | Pumping(taken: Taken, at: real)
    | Publishing(request: PublishRequest, at: real)
    | Failing(cause: Cause)
    | BackingOff
    | Exiting

  datatype Attempt = Attempt(request: PublishRequest, epoch: nat, channel: nat, ok: bool)

  /** The outcomes of the connect-and-channels step, in order, with the delays slept; `Crashed` if backing off raised. */
  datatype Mark = Healthy | BackedOff(cause: Cause, delay: real, draw: real) | Crashed(cause: Cause, draw: real)

  datatype Flow = Flow(
    queue: seq<Item>,
    unfinished: int,
    published: nat,
    publishFailed: nat,
    accepted: seq<PublishRequest>,
    taken: seq<PublishRequest>,
    attempts: seq<Attempt>,
    confirmFailures: nat,
    sentinelsPut: nat,
    sentinelsTaken: nat)

  /** `stopping`: a `stop` has set the event and not yet put its sentinel or given up. */
  datatype Control = Control(stopEvent: bool, stopping: bool, starts: nat, stops: nat, crashes: nat)

  datatype Link = Link(conn: Conn, channels: seq<nat>, chIndex: nat, connectionsCreated: nat, channelsCreated: nat)

  /** `abandoned`: left open by a thread that died backing off, before it came to close. */
  datatype Account = Account(connectionsOpened: nat, connectionsClosed: nat, lost: nat, closeRaised: nat, abandoned: nat)

  datatype Retry = Retry(failures: nat, reconnectAttempts: nat, log: seq<Mark>)

  datatype Clock = Clock(now: real, nextHeartbeat: real, pumps: seq<real>)

  datatype State = State(
    pc: Pc,
    flow: Flow,
    control: Control,
    link: Link,
    account: Account,
    retry: Retry,
    clock: Clock)

  datatype Answer = Answer(ok: bool, confirmOk: bool, draw: real)

  datatype Input =
    | Put(request: PublishRequest)
    | StartCall
    | StopCall
    | StopPut
    | Drop
    | Elapse(time: real)
    | Go(answer: Answer)

  function Init(): State {
    State(Dead, Flow([], 0, 0, 0, [], [], [], 0, 0, 0), Control(false, false, 0, 0, 0), Link(NoConn, [], 0, 0, 0),
          Account(0, 0, 0, 0, 0), Retry(0, 0, []), Clock(0.0, 0.0, []))
  }

  // ---------------------------------------------------------------- the queue and what leaves it

  predicate HasSpace(c: Config, f: Flow) {
    c.maxsize == 0 || |f.queue| < c.maxsize
  }

  function Enqueue(f: Flow, item: Item): Flow {
    match item
    case Request(r) => f.(queue := f.queue + [item], unfinished := f.unfinished + 1, accepted := f.accepted + [r])
    case Sentinel => f.(queue := f.queue + [item], unfinished := f.unfinished + 1, sentinelsPut := f.sentinelsPut + 1)
  }

  function Dequeue(f: Flow): Flow
    requires f.queue != []
  {
    match f.queue[0]
    case Request(r) => f.(queue := f.queue[1..], taken := f.taken + [r])
    case Sentinel => f.(queue := f.queue[1..], sentinelsTaken := f.sentinelsTaken + 1)
  }

  function RecordAttempt(f: Flow, a: Attempt): Flow {
    if a.ok then f.(unfinished := f.unfinished - 1, published := f.published + 1, attempts := f.attempts + [a])
    else f.(unfinished := f.unfinished - 1, publishFailed := f.publishFailed + 1, attempts := f.attempts + [a])
  }

  function RecordConfirmFailure(f: Flow): Flow {
    f.(publishFailed := f.publishFailed + 1, confirmFailures := f.confirmFailures + 1)
  }

  // ---------------------------------------------------------------- the connection

  function Connect(l: Link): Link {
    Link(Conn(l.connectionsCreated, true), [], 0, l.connectionsCreated + 1, l.channelsCreated)
  }

  function EpochOf(conn: Conn): nat {
    if conn.Conn? then conn.epoch else 0
  }

  function OpenChannel(l: Link): Link {
    l.(channels := l.channels + [EpochOf(l.conn)], channelsCreated := l.channelsCreated + 1)
  }

  function NextChannel(l: Link): nat {
    if l.channels == [] then 0 else l.chIndex % |l.channels|
  }

  /** Closes the connection if it is open; a close that raises leaves it to itself. */
  function Close(k: Account, conn: Conn, ok: bool): Account {
    if !conn.IsOpen() then k
    else if ok then k.(connectionsClosed := k.connectionsClosed + 1)
    else k.(closeRaised := k.closeRaised + 1)
  }

  // ---------------------------------------------------------------- the I/O thread

  function EnsureStep(s: State, a: Answer): State {
    if s.link.conn.IsOpen() then s.(pc := OpeningChannels)
    else if !a.ok then s.(pc := Failing(ConnectError))
    else s.(pc := OpeningChannels, link := Connect(s.link),
            account := s.account.(connectionsOpened := s.account.connectionsOpened + 1))
  }

  function ChannelStep(c: Config, s: State, a: Answer): State {
    if |s.link.channels| >= c.channels then
      s.(pc := Waiting, retry := s.retry.(failures := 0, log := s.retry.log + [Healthy]))
    else if !a.ok then s.(pc := Failing(ConnectError))
    else if c.confirm && !a.confirmOk then
      s.(link := OpenChannel(s.link), flow := RecordConfirmFailure(s.flow))
    else s.(link := OpenChannel(s.link))
  }

  predicate PumpDue(c: Config, k: Clock) {
    c.heartbeat > 0.0 && k.now >= k.nextHeartbeat
  }

  function WaitStep(c: Config, s: State): State {
    if s.flow.queue != [] then s.(pc := Pumping(Got(s.flow.queue[0]), s.clock.now), flow := Dequeue(s.flow))
    else if PumpDue(c, s.clock) then s.(pc := Pumping(HeartbeatTick, s.clock.now))
    else s
  }

  function AfterPump(taken: Taken, at: real): Pc {
    match taken
    case HeartbeatTick => AtHead
    case Got(Sentinel) => Exiting
    case Got(Request(r)) => Publishing(r, at)
  }

  function Pump(c: Config, k: Clock, open: bool): Clock {
    if !PumpDue(c, k) then k
    else Clock(k.now, k.now + c.heartbeat, if open then k.pumps + [k.now] else k.pumps)
  }

  function PublishStep(s: State, r: PublishRequest, a: Answer): State {
    s.(pc := if a.ok then AtHead else Failing(PublishError),
       flow := RecordAttempt(s.flow, Attempt(r, EpochOf(s.link.conn), NextChannel(s.link), a.ok)),
       link := s.link.(chIndex := s.link.chIndex + 1))
  }

  /** The mark of a failure after `failures` others in a row. */
  function FailureMark(c: Config, failures: nat, cause: Cause, draw: real): Mark {
    if BackoffRaises(c.policy, true, failures + 2, draw) then Crashed(cause, draw)
    else BackedOff(cause, DelayForAttempt(c.policy, failures + 2, draw), draw)
  }

  function CountFailure(c: Config, k: Retry, cause: Cause, draw: real): Retry {
    Retry(k.failures + 1, k.reconnectAttempts + 1, k.log + [FailureMark(c, k.failures, cause, draw)])
  }

  function Abandon(k: Account, conn: Conn): Account {
    if conn.IsOpen() then k.(abandoned := k.abandoned + 1) else k
  }

  /** An exception raised in the handler leaves `_run` and ends the thread, with whatever it held. */
  function Crash(s: State): State {
    s.(pc := Dead,
       control := s.control.(crashes := s.control.crashes + 1),
       account := Abandon(s.account, s.link.conn),
       link := s.link.(conn := NoConn, channels := []))
  }

  function FailStep(c: Config, s: State, cause: Cause, a: Answer): State {
    var counted := s.(retry := CountFailure(c, s.retry, cause, a.draw));
    if BackoffRaises(c.policy, true, s.retry.failures + 2, a.draw) then Crash(counted)
    else counted.(pc := BackingOff)
  }

  function Disconnect(s: State, a: Answer, next: Pc): State {
    s.(pc := next, account := Close(s.account, s.link.conn, a.ok), link := s.link.(conn := NoConn, channels := []))
  }

  function IoStep(c: Config, s: State, a: Answer): State {
    match s.pc
    case Dead => s
    case AtHead => s.(pc := if s.control.stopEvent then Exiting else Ensuring)
    case Ensuring => EnsureStep(s, a)
    case OpeningChannels => ChannelStep(c, s, a)
    case Waiting => WaitStep(c, s)
    case Pumping(taken, at) => s.(pc := AfterPump(taken, at), clock := Pump(c, s.clock, s.link.conn.IsOpen()))
    case Publishing(r, _) => PublishStep(s, r, a)
    case Failing(cause) => FailStep(c, s, cause, a)
    case BackingOff =>
      Disconnect(s, a, AtHead).(clock := s.clock.(nextHeartbeat := s.clock.now + c.heartbeat))
    case Exiting => Disconnect(s, a, Dead)
  }

  // ---------------------------------------------------------------- the other threads and the broker

  function StartStep(s: State): State {
    if s.control.stopping || !s.pc.Dead? then s
    else s.(pc := AtHead,
            control := s.control.(stopEvent := false, starts := s.control.starts + 1),
            link := s.link.(conn := NoConn, channels := [], chIndex := 0),
            clock := Clock(s.clock.now, s.clock.now, []))
  }

  function StopCallStep(k: Control): Control {
    if k.stopping || k.stopEvent then k else k.(stopEvent := true, stopping := true, stops := k.stops + 1)
  }

  function StopPutStep(c: Config, s: State): State {
    if !s.control.stopping then s
    else if HasSpace(c, s.flow) then
      s.(control := s.control.(stopping := false), flow := Enqueue(s.flow, Sentinel))
    else s.(control := s.control.(stopping := false))
  }

  function DropStep(s: State): State {
    if s.link.conn.IsOpen() then
      s.(link := s.link.(conn := s.link.conn.(open := false)), account := s.account.(lost := s.account.lost + 1))
    else s
  }

  function Step(c: Config, s: State, e: Input): State {
    match e
    case Put(r) => if HasSpace(c, s.flow) then s.(flow := Enqueue(s.flow, Request(r))) else s
    case StartCall => StartStep(s)
    case StopCall => s.(control := StopCallStep(s.control))
    case StopPut => StopPutStep(c, s)
    case Drop => DropStep(s)
    case Elapse(time) => s.(clock := s.clock.(now := s.clock.now + Max(0.0, time)))
    case Go(a) => IoStep(c, s, a)
  }

  /** The state after a whole tape of inputs. */
  function After(c: Config, s: State, tape: seq<Input>): State {
    if tape == [] then s else Step(c, After(c, s, tape[..|tape| - 1]), tape[|tape| - 1])
  }

  lemma {:induction false} AfterConcat(c: Config, s: State, a: seq<Input>, b: seq<Input>)
    ensures After(c, s, a + b) == After(c, After(c, s, a), b)
  {
    if b == [] {
      assert a + b == a;
    } else {
      AfterConcat(c, s, a, b[..|b| - 1]);
      assert (a + b)[..|a + b| - 1] == a + b[..|b| - 1];
    }
  }

  lemma AfterOne(c: Config, s: State, e: Input)
    ensures After(c, s, [e]) == Step(c, s, e)
  {
    assert [e][..0] == [];
  }
}
