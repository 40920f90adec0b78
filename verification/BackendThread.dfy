/**
 `SyncPublishBackend` itself: the object, its calls, and the loop of its I/O thread.

 A tape of inputs drives the thread.  Wherever `_run` touches shared state or makes a call, `Others`
 first lets the tape's other threads act, up to the answer of that call.  `Run` is proved to take the
 object through exactly the states of the step machine, input by input, so what holds of every tape
 there holds of this loop under every interleaving.
 */
module BackendThread {
  import opened Wrappers
  import opened RetryPolicies
  import opened BackendMachine

  /** How a part of an iteration ended: `Escaped` by an exception that leaves `_run`, `Cut` when the tape ended first. */
  datatype Outcome = Completed | Failed | BrokeOut | Escaped | Cut

  class SyncPublishBackend {
    const config: Config

    // shared with the callers
    var queue: seq<Item>
    var unfinished: int
    var stopEvent: bool
    var threadAlive: bool

    // the variables of `_run`, and the clock it reads
    var conn: Conn
    var channels: seq<nat>
    var chIndex: nat
    var nextHeartbeat: real
    var now: real

    // counters
    var reconnectFailures: nat
    var connectionsCreated: nat
    var channelsCreated: nat
    var published: nat
    var publishFailed: nat
    var reconnectAttempts: nat
    var connectionsOpened: nat
    var connectionsClosed: nat

    // a call of `stop` is waiting for room
    var stopping: bool

    // where the I/O thread stands, and what has happened
    ghost var pc: Pc
    ghost var accepted: seq<PublishRequest>
    ghost var taken: seq<PublishRequest>
    ghost var attempts: seq<Attempt>
    ghost var confirmFailures: nat
    ghost var sentinelsPut: nat
    ghost var sentinelsTaken: nat
    ghost var starts: nat
    ghost var stops: nat
    ghost var lost: nat
    ghost var closeRaised: nat
    ghost var abandoned: nat
    ghost var crashes: nat
    ghost var log: seq<Mark>
    ghost var pumps: seq<real>

    ghost function FlowView(): Flow
      reads this`queue, this`unfinished, this`published, this`publishFailed, this`accepted, this`taken, this`attempts,
            this`confirmFailures, this`sentinelsPut, this`sentinelsTaken
    {
      Flow(queue, unfinished, published, publishFailed, accepted, taken, attempts,
           confirmFailures, sentinelsPut, sentinelsTaken)
    }

    ghost function ControlView(): Control
      reads this`stopEvent, this`stopping, this`starts, this`stops, this`crashes
    {
      Control(stopEvent, stopping, starts, stops, crashes)
    }

    ghost function LinkView(): Link
      reads this`conn, this`channels, this`chIndex, this`connectionsCreated, this`channelsCreated
    {
      Link(conn, channels, chIndex, connectionsCreated, channelsCreated)
    }

    ghost function AccountView(): Account
      reads this`connectionsOpened, this`connectionsClosed, this`lost, this`closeRaised, this`abandoned
    {
      Account(connectionsOpened, connectionsClosed, lost, closeRaised, abandoned)
    }

    ghost function RetryView(): Retry
      reads this`reconnectFailures, this`reconnectAttempts, this`log
    {
      Retry(reconnectFailures, reconnectAttempts, log)
    }

    ghost function ClockView(): Clock
      reads this`now, this`nextHeartbeat, this`pumps
    {
      Clock(now, nextHeartbeat, pumps)
    }

    /** The object as a state of the step machine. */
    ghost function View(): State
      reads this
    {
      State(pc, FlowView(), ControlView(), LinkView(), AccountView(), RetryView(), ClockView())
    }

    /** The object has been through the first i inputs of the tape since it was in state v. */
    ghost predicate At(v: State, tape: seq<Input>, i: nat)
      reads this
    {
      && i <= |tape|
      && View() == After(config, v, tape[..i])
      && (threadAlive <==> !pc.Dead?)
    }

    /** The answer to the thread's next step is input i-1; the step itself is still to be made. */
    ghost predicate Answered(v: State, tape: seq<Input>, i: nat, a: Answer)
      reads this
    {
      0 < i <= |tape| && tape[i - 1] == Go(a) && At(v, tape, i - 1)
    }

    /** `__init__`, with the clamps it applies to its numbers. */
    constructor (channels: int, confirm: bool, maxsize: int, heartbeat: real, policy: RetryPolicy,
                 exchange: string, defaultKey: string)
      ensures config.Valid() && View() == Init() && !threadAlive
      ensures config == Config(if channels < 1 then 1 else channels, confirm, if maxsize < 0 then 0 else maxsize,
                               Max(0.0, heartbeat), policy, exchange, defaultKey)
    {
      config := Config(if channels < 1 then 1 else channels, confirm, if maxsize < 0 then 0 else maxsize,
                       Max(0.0, heartbeat), policy, exchange, defaultKey);
      queue, unfinished, stopEvent, threadAlive := [], 0, false, false;
      conn, this.channels, chIndex, nextHeartbeat, now := NoConn, [], 0, 0.0, 0.0;
      reconnectFailures, connectionsCreated, channelsCreated := 0, 0, 0;
      published, publishFailed, reconnectAttempts, connectionsOpened, connectionsClosed := 0, 0, 0, 0, 0;
      pc, stopping := Dead, false;
      accepted, taken, attempts, log, pumps := [], [], [], [], [];
      confirmFailures, sentinelsPut, sentinelsTaken, starts, stops := 0, 0, 0, 0, 0;
      lost, closeRaised, abandoned, crashes := 0, 0, 0, 0;
    }

    // ---------------------------------------------------------------- the callers' side

    method PutItem(item: Item)
      modifies `queue, `unfinished, `accepted, `sentinelsPut
      ensures FlowView() == Enqueue(old(FlowView()), item)
    {
      queue, unfinished := queue + [item], unfinished + 1;
      match item
      case Request(r) => accepted := accepted + [r];
      case Sentinel => sentinelsPut := sentinelsPut + 1;
    }

    method Enqueued(r: PublishRequest)
      modifies this
      ensures View() == Step(config, old(View()), Put(r)) && threadAlive == old(threadAlive)
    {
      hide ControlView, LinkView, AccountView, RetryView, ClockView, Enqueue;
      if config.maxsize == 0 || |queue| < config.maxsize {
        PutItem(Request(r));
      }
    }

    /** `publish`: the request carries the given routing key, or the default when none (or an empty one) is given. */
    method Publish(body: string, routingKey: Option<string>) returns (enqueued: bool)
      modifies this
      ensures var key := if routingKey.Some? && routingKey.value != "" then routingKey.value else config.defaultKey;
              View() == Step(config, old(View()), Put(PublishRequest(body, config.exchange, key)))
      ensures enqueued <==> HasSpace(config, old(View()).flow)
      ensures threadAlive == old(threadAlive)
    {
      hide ControlView, LinkView, AccountView, RetryView, ClockView;
      var key := if routingKey.Some? && routingKey.value != "" then routingKey.value else config.defaultKey;
      enqueued := config.maxsize == 0 || |queue| < config.maxsize;
      Enqueued(PublishRequest(body, config.exchange, key));
    }

    method ClearEvent()
      modifies `stopEvent, `starts
      ensures View() == old(View()).(control := old(View()).control.(stopEvent := false,
                                                                     starts := old(View()).control.starts + 1))
    {
      hide FlowView, LinkView, AccountView, RetryView, ClockView;
      stopEvent := false;
      starts := starts + 1;
    }

    method FreshLocals()
      modifies `conn, `channels, `chIndex
      ensures View() == old(View()).(link := old(View()).link.(conn := NoConn, channels := [], chIndex := 0))
    {
      hide FlowView, ControlView, AccountView, RetryView, ClockView;
      conn, channels, chIndex := NoConn, [], 0;
    }

    method FreshSchedule()
      modifies `nextHeartbeat, `pumps
      ensures View() == old(View()).(clock := Clock(old(View()).clock.now, old(View()).clock.now, []))
    {
      hide FlowView, ControlView, LinkView, AccountView, RetryView;
      nextHeartbeat, pumps := now, [];
    }

    method Spawn()
      requires !stopping && pc.Dead?
      modifies this
      ensures View() == StartStep(old(View()))
      ensures threadAlive && pc.AtHead?
    {
      assert !ControlView().stopping;
      hide FlowView, ControlView, LinkView, AccountView, RetryView, ClockView;
      ClearEvent();
      FreshLocals();
      FreshSchedule();
      threadAlive, pc := true, AtHead;
    }

    /** `start`: nothing while the thread lives; otherwise a new thread at the head of a new `_run`. */
    method Start()
      requires !stopping && (threadAlive <==> !pc.Dead?)
      modifies this
      ensures View() == Step(config, old(View()), StartCall)
      ensures threadAlive
    {
      hide FlowView, ControlView, LinkView, AccountView, RetryView, ClockView;
      if threadAlive {
        return;
      }
      Spawn();
    }

    /** `stop` up to its wait for room: the guard, then the event. */
    method RequestStop() returns (proceed: bool)
      requires !stopping
      modifies this
      ensures View() == Step(config, old(View()), StopCall)
      ensures proceed == stopping == !old(stopEvent)
      ensures threadAlive == old(threadAlive)
    {
      hide FlowView, LinkView, AccountView, RetryView, ClockView;
      if stopEvent {
        return false;
      }
      stopEvent, stopping := true, true;
      stops := stops + 1;
      proceed := true;
    }

    /** The rest of `stop`: the sentinel goes in if there is room by the time the wait is over. */
    method PutSentinel()
      modifies this
      ensures View() == Step(config, old(View()), StopPut) && threadAlive == old(threadAlive)
    {
      hide FlowView, ControlView, LinkView, AccountView, RetryView, ClockView, Enqueue;
      var space := HasRoom();
      var waiting := EndStopping();
      if waiting && space {
        PutItem(Sentinel);
      }
    }

    method HasRoom() returns (space: bool)
      ensures space <==> HasSpace(config, FlowView())
    {
      space := config.maxsize == 0 || |queue| < config.maxsize;
    }

    method EndStopping() returns (waiting: bool)
      modifies `stopping
      ensures waiting == old(ControlView()).stopping
      ensures ControlView() == old(ControlView()).(stopping := false)
    {
      waiting := stopping;
      stopping := false;
    }

    method Stop()
      requires !stopping
      modifies this
      ensures View() == if old(stopEvent) then old(View())
                        else Step(config, Step(config, old(View()), StopCall), StopPut)
    {
      var proceed := RequestStop();
      if proceed {
        PutSentinel();
      }
    }

    method LoseConnection()
      modifies this
      ensures View() == Step(config, old(View()), Drop) && threadAlive == old(threadAlive)
    {
      hide FlowView, ControlView, RetryView, ClockView;
      if conn.IsOpen() {
        conn := conn.(open := false);
        lost := lost + 1;
      }
    }

    method Other(e: Input)
      requires !e.Go? && (threadAlive <==> !pc.Dead?)
      modifies this
      ensures View() == Step(config, old(View()), e)
      ensures threadAlive <==> !pc.Dead?
      ensures !old(pc).Dead? ==> pc == old(pc)
    {
      hide FlowView, LinkView, AccountView, RetryView;
      match e
      case Put(r) => Enqueued(r);
      case StartCall =>
        if !stopping {
          Start();
        }
      case StopCall =>
        if !stopping {
          var _ := RequestStop();
        }
      case StopPut => PutSentinel();
      case Drop => LoseConnection();
      case Elapse(time) => now := now + Max(0.0, time);
    }

    /** Lets the others act until the I/O thread's next step is answered, or the tape ends. */
    method Others(ghost v: State, tape: seq<Input>, i: nat) returns (used: nat, answer: Option<Answer>)
      requires At(v, tape, i) && !pc.Dead?
      modifies this
      ensures pc == old(pc) && i <= used <= |tape|
      ensures answer.Some? ==> i < used && Answered(v, tape, used, answer.value)
      ensures answer.None? ==> used == |tape| && At(v, tape, used)
    {
      hide FlowView, ControlView, LinkView, AccountView, RetryView, ClockView, Step;
      used := i;
      while used < |tape|
        invariant At(v, tape, used) && i <= used && pc == old(pc)
      {
        assert tape[..used + 1][..used] == tape[..used];
        match tape[used]
        case Go(a) => return used + 1, Some(a);
        case e =>
          Other(e);
          used := used + 1;
      }
      answer := None;
    }

    // ---------------------------------------------------------------- the I/O thread

    /** `_ensure_connection_and_channels`. */
    method EnsureConnectionAndChannels(ghost v: State, tape: seq<Input>, i: nat) returns (used: nat, outcome: Outcome)
      requires At(v, tape, i) && pc.Ensuring?
      modifies this
      ensures At(v, tape, used) && i <= used
      ensures outcome.Completed? ==> pc.Waiting?
      ensures outcome.Failed? ==> pc == Failing(ConnectError)
      ensures outcome.Cut? ==> used == |tape|
      ensures !outcome.BrokeOut? && !outcome.Escaped?
    {
      hide FlowView, ControlView, AccountView, RetryView, ClockView, Step;
      var answer;
      used, answer := Others(v, tape, i);
      if answer.None? {
        return used, Cut;
      }
      var raised := EnsureConnection(answer.value);
      assert tape[..used][..used - 1] == tape[..used - 1];
      if raised {
        return used, Failed;
      }
      while true
        invariant At(v, tape, used) && pc.OpeningChannels? && i <= used
        decreases |tape| - used
      {
        used, answer := Others(v, tape, used);
        if answer.None? {
          return used, Cut;
        }
        assert tape[..used][..used - 1] == tape[..used - 1];
        if |channels| >= config.channels {
          break;
        }
        raised := AddChannel(answer.value);
        if raised {
          return used, Failed;
        }
      }
      ResetFailures(answer.value);
      outcome := Completed;
    }

    method OpenConnection()
      modifies `conn, `channels, `chIndex, `connectionsCreated, `connectionsOpened
      ensures LinkView() == Connect(old(LinkView()))
      ensures AccountView() == old(AccountView()).(connectionsOpened := old(AccountView()).connectionsOpened + 1)
    {
      conn := Conn(connectionsCreated, true);
      connectionsCreated := connectionsCreated + 1;
      connectionsOpened := connectionsOpened + 1;
      channels, chIndex := [], 0;
    }

    method EnsureConnection(a: Answer) returns (raised: bool)
      requires pc.Ensuring? && threadAlive
      modifies this
      ensures View() == Step(config, old(View()), Go(a)) && threadAlive
      ensures pc == if raised then Failing(ConnectError) else OpeningChannels
    {
      hide FlowView, ControlView, AccountView, RetryView, ClockView, Connect;
      if !conn.IsOpen() {
        if !a.ok {
          pc := Failing(ConnectError);
          return true;
        }
        OpenConnection();
      }
      pc := OpeningChannels;
      raised := false;
    }

    method AppendChannel()
      modifies `channels, `channelsCreated
      ensures LinkView() == OpenChannel(old(LinkView()))
    {
      channelsCreated := channelsCreated + 1;
      channels := channels + [EpochOf(conn)];
    }

    method CountConfirmFailure()
      modifies `publishFailed, `confirmFailures
      ensures FlowView() == RecordConfirmFailure(old(FlowView()))
    {
      publishFailed := publishFailed + 1;
      confirmFailures := confirmFailures + 1;
    }

    method AddChannel(a: Answer) returns (raised: bool)
      requires pc.OpeningChannels? && threadAlive && |channels| < config.channels
      modifies this
      ensures View() == Step(config, old(View()), Go(a)) && threadAlive
      ensures pc == if raised then Failing(ConnectError) else OpeningChannels
    {
      hide FlowView, ControlView, AccountView, RetryView, ClockView, OpenChannel, RecordConfirmFailure;
      if !a.ok {
        pc := Failing(ConnectError);
        return true;
      }
      AppendChannel();
      if config.confirm && !a.confirmOk {
        CountConfirmFailure();
      }
      raised := false;
    }

    method ResetFailures(a: Answer)
      requires pc.OpeningChannels? && threadAlive && |channels| >= config.channels
      modifies this
      ensures View() == Step(config, old(View()), Go(a)) && threadAlive && pc.Waiting?
    {
      hide FlowView, ControlView, AccountView, ClockView;
      reconnectFailures := 0;
      log := log + [Healthy];
      pc := Waiting;
    }

    /** `queue.get`, for as long as the time to the next heartbeat allows, or without limit. */
    method Get(ghost v: State, tape: seq<Input>, i: nat) returns (used: nat, item: Option<Taken>)
      requires At(v, tape, i) && pc.Waiting?
      modifies this
      ensures At(v, tape, used) && i <= used
      ensures item.Some? ==> pc.Pumping? && pc.taken == item.value
      ensures item.None? ==> used == |tape|
    {
      hide FlowView, ControlView, LinkView, AccountView, RetryView, ClockView, Step;
      used := i;
      while true
        invariant At(v, tape, used) && pc.Waiting? && i <= used
        decreases |tape| - used
      {
        var answer;
        used, answer := Others(v, tape, used);
        if answer.None? {
          return used, None;
        }
        assert tape[..used][..used - 1] == tape[..used - 1];
        if queue != [] {
          var head := TakeItem(answer.value);
          return used, Some(Got(head));
        }
        var timedOut := WaitOn(answer.value);
        if timedOut {
          return used, Some(HeartbeatTick);
        }
      }
    }

    /** The queue is still empty: the wait is over when a heartbeat is due. */
    method WaitOn(a: Answer) returns (timedOut: bool)
      requires pc.Waiting? && threadAlive && queue == []
      modifies `pc
      ensures View() == Step(config, old(View()), Go(a))
      ensures pc == if timedOut then Pc.Pumping(HeartbeatTick, now) else Waiting
    {
      assert FlowView().queue == [];
      hide FlowView, ControlView, LinkView, AccountView, RetryView, Dequeue;
      timedOut := config.heartbeat > 0.0 && now >= nextHeartbeat;
      if timedOut {
        pc := Pc.Pumping(HeartbeatTick, now);
      }
    }

    method PopItem() returns (item: Item)
      requires queue != []
      modifies `queue, `taken, `sentinelsTaken
      ensures FlowView() == Dequeue(old(FlowView())) && item == old(queue)[0]
    {
      item := queue[0];
      queue := queue[1..];
      match item
      case Request(r) => taken := taken + [r];
      case Sentinel => sentinelsTaken := sentinelsTaken + 1;
    }

    method TakeItem(a: Answer) returns (item: Item)
      requires pc.Waiting? && threadAlive && queue != []
      modifies this
      ensures View() == Step(config, old(View()), Go(a)) && threadAlive
      ensures pc.Pumping? && pc.taken == Got(item)
    {
      hide ControlView, LinkView, AccountView, RetryView, Dequeue;
      item := PopItem();
      pc := Pc.Pumping(Got(item), now);
    }

    /** `_pump_io_if_due`; an exception from the pump is logged and dropped. */
    method PumpIoIfDue(ghost item: Taken, a: Answer)
      requires pc.Pumping? && pc.taken == item && threadAlive
      modifies this
      ensures View() == Step(config, old(View()), Go(a)) && threadAlive
      ensures pc == AfterPump(item, old(pc).at)
    {
      hide FlowView, ControlView, LinkView, AccountView, RetryView, ClockView, Pump;
      PumpDueHeartbeat();
      pc := AfterPump(item, pc.at);
    }

    method PumpDueHeartbeat()
      modifies `nextHeartbeat, `pumps
      ensures ClockView() == Pump(config, old(ClockView()), LinkView().conn.IsOpen())
    {
      if config.heartbeat <= 0.0 || now < nextHeartbeat {
        return;
      }
      nextHeartbeat := now + config.heartbeat;
      if conn.IsOpen() {
        pumps := pumps + [now];
      }
    }

    method CountAttempt(ghost attempt: Attempt, ok: bool)
      requires attempt.ok == ok
      modifies `published, `publishFailed, `unfinished, `attempts
      ensures FlowView() == RecordAttempt(old(FlowView()), attempt)
    {
      if ok {
        published := published + 1;
      } else {
        publishFailed := publishFailed + 1;
      }
      unfinished := unfinished - 1;
      attempts := attempts + [attempt];
    }

    method AdvanceChannel() returns (ch: nat)
      modifies `chIndex
      ensures ch == NextChannel(old(LinkView())) && conn == old(LinkView()).conn
      ensures LinkView() == old(LinkView()).(chIndex := old(LinkView()).chIndex + 1)
    {
      ch := if channels == [] then 0 else chIndex % |channels|;
      chIndex := chIndex + 1;
    }

    method BasicPublish(r: PublishRequest, a: Answer) returns (raised: bool)
      requires pc.Publishing? && pc.request == r && threadAlive
      modifies this
      ensures View() == Step(config, old(View()), Go(a)) && threadAlive
      ensures pc == if raised then Failing(PublishError) else AtHead
    {
      hide FlowView, ControlView, LinkView, AccountView, RetryView, ClockView, RecordAttempt, NextChannel, EpochOf;
      var ch := AdvanceChannel();
      CountAttempt(Attempt(r, EpochOf(conn), ch, a.ok), a.ok);
      raised := !a.ok;
      pc := if raised then Failing(PublishError) else AtHead;
    }

    /** The body of the loop's `try`, after the connection and its channels are there. */
    method TakeAndPublish(ghost v: State, tape: seq<Input>, i: nat) returns (used: nat, outcome: Outcome)
      requires At(v, tape, i) && pc.Waiting?
      modifies this
      ensures At(v, tape, used) && i <= used
      ensures outcome.Completed? ==> pc.AtHead?
      ensures outcome.Failed? ==> pc.Failing?
      ensures outcome.BrokeOut? ==> pc.Exiting?
      ensures !outcome.Escaped?
      ensures outcome.Cut? ==> used == |tape|
    {
      hide FlowView, ControlView, LinkView, AccountView, RetryView, ClockView, Step;
      var item, answer;
      used, item := Get(v, tape, i);
      if item.None? {
        return used, Cut;
      }
      used, answer := Others(v, tape, used);
      if answer.None? {
        return used, Cut;
      }
      PumpIoIfDue(item.value, answer.value);
      assert tape[..used][..used - 1] == tape[..used - 1];
      match item.value
      case HeartbeatTick => return used, Completed;
      case Got(Sentinel) => return used, BrokeOut;
      case Got(Request(r)) =>
        used, answer := Others(v, tape, used);
        if answer.None? {
          return used, Cut;
        }
        var raised := BasicPublish(r, answer.value);
        assert tape[..used][..used - 1] == tape[..used - 1];
        outcome := if raised then Failed else Completed;
    }

    /** Counts the failure; the delay, or the sleep, may raise. */
    method CountFailure(ghost cause: Cause, draw: real) returns (raised: bool)
      modifies `reconnectFailures, `reconnectAttempts, `log
      ensures RetryView() == BackendMachine.CountFailure(config, old(RetryView()), cause, draw)
      ensures raised <==> BackoffRaises(config.policy, true, old(reconnectFailures) + 2, draw)
    {
      hide DelayForAttempt, Overflows;
      reconnectFailures := reconnectFailures + 1;
      reconnectAttempts := reconnectAttempts + 1;
      raised := Overflows(config.policy, reconnectFailures + 1);
      if !raised {
        var delay := DelayForAttempt(config.policy, reconnectFailures + 1, draw);
        raised := delay < 0.0;
        log := log + [if raised then Crashed(cause, draw) else BackedOff(cause, delay, draw)];
      } else {
        log := log + [Crashed(cause, draw)];
      }
    }

    /** The handler up to its sleep. */
    method BackOff(a: Answer) returns (raised: bool)
      requires pc.Failing? && threadAlive
      modifies this
      ensures View() == Step(config, old(View()), Go(a)) && (threadAlive <==> !raised)
      ensures pc == if raised then Dead else BackingOff
    {
      hide FlowView, LinkView, AccountView, ControlView, ClockView, BackoffRaises, BackendMachine.CountFailure, Crash;
      raised := CountFailure(pc.cause, a.draw);
      if raised {
        Escape();
      } else {
        pc := BackingOff;
      }
    }

    method LeaveOpen()
      modifies `abandoned, `conn, `channels
      ensures AccountView() == Abandon(old(AccountView()), old(LinkView()).conn)
      ensures LinkView() == old(LinkView()).(conn := NoConn, channels := [])
    {
      if conn.IsOpen() {
        abandoned := abandoned + 1;
      }
      conn, channels := NoConn, [];
    }

    method CountCrash()
      modifies `crashes
      ensures ControlView() == old(ControlView()).(crashes := old(ControlView()).crashes + 1)
    {
      crashes := crashes + 1;
    }

    /** An exception leaves `_run`: the thread ends without its cleanup, and its variables with it. */
    method Escape()
      modifies `pc, `threadAlive, `crashes, `abandoned, `conn, `channels
      ensures View() == Crash(old(View())) && pc.Dead? && !threadAlive
    {
      hide FlowView, RetryView, ClockView, ControlView, AccountView, LinkView, Abandon;
      CountCrash();
      LeaveOpen();
      pc, threadAlive := Dead, false;
    }

    method CloseConnection(a: Answer)
      modifies this`connectionsClosed, this`closeRaised
      ensures View() == old(View()).(account := Close(old(View()).account, conn, a.ok))
    {
      hide FlowView, ControlView, RetryView, ClockView;
      if conn.IsOpen() {
        if a.ok {
          connectionsClosed := connectionsClosed + 1;
        } else {
          closeRaised := closeRaised + 1;
        }
      }
    }

    /** The `conn.close()` of a best effort, and the variables it leaves. */
    method DropConnection(a: Answer)
      modifies `connectionsClosed, `closeRaised, `conn, `channels
      ensures View() == Disconnect(old(View()), a, pc)
    {
      hide FlowView, ControlView, AccountView, RetryView, ClockView, Close;
      CloseConnection(a);
      conn, channels := NoConn, [];
    }

    method Forget(a: Answer)
      requires pc.BackingOff? && threadAlive
      modifies this
      ensures View() == Step(config, old(View()), Go(a)) && threadAlive && pc.AtHead?
    {
      hide FlowView, ControlView, LinkView, AccountView, RetryView, Close;
      DropConnection(a);
      nextHeartbeat := now + config.heartbeat;
      pc := AtHead;
    }

    /** The handler of the loop's `try`: count, back off, close, and force a reconnect. */
    method Recover(ghost v: State, tape: seq<Input>, i: nat) returns (used: nat, outcome: Outcome)
      requires At(v, tape, i) && pc.Failing?
      modifies this
      ensures At(v, tape, used) && i <= used
      ensures outcome.Completed? || outcome.Escaped? || outcome.Cut?
      ensures outcome.Completed? ==> pc.AtHead?
      ensures outcome.Escaped? ==> pc.Dead?
      ensures outcome.Cut? ==> used == |tape|
    {
      hide FlowView, ControlView, LinkView, AccountView, RetryView, ClockView, Step;
      var answer;
      used, answer := Others(v, tape, i);
      if answer.None? {
        return used, Cut;
      }
      var raised := BackOff(answer.value);
      assert tape[..used][..used - 1] == tape[..used - 1];
      if raised {
        return used, Escaped;
      }
      used, answer := Others(v, tape, used);
      if answer.None? {
        return used, Cut;
      }
      Forget(answer.value);
      assert tape[..used][..used - 1] == tape[..used - 1];
      outcome := Completed;
    }

    method Leave(a: Answer)
      requires pc.Exiting? && threadAlive
      modifies this
      ensures View() == Step(config, old(View()), Go(a)) && !threadAlive && pc.Dead?
    {
      hide FlowView, ControlView, LinkView, AccountView, RetryView, ClockView, Close;
      DropConnection(a);
      pc, threadAlive := Dead, false;
    }

    /** What follows the loop. */
    method CleanUp(ghost v: State, tape: seq<Input>, i: nat) returns (used: nat)
      requires At(v, tape, i) && pc.Exiting?
      modifies this
      ensures At(v, tape, used) && (used == |tape| || pc.Dead?)
    {
      hide FlowView, ControlView, LinkView, AccountView, RetryView, ClockView, Step;
      var answer;
      used, answer := Others(v, tape, i);
      if answer.Some? {
        Leave(answer.value);
        assert tape[..used][..used - 1] == tape[..used - 1];
      }
    }

    method CheckStop(a: Answer) returns (stop: bool)
      requires pc.AtHead? && threadAlive
      modifies this`pc
      ensures View() == Step(config, old(View()), Go(a))
      ensures pc == if stop then Exiting else Ensuring
    {
      hide FlowView, LinkView, AccountView, RetryView, ClockView;
      stop := stopEvent;
      pc := if stop then Exiting else Ensuring;
    }

    /** `_run`: every input up to the end of the tape or of the thread takes the object one machine step on. */
    method Run(tape: seq<Input>) returns (used: nat)
      requires pc.AtHead? && threadAlive
      modifies this
      ensures used <= |tape| && View() == After(config, old(View()), tape[..used])
      ensures used == |tape| || pc.Dead?
      ensures threadAlive <==> !pc.Dead?
    {
      hide FlowView, ControlView, LinkView, AccountView, RetryView, ClockView, Step;
      ghost var v := View();
      used := 0;
      while true
        invariant At(v, tape, used) && pc.AtHead?
        decreases |tape| - used
      {
        var answer, outcome;
        used, answer := Others(v, tape, used);
        if answer.None? {
          return used;
        }
        assert tape[..used][..used - 1] == tape[..used - 1];
        var stop := CheckStop(answer.value);
        if stop {
          break;
        }
        used, outcome := EnsureConnectionAndChannels(v, tape, used);
        if outcome.Completed? {
          used, outcome := TakeAndPublish(v, tape, used);
        }
        if outcome.Failed? {
          used, outcome := Recover(v, tape, used);
        }
        if outcome.Cut? || outcome.Escaped? {
          return used;
        }
        if outcome.BrokeOut? {
          break;
        }
      }
      used := CleanUp(v, tape, used);
    }
  }
}
