/**
 Deliveries and their settlement over whole runs: a broker, one listener of any kind, and an
 environment that loses channels and connections, refuses calls, and runs the listener's threads or
 tasks in any order.

 The broker: every message is in one place; a delivery tag is good on its channel only, and only until
 it is settled (section 1.8.3.13 of AMQP 0-9-1); when a channel goes, what is unsettled on it is ready
 again.  Assumed of RabbitMQ: a negative acknowledgement requeues or dead-letters, and the dead-letter
 route keeps what it is given and may bring it back with other headers.
 */
module Settlement {
  import opened Wrappers
  import opened DeadLettering
  import opened Handlers

  datatype Key = Key(epoch: nat, tag: nat)

  /** Where a message is; `task` names the delivery concerned. */
  datatype Place = Ready | Unsettled(key: Key, task: nat) | DeadLettered | Acked(task: nat) | AutoAcked

  datatype Mail = Mail(message: Message, at: Place)

  /** A poison copy in a dead-letter queue. */
  datatype Copy = Copy(queue: string, message: Message, task: nat)

  /** `Queued`: the settlement waits among the callbacks of a connection for its I/O thread. */
  datatype Pc = Arriving | Submitting | InCallback | Queued(conn: nat, op: Op) | Doing(op: Op) | Finished

  /** One delivery, with the channel and tag captured when it was made; `log` is the calls made for it. */
  datatype Task = Task(
    mail: nat,
    key: Key,
    x: Context,
    pc: Pc,
    raised: Option<bool>,
    log: seq<Done>,
    accepted: seq<Op>,
    copy: Option<nat>,
    holds: bool,
    scheduled: bool,
    abandoned: bool)
  {
    predicate Faulted() {
      exists i :: 0 <= i < |log| && !log[i].ok
    }
  }

  datatype Net = Net(conn: Option<nat>, channel: Option<nat>, conns: nat, epochs: nat, nextTag: nat)

  datatype Setup = Setup(mode: Mode, autoAck: bool, cfg: Config, maxInFlight: nat)

  /** `busy`: the delivery the I/O thread is handling; `rejected`: calls the broker refuses as a protocol error. */
  datatype State = State(
    mail: seq<Mail>,
    tasks: seq<Task>,
    copies: seq<Copy>,
    net: Net,
    free: nat,
    busy: Option<nat>,
    stopMe: bool,
    rejected: nat)

  datatype Input =
    | Arrive(message: Message)
    | ReturnDead(m: nat, headers: Headers)
    | Connect
    | OpenChannel
    | LoseChannel
    | LoseConnection
    | StopListening
    | Deliver(m: nat)
    | Acquire(j: nat)
    | Submit(j: nat, ok: bool)
    | End(j: nat, raised: bool, enqueued: bool)
    | RunQueued(j: nat)
    | Perform(j: nat, ok: bool)
    | Release(j: nat)
    | Cancel(j: nat)

  function Init(u: Setup): State {
    State([], [], [], Net(None, None, 0, 0, 1), u.maxInFlight, None, false, 0)
  }

  // ---------------------------------------------------------------- the broker

  function Requeue(mail: seq<Mail>): (r: seq<Mail>)
    ensures |r| == |mail|
    ensures forall m :: 0 <= m < |r| ==>
              r[m] == if mail[m].at.Unsettled? then mail[m].(at := Ready) else mail[m]
  {
    seq(|mail|, m requires 0 <= m < |mail| => if mail[m].at.Unsettled? then mail[m].(at := Ready) else mail[m])
  }

  /** The message the broker holds unsettled under a key. */
  function Find(mail: seq<Mail>, key: Key): (r: Option<nat>)
    ensures r.Some? ==> r.value < |mail| && mail[r.value].at.Unsettled? && mail[r.value].at.key == key
    ensures r.None? ==> forall m :: 0 <= m < |mail| && mail[m].at.Unsettled? ==> mail[m].at.key != key
  {
    if mail == [] then None
    else
      var last := |mail| - 1;
      if mail[last].at.Unsettled? && mail[last].at.key == key then Some(last) else Find(mail[..last], key)
  }

  function PlaceAfter(op: Op, task: nat): Place
    requires !op.Publish?
  {
    match op
    case Ack(_) => Acked(task)
    case Nack(requeue) => if requeue then Ready else DeadLettered
  }

  // ---------------------------------------------------------------- a delivery

  function PcOf(next: Next): Pc {
    match next
    case Finish => Finished
    case Do(op) => Doing(op)
  }

  /** The delivery after a call that raised. */
  function Raised(t: Task, op: Op): Task {
    t.(pc := PcOf(NextOp(t.x, op, false)), log := t.log + [Done(op, false)])
  }

  function Settled(t: Task, op: Op): Task {
    t.(pc := PcOf(NextOp(t.x, op, true)), log := t.log + [Done(op, true)], accepted := t.accepted + [op])
  }

  function Published(t: Task, op: Op, copy: nat): Task {
    t.(pc := PcOf(NextOp(t.x, op, true)), log := t.log + [Done(op, true)], copy := Some(copy))
  }

  /** A call made by this delivery reaches an open channel: its own, or for an async publish the listener's. */
  predicate Reaches(net: Net, t: Task, op: Op) {
    if t.x.mode.Async? && op.Publish? then net.channel.Some? else net.channel == Some(t.key.epoch)
  }

  function Freed(busy: Option<nat>, j: nat, t: Task): Option<nat> {
    if busy == Some(j) && t.pc.Finished? then None else busy
  }

  function Update(s: State, j: nat, t: Task): State
    requires j < |s.tasks|
  {
    s.(tasks := s.tasks[j := t], busy := Freed(s.busy, j, t))
  }

  function PerformStep(s: State, j: nat, op: Op, ok: bool): State
    requires j < |s.tasks|
  {
    var t := s.tasks[j];
    if !ok || !Reaches(s.net, t, op) then Update(s, j, Raised(t, op))
    else if op.Publish? then
      Update(s, j, Published(t, op, |s.copies|)).(copies := s.copies + [Copy(op.queue, op.message, j)])
    else
      var held := Find(s.mail, t.key);
      if held.None? then Update(s, j, Raised(t, op)).(rejected := s.rejected + 1)
      else Update(s, j, Settled(t, op)).(mail := s.mail[held.value := s.mail[held.value].(at := PlaceAfter(op, j))])
  }

  function Delivered(u: Setup, s: State, m: nat): Task
    requires m < |s.mail| && s.net.channel.Some?
  {
    var ignored := s.stopMe && !u.mode.Async?;
    Task(m, Key(s.net.channel.value, s.net.nextTag), Context(u.mode, u.autoAck, u.cfg, s.mail[m].message),
         if ignored then Finished else if u.mode.Offload? then Arriving else InCallback,
         None, [], [], None, false, false, ignored)
  }

  function DeliverStep(u: Setup, s: State, m: nat): State {
    if m >= |s.mail| || !s.mail[m].at.Ready? || s.net.channel.None? || s.busy.Some? then s
    else
      var j := |s.tasks|;
      var t := Delivered(u, s, m);
      s.(mail := s.mail[m := s.mail[m].(at := if u.autoAck then AutoAcked else Unsettled(t.key, j))],
         tasks := s.tasks + [t],
         net := s.net.(nextTag := s.net.nextTag + 1),
         busy := if t.pc.Finished? || u.mode.Async? then None else Some(j))
  }

  /** A refused submit gives the permit back and falls to the direct wrapper, which looks at the stop flag again. */
  function SubmitStep(s: State, j: nat, ok: bool): State
    requires j < |s.tasks|
  {
    var t := s.tasks[j];
    if ok then s.(tasks := s.tasks[j := t.(pc := InCallback)], busy := None)
    else
      Update(s, j, t.(x := t.x.(mode := Direct), holds := false,
                      pc := if s.stopMe then Finished else InCallback, abandoned := s.stopMe)).(free := s.free + 1)
  }

  function EndTask(net: Net, t: Task, raised: bool, enqueued: bool): Task {
    match FirstOp(t.x, raised)
    case Finish => t.(raised := Some(raised), pc := Finished)
    case Do(op) =>
      if t.x.mode.Offload? && enqueued && net.conn.Some? then
        t.(raised := Some(raised), pc := Queued(net.conn.value, op), scheduled := true)
      else t.(raised := Some(raised), pc := Doing(op))
  }

  predicate MayRelease(t: Task) {
    t.holds && (t.pc.Finished? || t.scheduled)
  }

  function TaskStep(s: State, e: Input, j: nat): State
    requires j < |s.tasks|
  {
    var t := s.tasks[j];
    match e
    case Acquire(_) =>
      if t.pc.Arriving? && s.free > 0 then
        s.(tasks := s.tasks[j := t.(pc := Submitting, holds := true)], free := s.free - 1)
      else s
    case Submit(_, ok) => if t.pc.Submitting? then SubmitStep(s, j, ok) else s
    case End(_, raised, enqueued) =>
      if t.pc.InCallback? then Update(s, j, EndTask(s.net, t, raised, enqueued)) else s
    case RunQueued(_) =>
      if t.pc.Queued? && s.net.conn == Some(t.pc.conn) && s.busy.None? then Update(s, j, t.(pc := Doing(t.pc.op)))
      else s
    case Perform(_, ok) => if t.pc.Doing? then PerformStep(s, j, t.pc.op, ok) else s
    case Release(_) =>
      if MayRelease(t) then s.(tasks := s.tasks[j := t.(holds := false)], free := s.free + 1) else s
    case Cancel(_) =>
      if t.x.mode.Async? && (t.pc.InCallback? || t.pc.Doing?) then
        Update(s, j, t.(pc := Finished, abandoned := true))
      else s
    case _ => s
  }

  function NetStep(net: Net, e: Input): Net {
    match e
    case Connect => if net.conn.None? then net.(conn := Some(net.conns), conns := net.conns + 1) else net
    case OpenChannel =>
      if net.conn.Some? && net.channel.None? then
        net.(channel := Some(net.epochs), epochs := net.epochs + 1, nextTag := 1)
      else net
    case LoseChannel => net.(channel := None)
    case LoseConnection => net.(channel := None, conn := None)
    case _ => net
  }

  function Step(u: Setup, s: State, e: Input): State {
    match e
    case Arrive(message) => s.(mail := s.mail + [Mail(message, Ready)])
    case ReturnDead(m, headers) =>
      if m < |s.mail| && s.mail[m].at.DeadLettered? then
        s.(mail := s.mail[m := Mail(s.mail[m].message.(headers := headers), Ready)])
      else s
    case Connect => s.(net := NetStep(s.net, e))
    case OpenChannel => s.(net := NetStep(s.net, e))
    case LoseChannel => s.(net := NetStep(s.net, e), mail := Requeue(s.mail))
    case LoseConnection => s.(net := NetStep(s.net, e), mail := Requeue(s.mail))
    case StopListening => s.(stopMe := true)
    case Deliver(m) => DeliverStep(u, s, m)
    case _ => if e.j < |s.tasks| then TaskStep(s, e, e.j) else s
  }

  function After(u: Setup, s: State, tape: seq<Input>): State {
    if tape == [] then s else Step(u, After(u, s, tape[..|tape| - 1]), tape[|tape| - 1])
  }

  // ---------------------------------------------------------------- the invariant

  /** The next call of a delivery is one its program can be at. */
  predicate Fits(t: Task, op: Op) {
    && t.raised.Some? && !t.x.autoAck
    && match op
       case Ack(poison) => if poison then t.copy.Some? else t.raised == Some(false) && t.copy.None?
       case Publish(_, _) => IsPoison(t.x) && !t.x.mode.Direct? && t.copy.None? && FailurePath(t.x) == Do(op)
       case Nack(_) => true
  }

  /** The call that ended a delivery unsettled. */
  predicate EndedBy(t: Task, d: Done) {
    !d.ok && NextOp(t.x, d.op, false).Finish?
  }

  predicate Underway(pc: Pc) {
    pc.Queued? || pc.Doing?
  }

  predicate TaskOk(u: Setup, t: Task) {
    && t.x.autoAck == u.autoAck && t.x.cfg == u.cfg
    && (t.x.mode == u.mode || (u.mode.Offload? && t.x.mode.Direct?))
    && |t.accepted| <= 1
    && (t.accepted != [] ==> t.pc.Finished? && !u.autoAck && !t.accepted[0].Publish?)
    && (t.pc.Arriving? || t.pc.Submitting? || t.pc.InCallback? ==> t.raised.None? && t.copy.None?)
    && (Underway(t.pc) ==> Fits(t, t.pc.op))
    && (t.copy.Some? ==> IsPoison(t.x) && !t.x.mode.Direct? && !u.autoAck)
    && (t.accepted != [] && t.accepted[0].Ack? ==> t.raised == Some(false) || t.copy.Some?)
    && (t.pc.Finished? && !u.autoAck && t.accepted == [] ==>
          t.abandoned || (t.log != [] && EndedBy(t, t.log[|t.log| - 1])))
  }

  ghost predicate TasksOk(u: Setup, tasks: seq<Task>) {
    forall j :: 0 <= j < |tasks| ==> TaskOk(u, tasks[j])
  }

  /** Tags are given out once per channel, so no two deliveries have the same channel and tag. */
  ghost predicate KeysOk(tasks: seq<Task>, net: Net) {
    && (forall i, j :: 0 <= i < j < |tasks| ==> tasks[i].key != tasks[j].key)
    && (forall j :: 0 <= j < |tasks| ==> tasks[j].key.epoch < net.epochs)
    && (forall j :: 0 <= j < |tasks| && net.channel == Some(tasks[j].key.epoch) ==> tasks[j].key.tag < net.nextTag)
    && (net.channel.Some? ==> net.conn.Some? && net.channel.value < net.epochs)
  }

  predicate AckedBy(t: Task, m: nat) {
    t.mail == m && t.accepted != [] && t.accepted[0].Ack?
  }

  predicate HeldFor(t: Task, m: nat, key: Key) {
    t.mail == m && t.key == key && t.accepted == []
  }

  /** The broker and the listener agree on what is unsettled, and on who acknowledged what. */
  ghost predicate MailOk(u: Setup, mail: seq<Mail>, tasks: seq<Task>, channel: Option<nat>) {
    && (forall m :: 0 <= m < |mail| && mail[m].at.Unsettled? ==>
          && mail[m].at.task < |tasks|
          && HeldFor(tasks[mail[m].at.task], m, mail[m].at.key)
          && channel == Some(mail[m].at.key.epoch) && !u.autoAck)
    && (forall m :: 0 <= m < |mail| && mail[m].at.Acked? ==>
          mail[m].at.task < |tasks| && AckedBy(tasks[mail[m].at.task], m))
    && (forall m :: 0 <= m < |mail| && mail[m].at.AutoAcked? ==> u.autoAck)
    && (forall j :: 0 <= j < |tasks| ==> tasks[j].mail < |mail|)
    && (forall j :: 0 <= j < |tasks| && !u.autoAck && tasks[j].accepted == [] && channel == Some(tasks[j].key.epoch) ==>
          mail[tasks[j].mail].at == Unsettled(tasks[j].key, j))
  }

  /** Copies and the deliveries that published them correspond one to one. */
  ghost predicate CopiesOk(copies: seq<Copy>, tasks: seq<Task>) {
    && (forall i :: 0 <= i < |copies| ==>
          && copies[i].task < |tasks|
          && tasks[copies[i].task].copy == Some(i)
          && copies[i].message == tasks[copies[i].task].x.message
          && Some(copies[i].queue) == tasks[copies[i].task].x.cfg.deadLetterQueue)
    && (forall j :: 0 <= j < |tasks| && tasks[j].copy.Some? ==>
          tasks[j].copy.value < |copies| && copies[tasks[j].copy.value].task == j)
  }

  function Holding(tasks: seq<Task>): nat {
    if tasks == [] then 0 else Holding(tasks[..|tasks| - 1]) + (if tasks[|tasks| - 1].holds then 1 else 0)
  }

  /** What a delivery's stage says of its permit. */
  predicate PermitFits(t: Task) {
    && (t.holds ==> !t.pc.Arriving? && t.x.mode.Offload?)
    && (t.pc.Arriving? || t.pc.Submitting? ==> t.x.mode.Offload?)
    && (t.x.mode.Offload? && (t.pc.Submitting? || t.pc.InCallback?) ==> t.holds)
    && (t.pc.Queued? ==> t.scheduled)
    && (t.scheduled ==> t.pc.Queued? || t.pc.Doing? || t.pc.Finished?)
  }

  /** Every permit is free or held, and only the delivery the I/O thread is at waits for one. */
  ghost predicate PermitsOk(u: Setup, tasks: seq<Task>, free: nat, busy: Option<nat>) {
    && free + Holding(tasks) == u.maxInFlight
    && (forall j :: 0 <= j < |tasks| ==> PermitFits(tasks[j]))
    && (forall j :: 0 <= j < |tasks| && (tasks[j].pc.Arriving? || tasks[j].pc.Submitting?) ==> busy == Some(j))
  }

  /** A settlement queued on a connection concerns, if its channel is still open, a channel of that connection. */
  ghost predicate QueuedOk(tasks: seq<Task>, net: Net) {
    forall j :: 0 <= j < |tasks| && tasks[j].pc.Queued? && net.channel == Some(tasks[j].key.epoch) ==>
      net.conn == Some(tasks[j].pc.conn)
  }

  ghost predicate Inv(u: Setup, s: State) {
    && TasksOk(u, s.tasks)
    && KeysOk(s.tasks, s.net)
    && MailOk(u, s.mail, s.tasks, s.net.channel)
    && CopiesOk(s.copies, s.tasks)
    && PermitsOk(u, s.tasks, s.free, s.busy)
    && QueuedOk(s.tasks, s.net)
    && s.rejected == 0
  }
}
