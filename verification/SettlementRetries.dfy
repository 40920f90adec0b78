/** How often a message can go round the dead-letter route, over whole runs. */
module SettlementRetries {
  import opened DeadLettering
  import opened Handlers
  import opened Settlement
  import opened SettlementRuns

  /** This delivery sent message m to the dead-letter route, short of being poison or (after a fault) as poison. */
  predicate DeadLetteredBy(t: Task, m: nat, poison: bool) {
    t.mail == m && t.accepted == [Nack(false)] && (IsPoison(t.x) <==> poison)
  }

  function DeadLetterings(tasks: seq<Task>, m: nat, poison: bool): nat {
    if tasks == [] then 0
    else
      DeadLetterings(tasks[..|tasks| - 1], m, poison)
      + (if DeadLetteredBy(tasks[|tasks| - 1], m, poison) then 1 else 0)
  }

  /** The broker's route adds at least c to the deaths at each return, and no message arrives with fewer than none. */
  predicate RaisesDeaths(c: nat, s: State, e: Input) {
    match e
    case Arrive(message) => Deaths(message.headers) >= 0
    case ReturnDead(m, headers) =>
      m < |s.mail| && s.mail[m].at.DeadLettered? ==> Deaths(headers) >= Deaths(s.mail[m].message.headers) + c
    case _ => true
  }

  predicate RaisingRun(u: Setup, c: nat, tape: seq<Input>) {
    tape != [] ==>
      var front := tape[..|tape| - 1];
      RaisingRun(u, c, front) && RaisesDeaths(c, Run(u, front), tape[|tape| - 1])
  }

  // ---------------------------------------------------------------- the invariant

  /** A negative acknowledgement is by the configured mode, and of poison only after a fault of an async handler. */
  predicate NackFits(t: Task, requeue: bool) {
    if t.x.mode.Direct? then requeue
    else requeue == t.x.cfg.onError.Requeue? && (IsPoison(t.x) ==> t.x.mode.Async? && t.Faulted())
  }

  predicate NackOk(t: Task) {
    && (Underway(t.pc) && t.pc.op.Nack? ==> NackFits(t, t.pc.op.requeue))
    && (t.accepted != [] && t.accepted[0].Nack? ==> NackFits(t, t.accepted[0].requeue))
  }

  ghost predicate NacksOk(tasks: seq<Task>) {
    forall j :: 0 <= j < |tasks| ==> NackOk(tasks[j])
  }

  /** What is being handled is what the broker holds. */
  ghost predicate MessagesOk(mail: seq<Mail>, tasks: seq<Task>) {
    forall m :: 0 <= m < |mail| && mail[m].at.Unsettled? ==>
      mail[m].at.task < |tasks| && tasks[mail[m].at.task].x.message == mail[m].message
  }

  /** Each trip has been paid for by c deaths, but one under way. */
  predicate Paid(u: Setup, c: nat, mail: Mail, trips: nat) {
    && Deaths(mail.message.headers) >= 0
    && c * trips <= Deaths(mail.message.headers) + (if mail.at.DeadLettered? then c else 0)
    && (trips > 0 ==> c * trips <= u.cfg.maxRetries - 2 + c)
  }

  ghost predicate AllPaid(u: Setup, c: nat, mail: seq<Mail>, tasks: seq<Task>) {
    && (forall m :: 0 <= m < |mail| ==> Paid(u, c, mail[m], DeadLetterings(tasks, m, false)))
    && (forall j :: 0 <= j < |tasks| ==> tasks[j].mail < |mail|)
  }

  ghost predicate RetriesOk(u: Setup, c: nat, s: State) {
    NacksOk(s.tasks) && MessagesOk(s.mail, s.tasks) && AllPaid(u, c, s.mail, s.tasks)
  }

  // ---------------------------------------------------------------- counting

  lemma {:induction false} TripsUpdate(tasks: seq<Task>, j: nat, t': Task, m: nat, poison: bool)
    requires j < |tasks|
    ensures DeadLetterings(tasks[j := t'], m, poison) + (if DeadLetteredBy(tasks[j], m, poison) then 1 else 0)
         == DeadLetterings(tasks, m, poison) + (if DeadLetteredBy(t', m, poison) then 1 else 0)
  {
    var n := |tasks| - 1;
    hide DeadLetteredBy;
    if j == n {
      assert tasks[j := t'][..n] == tasks[..n];
    } else {
      TripsUpdate(tasks[..n], j, t', m, poison);
      assert tasks[j := t'][..n] == tasks[..n][j := t'];
    }
  }

  lemma TripsAppend(tasks: seq<Task>, t: Task, m: nat, poison: bool)
    ensures DeadLetterings(tasks + [t], m, poison)
         == DeadLetterings(tasks, m, poison) + (if DeadLetteredBy(t, m, poison) then 1 else 0)
  {
    hide DeadLetteredBy;
    assert (tasks + [t])[..|tasks|] == tasks;
  }

  lemma {:induction false} NoTrips(tasks: seq<Task>, m: nat, poison: bool)
    requires forall j :: 0 <= j < |tasks| ==> tasks[j].mail != m
    ensures DeadLetterings(tasks, m, poison) == 0
  {
    if tasks != [] {
      NoTrips(tasks[..|tasks| - 1], m, poison);
    }
  }

  lemma {:induction false} NoPoisonTrips(tasks: seq<Task>, m: nat)
    requires NacksOk(tasks)
    requires forall j :: 0 <= j < |tasks| ==> !tasks[j].x.mode.Async?
    ensures DeadLetterings(tasks, m, true) == 0
  {
    if tasks != [] {
      assert NackOk(tasks[|tasks| - 1]);
      NoPoisonTrips(tasks[..|tasks| - 1], m);
    }
  }

  // ---------------------------------------------------------------- preservation

  /** A step of one delivery that settles nothing. */
  lemma QuietKept(u: Setup, c: nat, s: State, j: nat, t': Task, r: State)
    requires RetriesOk(u, c, s) && j < |s.tasks|
    requires Same(s.tasks[j], t') && NackOk(t')
    requires r.mail == s.mail && r.tasks == s.tasks[j := t']
    ensures RetriesOk(u, c, r)
  {
    hide NackOk, Paid;
    assert MessagesOk(r.mail, r.tasks);
    forall m | 0 <= m < |s.mail|
      ensures Paid(u, c, r.mail[m], DeadLetterings(r.tasks, m, false))
    {
      TripsUpdate(s.tasks, j, t', m, false);
    }
  }

  lemma LocalNackOk(u: Setup, s: State, e: Input, j: nat)
    requires j < |s.tasks| && !e.Perform? && NackOk(s.tasks[j])
    requires TaskOk(u, s.tasks[j])
    ensures NackOk(TaskStep(s, e, j).tasks[j])
  {
    if e.End? && s.tasks[j].pc.InCallback? {
      EndNackOk(u, s.net, s.tasks[j], e.raised, e.enqueued);
      hide NackOk, TaskOk, EndTask;
    } else {
      hide Fits, EndTask, NackFits, EndedBy;
    }
  }

  lemma EndNackOk(u: Setup, net: Net, t: Task, raised: bool, enqueued: bool)
    requires TaskOk(u, t) && NackOk(t) && t.pc.InCallback?
    ensures NackOk(EndTask(net, t, raised, enqueued))
  {
  }

  lemma LocalRetries(u: Setup, c: nat, s: State, e: Input, j: nat)
    requires Inv(u, s) && RetriesOk(u, c, s) && j < |s.tasks| && !e.Perform?
    ensures RetriesOk(u, c, TaskStep(s, e, j))
  {
    var r := TaskStep(s, e, j);
    assert TaskOk(u, s.tasks[j]) && NackOk(s.tasks[j]);
    LocalNackOk(u, s, e, j);
    LocalSame(u, s, e, j);
    hide Inv, RetriesOk, NackOk, TaskOk, TaskStep, Same;
    QuietKept(u, c, s, j, r.tasks[j], r);
  }

  lemma LocalSame(u: Setup, s: State, e: Input, j: nat)
    requires Inv(u, s) && j < |s.tasks| && !e.Perform?
    ensures var r := TaskStep(s, e, j);
            && |r.tasks| == |s.tasks| && r.mail == s.mail
            && r.tasks == s.tasks[j := r.tasks[j]] && Same(s.tasks[j], r.tasks[j])
  {
    assert s.tasks[j := s.tasks[j]] == s.tasks;
    if !e.Submit? {
      LocalShape(u, s, e, j);
    }
  }

  lemma CallNackOk(u: Setup, t: Task, op: Op, copy: nat)
    requires TaskOk(u, t) && NackOk(t) && t.pc == Doing(op)
    ensures NackOk(Raised(t, op)) && Same(t, Raised(t, op))
    ensures op.Publish? ==> NackOk(Published(t, op, copy)) && SameMessage(t, Published(t, op, copy))
    ensures !op.Publish? ==> NackOk(Settled(t, op)) && t.accepted == []
  {
    FaultsStay(t, Raised(t, op), Done(op, false));
    FaultsStay(t, Settled(t, op), Done(op, true));
    FaultsStay(t, Published(t, op, copy), Done(op, true));
    hide Task.Faulted;
  }

  lemma FaultsStay(t: Task, t': Task, d: Done)
    requires t'.log == t.log + [d]
    ensures t.Faulted() || !d.ok ==> t'.Faulted()
  {
    if t.Faulted() {
      var i :| 0 <= i < |t.log| && !t.log[i].ok;
      assert t'.log[i] == t.log[i];
    } else if !d.ok {
      assert t'.log[|t.log|] == d;
    }
  }

  /** What the counts and the broker's books depend on. */
  predicate SameMessage(t: Task, t': Task) {
    t'.mail == t.mail && t'.accepted == t.accepted && t'.x == t.x
  }

  lemma PublishedRetries(u: Setup, c: nat, s: State, j: nat, t': Task, r: State)
    requires RetriesOk(u, c, s) && j < |s.tasks|
    requires SameMessage(s.tasks[j], t') && NackOk(t')
    requires r.mail == s.mail && r.tasks == s.tasks[j := t']
    ensures RetriesOk(u, c, r)
  {
    hide NackOk, Paid;
    assert MessagesOk(r.mail, r.tasks);
    forall m | 0 <= m < |s.mail|
      ensures Paid(u, c, r.mail[m], DeadLetterings(r.tasks, m, false))
    {
      TripsUpdate(s.tasks, j, t', m, false);
    }
  }

  /** A settlement pays for the trip it starts: short of poison there is room for one more. */
  lemma SettledPaid(u: Setup, c: nat, mail: Mail, t: Task, op: Op, j: nat, trips: nat)
    requires Paid(u, c, mail, trips) && !mail.at.DeadLettered? && !op.Publish?
    requires t.x.message == mail.message && t.x.cfg == u.cfg && HasQueue(u.cfg)
    ensures var more := if op == Nack(false) && !IsPoison(t.x) then 1 else 0;
            Paid(u, c, mail.(at := PlaceAfter(op, j)), trips + more)
  {
    assert c * (trips + 1) == c * trips + c;
  }

  lemma SettledRetries(u: Setup, c: nat, s: State, j: nat, op: Op, r: State)
    requires RetriesOk(u, c, s) && j < |s.tasks| && HasQueue(u.cfg)
    requires s.tasks[j].x.cfg == u.cfg && s.tasks[j].accepted == [] && !op.Publish?
    requires s.tasks[j].mail < |s.mail| && s.mail[s.tasks[j].mail].at == Unsettled(s.tasks[j].key, j)
    requires NackOk(Settled(s.tasks[j], op))
    requires var m := s.tasks[j].mail;
             && r.mail == s.mail[m := s.mail[m].(at := PlaceAfter(op, j))]
             && r.tasks == s.tasks[j := Settled(s.tasks[j], op)]
    ensures RetriesOk(u, c, r)
  {
    hide NackOk, Paid;
    var t, t' := s.tasks[j], Settled(s.tasks[j], op);
    assert t'.accepted == [op] && t'.mail == t.mail && t'.x == t.x;
    assert DeadLetteredBy(t', t.mail, false) <==> op == Nack(false) && !IsPoison(t.x);
    forall m | 0 <= m < |r.mail|
      ensures Paid(u, c, r.mail[m], DeadLetterings(r.tasks, m, false))
    {
      TripsUpdate(s.tasks, j, t', m, false);
      if m == t.mail {
        SettledPaid(u, c, s.mail[m], t, op, j, DeadLetterings(s.tasks, m, false));
      }
    }
  }

  lemma PerformRetries(u: Setup, c: nat, s: State, j: nat, op: Op, ok: bool)
    requires Inv(u, s) && RetriesOk(u, c, s) && j < |s.tasks| && s.tasks[j].pc == Doing(op) && HasQueue(u.cfg)
    ensures RetriesOk(u, c, PerformStep(s, j, op, ok))
  {
    var t := s.tasks[j];
    var r := PerformStep(s, j, op, ok);
    assert TaskOk(u, t) && NackOk(t);
    CallTaskOk(u, t, op, |s.copies|);
    CallNackOk(u, t, op, |s.copies|);
    if !ok || !Reaches(s.net, t, op) {
      hide NackOk, TaskOk, Same, RetriesOk, KeysOk, MailOk, CopiesOk, PermitsOk;
      QuietKept(u, c, s, j, Raised(t, op), r);
    } else if op.Publish? {
      hide NackOk, TaskOk, SameMessage, RetriesOk, KeysOk, MailOk, CopiesOk, PermitsOk;
      PublishedRetries(u, c, s, j, Published(t, op, |s.copies|), r);
    } else {
      FindsOwn(u, s, j);
      assert s.mail[t.mail].at == Unsettled(t.key, j);
      hide NackOk, TaskOk, RetriesOk, KeysOk, MailOk, CopiesOk, PermitsOk, NextOp;
      SettledRetries(u, c, s, j, op, r);
    }
  }

  lemma DeliverRetries(u: Setup, c: nat, s: State, m: nat)
    requires RetriesOk(u, c, s)
    ensures RetriesOk(u, c, DeliverStep(u, s, m))
  {
    var r := DeliverStep(u, s, m);
    if r != s {
      var t := Delivered(u, s, m);
      assert NackOk(t);
      hide NackOk, Delivered;
      forall k | 0 <= k < |r.mail|
        ensures Paid(u, c, r.mail[k], DeadLetterings(r.tasks, k, false))
      {
        TripsAppend(s.tasks, t, k, false);
        DeliveredFresh(u, s, m);
      }
      DeliveredFresh(u, s, m);
    }
  }

  lemma DeliveredFresh(u: Setup, s: State, m: nat)
    requires m < |s.mail| && s.net.channel.Some?
    ensures var t := Delivered(u, s, m);
            t.accepted == [] && t.mail == m && t.x.message == s.mail[m].message
  {
  }

  lemma MailRetries(u: Setup, c: nat, s: State, e: Input)
    requires RetriesOk(u, c, s) && RaisesDeaths(c, s, e)
    requires e.Arrive? || e.ReturnDead? || e.LoseChannel? || e.LoseConnection?
    ensures RetriesOk(u, c, Step(u, s, e))
  {
    var r := Step(u, s, e);
    hide NackOk;
    if e.Arrive? {
      NoTrips(s.tasks, |s.mail|, false);
    }
    forall m | 0 <= m < |r.mail|
      ensures Paid(u, c, r.mail[m], DeadLetterings(r.tasks, m, false))
    {
      if m < |s.mail| {
        assert Paid(u, c, s.mail[m], DeadLetterings(s.tasks, m, false));
      }
    }
  }

  lemma RetriesKept(u: Setup, c: nat, s: State, e: Input)
    requires Inv(u, s) && RetriesOk(u, c, s) && HasQueue(u.cfg) && RaisesDeaths(c, s, e)
    ensures RetriesOk(u, c, Step(u, s, e))
  {
    hide Inv, RetriesOk, RaisesDeaths;
    match e
    case Arrive(_) => MailRetries(u, c, s, e);
    case ReturnDead(_, _) => MailRetries(u, c, s, e);
    case LoseChannel => MailRetries(u, c, s, e);
    case LoseConnection => MailRetries(u, c, s, e);
    case Connect => SameBooks(u, c, s, Step(u, s, e));
    case OpenChannel => SameBooks(u, c, s, Step(u, s, e));
    case StopListening => SameBooks(u, c, s, Step(u, s, e));
    case Deliver(m) => DeliverRetries(u, c, s, m);
    case Perform(j, ok) =>
      if j < |s.tasks| && s.tasks[j].pc.Doing? {
        PerformRetries(u, c, s, j, s.tasks[j].pc.op, ok);
      }
    case _ =>
      if e.j < |s.tasks| {
        LocalRetries(u, c, s, e, e.j);
      }
  }

  lemma SameBooks(u: Setup, c: nat, s: State, r: State)
    requires RetriesOk(u, c, s) && r.mail == s.mail && r.tasks == s.tasks
    ensures RetriesOk(u, c, r)
  {
  }

  lemma {:induction false} RunsKeepRetries(u: Setup, c: nat, tape: seq<Input>)
    requires HasQueue(u.cfg) && RaisingRun(u, c, tape)
    ensures RetriesOk(u, c, Run(u, tape))
  {
    if tape != [] {
      hide Inv, RetriesOk, RaisesDeaths, Step;
      RunsKeepRetries(u, c, tape[..|tape| - 1]);
      RunsKeepInv(u, tape[..|tape| - 1]);
      RetriesKept(u, c, Run(u, tape[..|tape| - 1]), tape[|tape| - 1]);
    }
  }

  // ---------------------------------------------------------------- the bound

  /** The deliveries of m whose poison copy, or its acknowledgement, had a call that raised. */
  function Faulted(tasks: seq<Task>, m: nat): nat {
    if tasks == [] then 0
    else
      var t := tasks[|tasks| - 1];
      Faulted(tasks[..|tasks| - 1], m) + (if t.mail == m && IsPoison(t.x) && t.x.mode.Async? && t.Faulted() then 1 else 0)
  }

  lemma {:induction false} PoisonTripsFaulted(tasks: seq<Task>, m: nat)
    requires NacksOk(tasks)
    ensures DeadLetterings(tasks, m, true) <= Faulted(tasks, m)
  {
    if tasks != [] {
      assert NackOk(tasks[|tasks| - 1]);
      PoisonTripsFaulted(tasks[..|tasks| - 1], m);
    }
  }

  /**
   With a dead-letter queue set and a route that adds at least c deaths, a message goes round at most
   ceil((maxRetries - 1) / c) times, amid any other deliveries, reconnects, late completions and faults.
   Only an async handler sends poison round again, once for each delivery on which a call raised.
   */
  lemma RetriesBounded(u: Setup, c: nat, tape: seq<Input>, m: nat)
    requires HasQueue(u.cfg) && u.cfg.maxRetries >= 1 && c >= 1 && RaisingRun(u, c, tape)
    requires m < |Run(u, tape).mail|
    ensures var tasks := Run(u, tape).tasks;
            && DeadLetterings(tasks, m, false) <= CeilDiv(u.cfg.maxRetries - 1, c)
            && DeadLetterings(tasks, m, true) <= Faulted(tasks, m)
            && (!u.mode.Async? ==> DeadLetterings(tasks, m, true) == 0)
  {
    RunsKeepRetries(u, c, tape);
    RunsKeepInv(u, tape);
    hide Run, RaisingRun, NackOk, CeilDiv, DeadLetterings, Faulted, KeysOk, MailOk, CopiesOk, PermitsOk, QueuedOk, TaskOk;
    var s := Run(u, tape);
    PoisonTripsFaulted(s.tasks, m);
    if !u.mode.Async? {
      ModesOf(u, s.tasks);
      NoPoisonTrips(s.tasks, m);
    }
    TripsPaid(u, c, s.mail[m], DeadLetterings(s.tasks, m, false));
  }

  lemma ModesOf(u: Setup, tasks: seq<Task>)
    requires TasksOk(u, tasks) && !u.mode.Async?
    ensures forall j :: 0 <= j < |tasks| ==> !tasks[j].x.mode.Async?
  {
    forall j | 0 <= j < |tasks|
      ensures !tasks[j].x.mode.Async?
    {
      assert TaskOk(u, tasks[j]);
    }
  }

  lemma TripsPaid(u: Setup, c: nat, mail: Mail, trips: nat)
    requires Paid(u, c, mail, trips) && u.cfg.maxRetries >= 1 && c >= 1
    ensures trips <= CeilDiv(u.cfg.maxRetries - 1, c)
  {
    if trips > 0 {
      TripsWithin(u.cfg.maxRetries - 1, c, trips);
    }
  }

  lemma TripsWithin(a: nat, c: nat, trips: nat)
    requires c >= 1 && trips > 0 && c * trips <= a - 1 + c
    ensures trips <= CeilDiv(a, c)
  {
    CeilDivAbove(a, c, trips - 1);
    assert c * trips == c * (trips - 1) + c;
  }
}
