/** Every step of every interleaving keeps the settlement invariant. */
module SettlementRuns {
  import opened Wrappers
  import opened Handlers
  import opened Settlement

  // ---------------------------------------------------------------- a delivery's own step

  /** What the broker knows of a delivery is the same in both. */
  predicate SameToBroker(t: Task, t': Task) {
    t'.mail == t.mail && t'.key == t.key && t'.accepted == t.accepted
  }

  predicate Same(t: Task, t': Task) {
    && SameToBroker(t, t') && t'.copy == t.copy
    && t'.x.message == t.x.message && t'.x.cfg == t.x.cfg
  }

  lemma SameMail(u: Setup, mail: seq<Mail>, tasks: seq<Task>, net: Net, j: nat, t': Task)
    requires j < |tasks| && SameToBroker(tasks[j], t')
    requires KeysOk(tasks, net) && MailOk(u, mail, tasks, net.channel)
    ensures KeysOk(tasks[j := t'], net) && MailOk(u, mail, tasks[j := t'], net.channel)
  {
  }

  lemma SameCopies(copies: seq<Copy>, tasks: seq<Task>, j: nat, t': Task)
    requires j < |tasks| && Same(tasks[j], t') && CopiesOk(copies, tasks)
    ensures CopiesOk(copies, tasks[j := t'])
  {
  }

  lemma {:induction false} HoldingUpdate(tasks: seq<Task>, j: nat, t': Task)
    requires j < |tasks|
    ensures Holding(tasks[j := t']) + (if tasks[j].holds then 1 else 0) == Holding(tasks) + (if t'.holds then 1 else 0)
  {
    var n := |tasks| - 1;
    if j == n {
      assert tasks[j := t'][..n] == tasks[..n];
    } else {
      HoldingUpdate(tasks[..n], j, t');
      assert tasks[j := t'][..n] == tasks[..n][j := t'];
    }
  }

  /** A permit changes hands only between a delivery and the free ones. */
  lemma PermitsKept(u: Setup, tasks: seq<Task>, free: nat, busy: Option<nat>, j: nat, t': Task, free': nat, busy': Option<nat>)
    requires PermitsOk(u, tasks, free, busy) && j < |tasks|
    requires free' + (if t'.holds then 1 else 0) == free + (if tasks[j].holds then 1 else 0)
    requires PermitFits(t')
    requires t'.pc.Arriving? || t'.pc.Submitting? ==> busy' == Some(j)
    requires busy' == busy || (busy == Some(j) && busy'.None?)
    ensures PermitsOk(u, tasks[j := t'], free', busy')
  {
    HoldingUpdate(tasks, j, t');
  }

  lemma QuietStep(u: Setup, s: State, j: nat, t': Task, free': nat, busy': Option<nat>)
    requires Inv(u, s) && j < |s.tasks|
    requires Same(s.tasks[j], t') && TaskOk(u, t')
    requires PermitsOk(u, s.tasks[j := t'], free', busy')
    requires t'.pc.Queued? && s.net.channel == Some(t'.key.epoch) ==> s.net.conn == Some(t'.pc.conn)
    ensures Inv(u, s.(tasks := s.tasks[j := t'], free := free', busy := busy'))
  {
    hide TaskOk, KeysOk, MailOk, CopiesOk, PermitsOk;
    SameMail(u, s.mail, s.tasks, s.net, j, t');
    SameCopies(s.copies, s.tasks, j, t');
  }

  /** What a step of delivery j that makes no broker call leaves alone, and what it does to the permits. */
  predicate LocalChange(s: State, j: nat, r: State)
    requires j < |s.tasks|
  {
    && |r.tasks| == |s.tasks|
    && var t' := r.tasks[j];
    && r == s.(tasks := s.tasks[j := t'], free := r.free, busy := r.busy)
    && Same(s.tasks[j], t')
    && (t'.pc.Queued? ==> t'.pc == s.tasks[j].pc || s.net.conn == Some(t'.pc.conn))
    && r.free + (if t'.holds then 1 else 0) == s.free + (if s.tasks[j].holds then 1 else 0)
    && PermitFits(t')
    && (t'.pc.Arriving? || t'.pc.Submitting? ==> r.busy == Some(j))
    && (r.busy == s.busy || (s.busy == Some(j) && r.busy.None?))
  }

  lemma NoChange(s: State, j: nat)
    requires j < |s.tasks| && PermitFits(s.tasks[j])
    requires s.tasks[j].pc.Arriving? || s.tasks[j].pc.Submitting? ==> s.busy == Some(j)
    ensures LocalChange(s, j, s)
  {
    assert s.tasks[j := s.tasks[j]] == s.tasks;
  }

  lemma PermitChange(s: State, e: Input, j: nat)
    requires j < |s.tasks| && PermitFits(s.tasks[j]) && (e.Acquire? || e.Release?)
    requires s.tasks[j].pc.Arriving? || s.tasks[j].pc.Submitting? ==> s.busy == Some(j)
    ensures LocalChange(s, j, TaskStep(s, e, j))
  {
    NoChange(s, j);
  }

  lemma EndChange(s: State, e: Input, j: nat)
    requires j < |s.tasks| && PermitFits(s.tasks[j]) && e.End?
    requires s.tasks[j].pc.Arriving? || s.tasks[j].pc.Submitting? ==> s.busy == Some(j)
    ensures LocalChange(s, j, TaskStep(s, e, j))
  {
    NoChange(s, j);
    hide FirstOp;
    EndShape(s.net, s.tasks[j], e.raised, e.enqueued);
  }

  lemma EndShape(net: Net, t: Task, raised: bool, enqueued: bool)
    ensures var t' := EndTask(net, t, raised, enqueued);
            && Same(t, t') && t'.x == t.x && t'.holds == t.holds
            && (t'.pc.Finished? || t'.pc.Doing? || t'.pc.Queued?)
            && (t'.pc.Queued? ==> net.conn == Some(t'.pc.conn) && t'.scheduled)
            && (t'.scheduled ==> t.scheduled || t'.pc.Queued?)
  {
    hide FirstOp;
  }

  lemma MoveChange(s: State, e: Input, j: nat)
    requires j < |s.tasks| && PermitFits(s.tasks[j]) && (e.RunQueued? || e.Cancel?)
    requires s.tasks[j].pc.Arriving? || s.tasks[j].pc.Submitting? ==> s.busy == Some(j)
    ensures LocalChange(s, j, TaskStep(s, e, j))
  {
    NoChange(s, j);
  }

  /** The steps of a delivery that make no broker call. */
  lemma LocalShape(u: Setup, s: State, e: Input, j: nat)
    requires j < |s.tasks| && !e.Perform? && !e.Submit?
    requires PermitsOk(u, s.tasks, s.free, s.busy)
    ensures LocalChange(s, j, TaskStep(s, e, j))
  {
    hide LocalChange;
    assert PermitFits(s.tasks[j]);
    if e.Acquire? || e.Release? {
      PermitChange(s, e, j);
    } else if e.End? {
      EndChange(s, e, j);
    } else if e.RunQueued? || e.Cancel? {
      MoveChange(s, e, j);
    } else {
      NoChange(s, j);
    }
  }

  lemma EndTaskOk(u: Setup, net: Net, t: Task, raised: bool, enqueued: bool)
    requires TaskOk(u, t) && t.pc.InCallback?
    ensures TaskOk(u, EndTask(net, t, raised, enqueued))
  {
  }

  lemma LocalTaskOk(u: Setup, s: State, e: Input, j: nat)
    requires j < |s.tasks| && !e.Perform? && !e.Submit? && TaskOk(u, s.tasks[j])
    ensures TaskOk(u, TaskStep(s, e, j).tasks[j])
  {
    if e.End? && s.tasks[j].pc.InCallback? {
      EndTaskOk(u, s.net, s.tasks[j], e.raised, e.enqueued);
      hide TaskOk, EndTask;
    } else {
      hide Fits, EndTask, IsPoison;
    }
  }

  lemma LocalKept(u: Setup, s: State, e: Input, j: nat)
    requires Inv(u, s) && j < |s.tasks| && !e.Perform? && !e.Submit?
    ensures Inv(u, TaskStep(s, e, j))
  {
    assert TaskOk(u, s.tasks[j]);
    LocalShape(u, s, e, j);
    LocalTaskOk(u, s, e, j);
    var r := TaskStep(s, e, j);
    assert LocalChange(s, j, r);
    hide TasksOk, KeysOk, MailOk, CopiesOk, TaskOk, TaskStep, PermitsOk, Same;
    PermitsKept(u, s.tasks, s.free, s.busy, j, r.tasks[j], r.free, r.busy);
    QuietStep(u, s, j, r.tasks[j], r.free, r.busy);
  }

  lemma SubmitShape(u: Setup, s: State, j: nat, ok: bool)
    requires j < |s.tasks| && s.tasks[j].pc.Submitting?
    requires TaskOk(u, s.tasks[j]) && PermitsOk(u, s.tasks, s.free, s.busy)
    ensures var r := SubmitStep(s, j, ok);
            && r == s.(tasks := s.tasks[j := r.tasks[j]], free := r.free, busy := r.busy)
            && Same(s.tasks[j], r.tasks[j]) && TaskOk(u, r.tasks[j]) && !r.tasks[j].pc.Queued?
            && PermitsOk(u, s.tasks[j := r.tasks[j]], r.free, r.busy)
  {
    var r := SubmitStep(s, j, ok);
    assert PermitFits(s.tasks[j]) && s.busy == Some(j);
    PermitsKept(u, s.tasks, s.free, s.busy, j, r.tasks[j], r.free, r.busy);
  }

  lemma SubmitKept(u: Setup, s: State, j: nat, ok: bool)
    requires Inv(u, s) && j < |s.tasks| && s.tasks[j].pc.Submitting?
    ensures Inv(u, SubmitStep(s, j, ok))
  {
    assert TaskOk(u, s.tasks[j]);
    SubmitShape(u, s, j, ok);
    var r := SubmitStep(s, j, ok);
    hide TasksOk, KeysOk, MailOk, CopiesOk, TaskOk, SubmitStep, PermitsOk, Same;
    QuietStep(u, s, j, r.tasks[j], r.free, r.busy);
  }

  // ---------------------------------------------------------------- broker calls

  lemma CallTaskOk(u: Setup, t: Task, op: Op, copy: nat)
    requires TaskOk(u, t) && t.pc == Doing(op)
    ensures TaskOk(u, Raised(t, op)) && Same(t, Raised(t, op))
    ensures op.Publish? ==>
              && TaskOk(u, Published(t, op, copy)) && t.copy.None?
              && t.x.cfg.deadLetterQueue == Some(op.queue) && op.message == t.x.message
    ensures !op.Publish? ==> TaskOk(u, Settled(t, op)) && t.accepted == [] && Settled(t, op).pc.Finished?
    ensures !u.autoAck
  {
  }

  lemma CallPermits(u: Setup, s: State, j: nat, t': Task)
    requires PermitsOk(u, s.tasks, s.free, s.busy) && j < |s.tasks| && s.tasks[j].pc.Doing?
    requires t'.holds == s.tasks[j].holds && t'.x == s.tasks[j].x && t'.scheduled == s.tasks[j].scheduled
    requires t'.pc.Doing? || t'.pc.Finished?
    ensures PermitsOk(u, s.tasks[j := t'], s.free, Freed(s.busy, j, t'))
  {
    assert PermitFits(s.tasks[j]);
    PermitsKept(u, s.tasks, s.free, s.busy, j, t', s.free, Freed(s.busy, j, t'));
  }

  lemma RaisedKept(u: Setup, s: State, j: nat, op: Op)
    requires Inv(u, s) && j < |s.tasks| && s.tasks[j].pc == Doing(op)
    ensures Inv(u, Update(s, j, Raised(s.tasks[j], op)))
  {
    var t := s.tasks[j];
    var t' := Raised(t, op);
    CallTaskOk(u, t, op, 0);
    CallPermits(u, s, j, t');
    hide TasksOk, KeysOk, MailOk, CopiesOk, TaskOk, PermitsOk;
    QuietStep(u, s, j, t', s.free, Freed(s.busy, j, t'));
  }

  lemma CopyAdded(copies: seq<Copy>, tasks: seq<Task>, j: nat, t': Task, queue: string)
    requires j < |tasks| && CopiesOk(copies, tasks) && tasks[j].copy.None?
    requires t'.copy == Some(|copies|) && t'.x.cfg.deadLetterQueue == Some(queue)
    ensures CopiesOk(copies + [Copy(queue, t'.x.message, j)], tasks[j := t'])
  {
  }

  lemma PublishedKept(u: Setup, s: State, j: nat, op: Op)
    requires Inv(u, s) && j < |s.tasks| && s.tasks[j].pc == Doing(op) && op.Publish?
    ensures Inv(u, Update(s, j, Published(s.tasks[j], op, |s.copies|)).(copies := s.copies + [Copy(op.queue, op.message, j)]))
  {
    hide TaskOk, PermitsOk, KeysOk, MailOk, CopiesOk;
    var t := s.tasks[j];
    var t' := Published(t, op, |s.copies|);
    CallTaskOk(u, t, op, |s.copies|);
    CallPermits(u, s, j, t');
    CopyAdded(s.copies, s.tasks, j, t', op.queue);
    SameMail(u, s.mail, s.tasks, s.net, j, t');
  }

  /** A call that reaches its own open channel finds the delivery's own message unsettled, and nothing else. */
  lemma FindsOwn(u: Setup, s: State, j: nat)
    requires KeysOk(s.tasks, s.net) && MailOk(u, s.mail, s.tasks, s.net.channel) && !u.autoAck
    requires j < |s.tasks| && s.tasks[j].accepted == [] && s.net.channel == Some(s.tasks[j].key.epoch)
    ensures Find(s.mail, s.tasks[j].key) == Some(s.tasks[j].mail)
  {
    var t := s.tasks[j];
    assert s.mail[t.mail].at == Unsettled(t.key, j);
    var found := Find(s.mail, t.key);
    var m := found.value;
    assert s.tasks[s.mail[m].at.task].key == t.key;
  }

  lemma SettledMail(u: Setup, mail: seq<Mail>, tasks: seq<Task>, net: Net, j: nat, t': Task, op: Op)
    requires KeysOk(tasks, net) && MailOk(u, mail, tasks, net.channel) && !u.autoAck
    requires j < |tasks| && tasks[j].accepted == [] && net.channel == Some(tasks[j].key.epoch)
    requires !op.Publish? && t'.mail == tasks[j].mail && t'.key == tasks[j].key && t'.accepted == [op]
    ensures var m := t'.mail;
            && KeysOk(tasks[j := t'], net)
            && m < |mail|
            && MailOk(u, mail[m := mail[m].(at := PlaceAfter(op, j))], tasks[j := t'], net.channel)
  {
    assert mail[t'.mail].at == Unsettled(t'.key, j);
  }

  lemma SettledCopies(copies: seq<Copy>, tasks: seq<Task>, j: nat, t': Task)
    requires j < |tasks| && CopiesOk(copies, tasks) && t'.copy == tasks[j].copy && t'.x == tasks[j].x
    ensures CopiesOk(copies, tasks[j := t'])
  {
  }

  lemma SettledKept(u: Setup, s: State, j: nat, op: Op)
    requires Inv(u, s) && j < |s.tasks| && s.tasks[j].pc == Doing(op) && !op.Publish?
    requires s.net.channel == Some(s.tasks[j].key.epoch)
    ensures var m := s.tasks[j].mail;
            && m < |s.mail|
            && Inv(u, Update(s, j, Settled(s.tasks[j], op)).(mail := s.mail[m := s.mail[m].(at := PlaceAfter(op, j))]))
  {
    hide TaskOk, PermitsOk, KeysOk, MailOk, CopiesOk;
    var t := s.tasks[j];
    var t' := Settled(t, op);
    CallTaskOk(u, t, op, 0);
    CallPermits(u, s, j, t');
    SettledMail(u, s.mail, s.tasks, s.net, j, t', op);
    SettledCopies(s.copies, s.tasks, j, t');
  }

  lemma PerformKept(u: Setup, s: State, j: nat, op: Op, ok: bool)
    requires Inv(u, s) && j < |s.tasks| && s.tasks[j].pc == Doing(op)
    ensures Inv(u, PerformStep(s, j, op, ok))
  {
    var t := s.tasks[j];
    CallTaskOk(u, t, op, 0);
    if !ok || !Reaches(s.net, t, op) {
      RaisedKept(u, s, j, op);
    } else if op.Publish? {
      PublishedKept(u, s, j, op);
    } else {
      FindsOwn(u, s, j);
      SettledKept(u, s, j, op);
    }
  }

  // ---------------------------------------------------------------- the broker and the connection

  lemma DeliverMail(u: Setup, s: State, m: nat, t: Task)
    requires KeysOk(s.tasks, s.net) && MailOk(u, s.mail, s.tasks, s.net.channel)
    requires m < |s.mail| && s.mail[m].at.Ready? && s.net.channel.Some?
    requires t.mail == m && t.key == Key(s.net.channel.value, s.net.nextTag) && t.accepted == []
    ensures KeysOk(s.tasks + [t], s.net.(nextTag := s.net.nextTag + 1))
    ensures var at := if u.autoAck then AutoAcked else Unsettled(t.key, |s.tasks|);
            MailOk(u, s.mail[m := s.mail[m].(at := at)], s.tasks + [t], s.net.channel)
  {
  }

  lemma DeliverPermits(u: Setup, tasks: seq<Task>, free: nat, t: Task, busy': Option<nat>)
    requires PermitsOk(u, tasks, free, None)
    requires PermitFits(t) && !t.holds
    requires t.pc.Arriving? || t.pc.Submitting? ==> busy' == Some(|tasks|)
    ensures PermitsOk(u, tasks + [t], free, busy')
  {
    assert (tasks + [t])[..|tasks|] == tasks;
  }

  lemma DeliverKept(u: Setup, s: State, m: nat)
    requires Inv(u, s)
    ensures Inv(u, DeliverStep(u, s, m))
  {
    hide TaskOk, KeysOk, MailOk, CopiesOk, PermitsOk;
    var r := DeliverStep(u, s, m);
    if r != s {
      var t := Delivered(u, s, m);
      DeliveredTask(u, s, m);
      DeliverMail(u, s, m, t);
      DeliverPermits(u, s.tasks, s.free, t, r.busy);
      DeliverCopies(s.copies, s.tasks, t);
    }
  }

  lemma DeliveredTask(u: Setup, s: State, m: nat)
    requires m < |s.mail| && s.net.channel.Some?
    ensures var t := Delivered(u, s, m);
            TaskOk(u, t) && PermitFits(t) && t.copy.None? && !t.pc.Queued?
  {
  }

  lemma DeliverCopies(copies: seq<Copy>, tasks: seq<Task>, t: Task)
    requires CopiesOk(copies, tasks) && t.copy.None?
    ensures CopiesOk(copies, tasks + [t])
  {
  }

  lemma NetKept(u: Setup, s: State, e: Input)
    requires Inv(u, s) && (e.Connect? || e.OpenChannel? || e.LoseChannel? || e.LoseConnection?)
    ensures Inv(u, Step(u, s, e))
  {
    hide TaskOk, PermitsOk, CopiesOk;
  }

  lemma MailKept(u: Setup, s: State, e: Input)
    requires Inv(u, s) && (e.Arrive? || e.ReturnDead? || e.StopListening?)
    ensures Inv(u, Step(u, s, e))
  {
    hide TaskOk, PermitsOk, CopiesOk, KeysOk;
  }

  lemma InvKept(u: Setup, s: State, e: Input)
    requires Inv(u, s)
    ensures Inv(u, Step(u, s, e))
  {
    hide Inv;
    match e
    case Connect => NetKept(u, s, e);
    case OpenChannel => NetKept(u, s, e);
    case LoseChannel => NetKept(u, s, e);
    case LoseConnection => NetKept(u, s, e);
    case Arrive(_) => MailKept(u, s, e);
    case ReturnDead(_, _) => MailKept(u, s, e);
    case StopListening => MailKept(u, s, e);
    case Deliver(m) => DeliverKept(u, s, m);
    case Submit(j, ok) =>
      if j < |s.tasks| && s.tasks[j].pc.Submitting? {
        SubmitKept(u, s, j, ok);
      }
    case Perform(j, ok) =>
      if j < |s.tasks| && s.tasks[j].pc.Doing? {
        PerformKept(u, s, j, s.tasks[j].pc.op, ok);
      }
    case _ =>
      if e.j < |s.tasks| {
        LocalKept(u, s, e, e.j);
      }
  }

  function Run(u: Setup, tape: seq<Input>): State {
    After(u, Init(u), tape)
  }

  lemma {:induction false} RunsKeepInv(u: Setup, tape: seq<Input>)
    ensures Inv(u, Run(u, tape))
  {
    if tape != [] {
      hide Inv, Step;
      RunsKeepInv(u, tape[..|tape| - 1]);
      InvKept(u, Run(u, tape[..|tape| - 1]), tape[|tape| - 1]);
    }
  }
}
