/**
 `AsyncSender`: the retry loop of `start` inside that of `send`, and the batching of publisher confirms.

 Other tasks run at every await and may change the cached connection, channel and exchange.  A script
 says, for each attempt of a send, what the attempt finds there when it runs and what the calls it makes do.
 */
module AsyncSenders {
  import opened RetryPolicies

  // ---------------------------------------------------------------- one send

  /** The cached `_conn` (is it open), `_channel` and `_exchange` (are they set). */
  datatype Link = Link(connOpen: bool, channel: bool, exchange: bool)

  /** One run of `_do_start`: do the factory, the channel and the exchange declaration succeed. */
  datatype StartTurn = StartTurn(factory: bool, channel: bool, exchange: bool, draw: real)

  /** One attempt of a send: what it finds cached, the turns of a `start` it may make, and its publish. */
  datatype SendTurn = SendTurn(seen: Link, start: seq<StartTurn>, published: bool, draw: real)

  datatype Error = StartFailed | NoExchange | PublishFailed | ScriptOver

  function DoStart(t: StartTurn): Outcome<(), Error> {
    if t.factory && t.channel && t.exchange then Returns(()) else Raises(StartFailed)
  }

  function StartScript(turns: seq<StartTurn>): (r: seq<Turn<(), Error>>)
    ensures |r| == |turns|
    ensures forall i :: 0 <= i < |r| ==> r[i] == Turn(false, DoStart(turns[i]), turns[i].draw)
  {
    seq(|turns|, i requires 0 <= i < |turns| => Turn(false, DoStart(turns[i]), turns[i].draw))
  }

  /** What `_do_start` leaves cached: each of its three calls sets its own field, and only if it succeeds. */
  function DoStartLink(l: Link, t: StartTurn): Link {
    if !t.factory then l
    else if !t.channel then l.(connOpen := true)
    else Link(true, true, l.exchange || t.exchange)
  }

  function StartLink(l: Link, turns: seq<StartTurn>): Link {
    if turns == [] then l else DoStartLink(StartLink(l, turns[..|turns| - 1]), turns[|turns| - 1])
  }

  /** The connections these turns open. */
  function Opens(turns: seq<StartTurn>): nat {
    if turns == [] then 0 else Opens(turns[..|turns| - 1]) + (if turns[|turns| - 1].factory then 1 else 0)
  }

  /** Each overwrites the one before it without closing it. */
  function Overwrites(turns: seq<StartTurn>): nat {
    if Opens(turns) == 0 then 0 else Opens(turns) - 1
  }

  function Usable(l: Link): bool {
    l.connOpen && l.channel && l.exchange
  }

  /** The attempt calls `start`, and `start` does not return at its guard. */
  predicate Connects(t: SendTurn) {
    !Usable(t.seen) && !t.seen.connOpen
  }

  function StartOf(p: RetryPolicy, t: SendTurn): RetryLog<(), Error> {
    Retried(p, Async, StartScript(t.start))
  }

  /** The attempt comes to its publish: it connected, or found an exchange behind the open connection. */
  predicate Issues(p: RetryPolicy, t: SendTurn) {
    if Connects(t) then StartOf(p, t).verdict.Returned? else t.seen.exchange
  }

  /** What `_do_publish` does; an attempt whose `start` outlasts its script ends the script. */
  function PublishOutcome(p: RetryPolicy, t: SendTurn): Outcome<(), Error> {
    if Connects(t) && StartOf(p, t).verdict.Running? then Interrupts(ScriptOver)
    else if Connects(t) && !StartOf(p, t).verdict.Returned? then Raises(StartFailed)
    else if !Issues(p, t) then Raises(NoExchange)
    else if t.published then Returns(()) else Raises(PublishFailed)
  }

  function SendScript(p: RetryPolicy, turns: seq<SendTurn>): (r: seq<Turn<(), Error>>)
    ensures |r| == |turns|
    ensures forall i :: 0 <= i < |r| ==> r[i] == Turn(false, PublishOutcome(p, turns[i]), turns[i].draw)
  {
    seq(|turns|, i requires 0 <= i < |turns| => Turn(false, PublishOutcome(p, turns[i]), turns[i].draw))
  }

  /** `_do_start` calls the factory once, so an attempt calls it once per turn of its `start`. */
  function FactoryCalls(p: RetryPolicy, turns: seq<SendTurn>): nat {
    if turns == [] then 0
    else
      var last := turns[|turns| - 1];
      FactoryCalls(p, turns[..|turns| - 1]) + (if Connects(last) then StartOf(p, last).calls else 0)
  }

  function Publishes(p: RetryPolicy, turns: seq<SendTurn>): nat {
    if turns == [] then 0
    else Publishes(p, turns[..|turns| - 1]) + (if Issues(p, turns[|turns| - 1]) then 1 else 0)
  }

  /** The delays slept inside the starts of these attempts. */
  function InnerSleeps(p: RetryPolicy, turns: seq<SendTurn>): nat {
    if turns == [] then 0
    else
      var last := turns[|turns| - 1];
      InnerSleeps(p, turns[..|turns| - 1]) + (if Connects(last) then |StartOf(p, last).sleeps| else 0)
  }

  /** The turns of the `start` an attempt makes. */
  function Made(p: RetryPolicy, t: SendTurn): seq<StartTurn> {
    if Connects(t) then t.start[..StartOf(p, t).calls] else []
  }

  function AttemptLink(p: RetryPolicy, t: SendTurn): Link {
    StartLink(t.seen, Made(p, t))
  }

  function Opened(p: RetryPolicy, turns: seq<SendTurn>): nat {
    if turns == [] then 0 else Opened(p, turns[..|turns| - 1]) + Opens(Made(p, turns[|turns| - 1]))
  }

  function Overwritten(p: RetryPolicy, turns: seq<SendTurn>): nat {
    if turns == [] then 0 else Overwritten(p, turns[..|turns| - 1]) + Overwrites(Made(p, turns[|turns| - 1]))
  }

  /** Open connections a send with these attempts, ending so, lets go of without closing them. */
  function Forgotten(p: RetryPolicy, turns: seq<SendTurn>, gaveUp: bool): nat {
    Overwritten(p, turns)
    + (if gaveUp && turns != [] && AttemptLink(p, turns[|turns| - 1]).connOpen then 1 else 0)
  }

  /** The send's handler ran: an `Exception` left the retry loop. */
  predicate GaveUp(v: Verdict<(), Error>) {
    v.BackoffRaised? || (v.Raised? && v.error != ScriptOver)
  }

  /**
   The sender's cached state, and what its sends have cost.  `lost` and `elsewhere` count what the
   attempts found changed: a connection gone, or one that another task opened.
   */
  class AsyncSender {
    const policy: RetryPolicy
    var link: Link
    var factoryCalls: nat
    var publishes: nat
    var sleeps: nat
    var connectionsOpened: nat
    var forgotten: nat
    var lost: nat
    var elsewhere: nat

    /** Every connection opened was let go of open, was lost, or is the cached one. */
    ghost predicate Balanced()
      reads `link, `connectionsOpened, `forgotten, `lost, `elsewhere
    {
      connectionsOpened + elsewhere == forgotten + lost + (if link.connOpen then 1 else 0)
    }

    constructor (policy: RetryPolicy)
      ensures this.policy == policy && link == Link(false, false, false)
      ensures factoryCalls == publishes == sleeps == connectionsOpened == forgotten == lost == elsewhere == 0 && Balanced()
    {
      this.policy := policy;
      link := Link(false, false, false);
      factoryCalls, publishes, sleeps, connectionsOpened, forgotten, lost, elsewhere := 0, 0, 0, 0, 0, 0, 0;
    }

    /** These turns of a start have taken the sender from a closed `before` to where it is, by so much. */
    ghost predicate Started(before: Link, made: seq<StartTurn>, calls: nat, opens: nat, forgets: nat)
      reads `link, `factoryCalls, `connectionsOpened, `forgotten
    {
      && link == StartLink(before, made)
      && (link.connOpen <==> Opens(made) > 0)
      && factoryCalls == calls + |made|
      && connectionsOpened == opens + Opens(made)
      && forgotten == forgets + Overwrites(made)
    }

    /** `_do_start`. */
    method DoStartOnce(t: StartTurn, ghost before: Link, ghost made: seq<StartTurn>,
                       ghost calls: nat, ghost opens: nat, ghost forgets: nat)
        returns (raised: bool)
      requires Started(before, made, calls, opens, forgets)
      modifies `link, `factoryCalls, `connectionsOpened, `forgotten
      ensures raised <==> DoStart(t).Raises?
      ensures !raised ==> link == Link(true, true, true)
      ensures Started(before, made + [t], calls, opens, forgets)
    {
      StartAppend(before, made + [t]);
      assert (made + [t])[..|made|] == made;
      hide StartLink, Opens, Overwrites;
      factoryCalls := factoryCalls + 1;
      raised := !t.factory;
      if !raised {
        connectionsOpened := connectionsOpened + 1;
        if link.connOpen {
          forgotten := forgotten + 1;
        }
        link := link.(connOpen := true);
        raised := !t.channel;
      }
      if !raised {
        link := link.(channel := true);
        raised := !t.exchange;
      }
      if !raised {
        link := link.(exchange := true);
      }
    }

    /** `start`: nothing while the connection is open, even without a channel or an exchange. */
    method Start(turns: seq<StartTurn>) returns (verdict: Verdict<(), Error>)
      modifies `link, `factoryCalls, `connectionsOpened, `forgotten, `sleeps
      ensures old(link).connOpen ==>
                && verdict == Returned(()) && link == old(link)
                && factoryCalls == old(factoryCalls) && sleeps == old(sleeps)
                && connectionsOpened == old(connectionsOpened) && forgotten == old(forgotten)
      ensures !old(link).connOpen ==>
                var log := Retried(policy, Async, StartScript(turns));
                var made := turns[..log.calls];
                && verdict == log.verdict
                && factoryCalls == old(factoryCalls) + log.calls
                && sleeps == old(sleeps) + |log.sleeps|
                && link == StartLink(old(link), made)
                && (verdict.Returned? ==> link == Link(true, true, true))
                && connectionsOpened == old(connectionsOpened) + Opens(made)
                && forgotten == old(forgotten) + Overwrites(made)
    {
      if link.connOpen {
        return Returned(());
      }
      ghost var before, calls, opens, forgets := link, factoryCalls, connectionsOpened, forgotten;
      verdict := ConnectRetry(turns, before, calls, opens, forgets);
    }

    /** The retry loop of `start`. */
    method ConnectRetry(turns: seq<StartTurn>, ghost before: Link, ghost calls: nat, ghost opens: nat, ghost forgets: nat)
        returns (verdict: Verdict<(), Error>)
      requires Started(before, [], calls, opens, forgets)
      modifies `link, `factoryCalls, `connectionsOpened, `forgotten, `sleeps
      ensures var log := Retried(policy, Async, StartScript(turns));
              && verdict == log.verdict
              && sleeps == old(sleeps) + |log.sleeps|
              && (verdict.Returned? ==> link == Link(true, true, true))
              && Started(before, turns[..log.calls], calls, opens, forgets)
    {
      ghost var script := StartScript(turns);
      hide DelayForAttempt, Power, Ends, BackoffRaises, Overflows, Retried, FirstEnd, Sleeps, Started;
      assert turns[..0] == [];
      var attempt := 1;
      while attempt <= |turns|
        invariant 1 <= attempt <= |turns| + 1
        invariant forall j :: 0 <= j < attempt - 1 ==> !Ends(policy, Async, script[j], j)
        invariant sleeps == old(sleeps) + attempt - 1
        invariant Started(before, turns[..attempt - 1], calls, opens, forgets)
      {
        assert turns[..attempt] == turns[..attempt - 1] + [turns[attempt - 1]];
        EndsWhen(policy, script[attempt - 1], attempt - 1);
        var raised := DoStartOnce(turns[attempt - 1], before, turns[..attempt - 1], calls, opens, forgets);
        if Ends(policy, Async, script[attempt - 1], attempt - 1) {
          LogAt(policy, script, attempt - 1);
        }
        if !raised {
          return Returned(());
        }
        if policy.maxAttempts.Some? && attempt >= policy.maxAttempts.value {
          return Verdict.Raised(StartFailed);
        }
        if Overflows(policy, attempt + 1) {
          return BackoffRaised;
        }
        sleeps := sleeps + 1;
        attempt := attempt + 1;
      }
      LogAt(policy, script, |script|);
      verdict := Running;
    }

    /** What other tasks and the broker have done to the cached state since it was last looked at. */
    method Find(seen: Link)
      modifies `link, `lost, `elsewhere
      ensures link == seen && (old(Balanced()) ==> Balanced())
    {
      if link.connOpen && !seen.connOpen {
        lost := lost + 1;
      } else if !link.connOpen && seen.connOpen {
        elsewhere := elsewhere + 1;
      }
      link := seen;
    }

    /** One attempt of a send, from what it finds cached. */
    method DoPublish(t: SendTurn) returns (outcome: Outcome<(), Error>)
      modifies this
      ensures outcome == PublishOutcome(policy, t)
      ensures outcome.Interrupts? ==> outcome.error == ScriptOver
      ensures outcome.Raises? ==> outcome.error != ScriptOver
      ensures factoryCalls == old(factoryCalls) + if Connects(t) then StartOf(policy, t).calls else 0
      ensures sleeps == old(sleeps) + if Connects(t) then |StartOf(policy, t).sleeps| else 0
      ensures publishes == old(publishes) + if Issues(policy, t) then 1 else 0
      ensures link == AttemptLink(policy, t)
      ensures connectionsOpened == old(connectionsOpened) + Opens(Made(policy, t))
      ensures forgotten == old(forgotten) + Overwrites(Made(policy, t))
      ensures old(Balanced()) ==> Balanced()
    {
      Find(t.seen);
      if !link.channel || !link.exchange || !link.connOpen {
        var verdict := Start(t.start);
        OpensAndLink(t.seen, Made(policy, t));
        match verdict
        case Returned(_) =>
        case Running => return Interrupts(ScriptOver);
        case _ => return Raises(StartFailed);
      }
      if !link.exchange {
        return Raises(NoExchange);
      }
      publishes := publishes + 1;
      outcome := if t.published then Returns(()) else Raises(PublishFailed);
    }

    /** The handler of `send`: forgets the connection, which it does not close, with channel and exchange. */
    method Reset()
      modifies `link, `forgotten
      ensures link == Link(false, false, false)
      ensures forgotten == old(forgotten) + if old(link).connOpen then 1 else 0
      ensures old(Balanced()) ==> Balanced()
    {
      if link.connOpen {
        forgotten := forgotten + 1;
      }
      link := Link(false, false, false);
    }

    /** `send`: retries its attempts, and resets what is cached when it gives up. */
    method Send(turns: seq<SendTurn>) returns (verdict: Verdict<(), Error>)
      modifies this
      ensures var log := Retried(policy, Async, SendScript(policy, turns));
              var made := turns[..log.calls];
              && verdict == log.verdict
              && factoryCalls == old(factoryCalls) + FactoryCalls(policy, made)
              && publishes == old(publishes) + Publishes(policy, made)
              && sleeps == old(sleeps) + InnerSleeps(policy, made) + |log.sleeps|
              && connectionsOpened == old(connectionsOpened) + Opened(policy, made)
              && forgotten == old(forgotten) + Forgotten(policy, made, GaveUp(verdict))
      ensures GaveUp(verdict) ==> link == Link(false, false, false)
      ensures old(Balanced()) ==> Balanced()
    {
      hide PublishOutcome, Issues, Connects, StartOf, Made, AttemptLink, Overwrites, Opens, DelayForAttempt, Power, Balanced;
      hide FactoryCalls, Publishes, InnerSleeps, Opened, Overwritten, Ends, BackoffRaises, Overflows, Retried, FirstEnd, Sleeps;
      NoCosts(policy);
      assert turns[..0] == [];
      ghost var script := SendScript(policy, turns);
      var attempt := 1;
      while attempt <= |turns|
        invariant 1 <= attempt <= |turns| + 1
        invariant forall j :: 0 <= j < attempt - 1 ==> !Ends(policy, Async, script[j], j)
        invariant factoryCalls == old(factoryCalls) + FactoryCalls(policy, turns[..attempt - 1])
        invariant publishes == old(publishes) + Publishes(policy, turns[..attempt - 1])
        invariant sleeps == old(sleeps) + InnerSleeps(policy, turns[..attempt - 1]) + attempt - 1
        invariant connectionsOpened == old(connectionsOpened) + Opened(policy, turns[..attempt - 1])
        invariant forgotten == old(forgotten) + Overwritten(policy, turns[..attempt - 1])
        invariant old(Balanced()) ==> Balanced()
      {
        assert turns[..attempt][..attempt - 1] == turns[..attempt - 1];
        CostsAppend(policy, turns[..attempt]);
        EndsWhen(policy, script[attempt - 1], attempt - 1);
        var outcome := DoPublish(turns[attempt - 1]);
        if Ends(policy, Async, script[attempt - 1], attempt - 1) {
          LogAt(policy, script, attempt - 1);
        }
        match outcome {
          case Returns(value) => return Returned(value);
          case Interrupts(error) => return Verdict.Raised(error);
          case Raises(error) =>
            if policy.maxAttempts.Some? && attempt >= policy.maxAttempts.value {
              Reset();
              return Verdict.Raised(error);
            }
            if Overflows(policy, attempt + 1) {
              Reset();
              return BackoffRaised;
            }
            sleeps := sleeps + 1;
            attempt := attempt + 1;
        }
      }
      assert turns[..|turns|] == turns;
      LogAt(policy, script, |script|);
      verdict := Running;
    }
  }

  /** What the loop has done when it ends in turn k. */
  lemma LogAt<T, E>(p: RetryPolicy, script: seq<Turn<T, E>>, k: nat)
    requires k <= |script|
    requires k < |script| ==> Ends(p, Async, script[k], k)
    requires forall j :: 0 <= j < k ==> !Ends(p, Async, script[j], j)
    ensures var log := Retried(p, Async, script);
            && log.calls == (if k == |script| then k else k + 1)
            && |log.sleeps| == k
            && log.verdict ==
               if k == |script| then Running
               else if script[k].outcome.Returns? then Returned(script[k].outcome.value)
               else if script[k].outcome.Interrupts? || GivesUp(p, k + 1) then Verdict.Raised(script[k].outcome.error)
               else BackoffRaised
  {
    hide Ends;
    FirstEndIs(p, Async, script, k);
  }

  lemma EndsWhen<T, E>(p: RetryPolicy, turn: Turn<T, E>, k: nat)
    ensures Ends(p, Async, turn, k) <==> !turn.outcome.Raises? || GivesUp(p, k + 1) || Overflows(p, k + 2)
  {
  }

  lemma NoCosts(p: RetryPolicy)
    ensures FactoryCalls(p, []) == Publishes(p, []) == InnerSleeps(p, []) == Opened(p, []) == Overwritten(p, []) == 0
  {
  }

  /** The last attempt's costs come on top. */
  lemma CostsAppend(p: RetryPolicy, turns: seq<SendTurn>)
    requires turns != []
    ensures var front, t := turns[..|turns| - 1], turns[|turns| - 1];
            && FactoryCalls(p, turns) == FactoryCalls(p, front) + (if Connects(t) then StartOf(p, t).calls else 0)
            && Publishes(p, turns) == Publishes(p, front) + (if Issues(p, t) then 1 else 0)
            && InnerSleeps(p, turns) == InnerSleeps(p, front) + (if Connects(t) then |StartOf(p, t).sleeps| else 0)
            && Opened(p, turns) == Opened(p, front) + Opens(Made(p, t))
            && Overwritten(p, turns) == Overwritten(p, front) + Overwrites(Made(p, t))
  {
    hide Connects, StartOf, Issues, Made, Overwrites, Opens;
  }

  /** The last turn of a start comes on top. */
  lemma StartAppend(l: Link, turns: seq<StartTurn>)
    requires turns != []
    ensures var front, t := turns[..|turns| - 1], turns[|turns| - 1];
            && StartLink(l, turns) == DoStartLink(StartLink(l, front), t)
            && Opens(turns) == Opens(front) + (if t.factory then 1 else 0)
            && Overwrites(turns) == Overwrites(front) + (if t.factory && Opens(front) > 0 then 1 else 0)
  {
  }

  /** From no connection, these turns leave one open exactly when they open any. */
  lemma {:induction false} OpensAndLink(l: Link, turns: seq<StartTurn>)
    ensures StartLink(l, turns).connOpen <==> l.connOpen || Opens(turns) > 0
    ensures Opens(turns) <= |turns|
  {
    if turns != [] {
      OpensAndLink(l, turns[..|turns| - 1]);
    }
  }

  // ---------------------------------------------------------------- what a send costs

  lemma CallsBounded<T, E>(p: RetryPolicy, script: seq<Turn<T, E>>)
    requires p.maxAttempts.Some?
    ensures Retried(p, Async, script).calls <= Allowed(p) && Retried(p, Async, script).calls <= |script|
  {
    if |script| >= Allowed(p) {
      assert Ends(p, Async, script[Allowed(p) - 1], Allowed(p) - 1);
    }
  }

  lemma OneMore(n: int, k: int)
    ensures (n + 1) * k == n * k + k
  {
  }

  lemma TimesOrdered(a: int, b: int, k: int)
    requires a <= b && k >= 0
    ensures a * k <= b * k
  {
    assert (b - a) * k >= 0;
  }

  lemma {:induction false} CostBounded(p: RetryPolicy, turns: seq<SendTurn>)
    requires p.maxAttempts.Some?
    ensures FactoryCalls(p, turns) <= |turns| * Allowed(p)
    ensures Opened(p, turns) <= FactoryCalls(p, turns)
    ensures Overwritten(p, turns) <= |turns| * (Allowed(p) - 1)
    ensures Publishes(p, turns) <= |turns|
  {
    if turns != [] {
      var n := |turns| - 1;
      hide StartOf, Connects, Issues;
      CostBounded(p, turns[..n]);
      AttemptBounded(p, turns[n]);
      OneMore(n, Allowed(p));
      OneMore(n, Allowed(p) - 1);
    }
  }

  lemma AttemptBounded(p: RetryPolicy, t: SendTurn)
    requires p.maxAttempts.Some?
    ensures Opens(Made(p, t)) <= (if Connects(t) then StartOf(p, t).calls else 0) <= Allowed(p)
    ensures Overwrites(Made(p, t)) <= Allowed(p) - 1
  {
    CallsBounded(p, StartScript(t.start));
    OpensAndLink(t.seen, Made(p, t));
  }

  /**
   With n attempts allowed, a send calls the factory at most n*n times, publishes at most n times, and
   lets go of at most n*(n-1) + 1 open connections, whatever happens.
   */
  lemma SendCostBounded(p: RetryPolicy, turns: seq<SendTurn>)
    requires p.maxAttempts.Some?
    ensures var n := Allowed(p);
            var log := Retried(p, Async, SendScript(p, turns));
            var made := turns[..log.calls];
            && FactoryCalls(p, made) <= n * n
            && Publishes(p, made) <= n
            && Opened(p, made) <= FactoryCalls(p, made)
            && Forgotten(p, made, GaveUp(log.verdict)) <= n * (n - 1) + 1
  {
    hide *;
    CallsBounded(p, SendScript(p, turns));
    var log := Retried(p, Async, SendScript(p, turns));
    var made := turns[..log.calls];
    CostBounded(p, made);
    ForgottenAtMost(p, made, GaveUp(log.verdict));
    Bounds(log.calls, Allowed(p), FactoryCalls(p, made), Overwritten(p, made));
  }

  lemma Bounds(calls: nat, n: nat, factoryCalls: nat, overwritten: nat)
    requires calls <= n && factoryCalls <= calls * n && overwritten <= calls * (n - 1)
    requires n >= 1
    ensures factoryCalls <= n * n && overwritten <= n * (n - 1)
  {
    TimesOrdered(calls, n, n);
    TimesOrdered(calls, n, n - 1);
  }

  lemma ForgottenAtMost(p: RetryPolicy, turns: seq<SendTurn>, gaveUp: bool)
    ensures Forgotten(p, turns, gaveUp) <= Overwritten(p, turns) + 1
  {
  }

  /** The broker is away: no attempt finds the connection open and no factory call succeeds. */
  predicate Away(p: RetryPolicy, t: SendTurn)
    requires p.maxAttempts.Some?
  {
    && !t.seen.connOpen
    && |t.start| >= Allowed(p)
    && forall i :: 0 <= i < |t.start| ==> !t.start[i].factory
  }

  lemma AwayStart(p: RetryPolicy, t: SendTurn)
    requires p.maxAttempts.Some? && Away(p, t)
    ensures Connects(t) && |StartOf(p, t).sleeps| == StartOf(p, t).calls - 1
    ensures StartOf(p, t).calls == Allowed(p) <==> Safe(p, false, Allowed(p) - 1)
    ensures PublishOutcome(p, t) == Raises(StartFailed) && !Issues(p, t)
  {
    CallCountExact(p, Async, StartScript(t.start), |t.start| + 1);
    CallsBounded(p, StartScript(t.start));
  }

  lemma {:induction false} AwayCosts(p: RetryPolicy, turns: seq<SendTurn>)
    requires p.maxAttempts.Some? && forall i :: 0 <= i < |turns| ==> Away(p, turns[i])
    requires Safe(p, false, Allowed(p) - 1)
    ensures FactoryCalls(p, turns) == |turns| * Allowed(p)
    ensures InnerSleeps(p, turns) == |turns| * (Allowed(p) - 1)
    ensures Publishes(p, turns) == 0
  {
    if turns != [] {
      var n := |turns| - 1;
      AwayCosts(p, turns[..n]);
      AwayStart(p, turns[n]);
      hide StartOf, Connects, Issues, Safe;
      OneMore(n, Allowed(p));
      OneMore(n, Allowed(p) - 1);
    }
  }

  lemma FewerCalls(calls: nat, n: nat, cost: nat)
    requires calls < n && cost <= calls * n
    ensures cost < n * n
  {
    TimesOrdered(calls + 1, n, n);
    OneMore(calls, n);
  }

  /**
   With the broker away throughout, a send makes exactly n*n factory calls and n*n - 1 sleeps before it
   raises, if and only if no power overflows within n - 1 backoffs.
   */
  lemma AwaySendExact(p: RetryPolicy, turns: seq<SendTurn>)
    requires p.maxAttempts.Some? && |turns| >= Allowed(p)
    requires forall i :: 0 <= i < |turns| ==> Away(p, turns[i])
    ensures var n := Allowed(p);
            var log := Retried(p, Async, SendScript(p, turns));
            var made := turns[..log.calls];
            && (FactoryCalls(p, made) == n * n <==> Safe(p, false, n - 1))
            && (FactoryCalls(p, made) == n * n ==>
                  && log.verdict == Verdict.Raised(StartFailed) && log.calls == n
                  && InnerSleeps(p, made) + |log.sleeps| == n * n - 1
                  && Publishes(p, made) == 0)
  {
    hide *;
    AwayFails(p, turns);
    NeverStops();
    CallCountExact(p, Async, SendScript(p, turns), |turns| + 1);
    var calls := Retried(p, Async, SendScript(p, turns)).calls;
    if Safe(p, false, Allowed(p) - 1) {
      AllAwayCosts(p, turns[..calls], Allowed(p));
    } else {
      CostBounded(p, turns[..calls]);
      FewerCalls(calls, Allowed(p), FactoryCalls(p, turns[..calls]));
    }
  }

  lemma NeverStops()
    ensures forall stop: bool :: !Async.Stops(stop)
  {
  }

  lemma AwayFails(p: RetryPolicy, turns: seq<SendTurn>)
    requires p.maxAttempts.Some? && forall i :: 0 <= i < |turns| ==> Away(p, turns[i])
    ensures forall i :: 0 <= i < |turns| ==> SendScript(p, turns)[i] == Turn(false, Raises(StartFailed), turns[i].draw)
  {
    hide PublishOutcome;
    forall i | 0 <= i < |turns|
      ensures SendScript(p, turns)[i] == Turn(false, Raises(StartFailed), turns[i].draw)
    {
      AwayStart(p, turns[i]);
    }
  }

  lemma AllAwayCosts(p: RetryPolicy, turns: seq<SendTurn>, n: nat)
    requires p.maxAttempts.Some? && |turns| == Allowed(p) == n && forall i :: 0 <= i < |turns| ==> Away(p, turns[i])
    requires Safe(p, false, Allowed(p) - 1)
    ensures FactoryCalls(p, turns) == n * n
    ensures InnerSleeps(p, turns) + n - 1 == n * n - 1
    ensures Publishes(p, turns) == 0
  {
    hide *;
    AwayCosts(p, turns);
    Squares(n);
  }

  lemma Squares(n: int)
    ensures n * (n - 1) + n - 1 == n * n - 1
  {
  }

  // ---------------------------------------------------------------- publishes that fail

  /** An attempt that finds everything cached. */
  predicate Ready(t: SendTurn) {
    t.seen == Link(true, true, true)
  }

  /** A send resets what is cached on every way out but a return: an error of its last attempt, or of its backoff. */
  lemma GivesUpWhen(p: RetryPolicy, turns: seq<SendTurn>)
    ensures var v := Retried(p, Async, SendScript(p, turns)).verdict;
            GaveUp(v) <==> !v.Returned? && !v.Running? && v != Verdict.Raised(ScriptOver)
  {
    var script := SendScript(p, turns);
    NeverStops();
    hide PublishOutcome;
    var k := FirstEnd(p, Async, script);
  }

  lemma ReadyAttempt(p: RetryPolicy, t: SendTurn)
    requires Ready(t)
    ensures !Connects(t) && Issues(p, t)
    ensures PublishOutcome(p, t) == if t.published then Returns(()) else Raises(PublishFailed)
  {
  }

  lemma {:induction false} ReadyCosts(p: RetryPolicy, turns: seq<SendTurn>)
    requires forall i :: 0 <= i < |turns| ==> Ready(turns[i])
    ensures Publishes(p, turns) == |turns| && FactoryCalls(p, turns) == 0 && InnerSleeps(p, turns) == 0
  {
    if turns != [] {
      ReadyCosts(p, turns[..|turns| - 1]);
      ReadyAttempt(p, turns[|turns| - 1]);
    }
  }

  /**
   Everything is cached, and the k-th publish is the first to succeed (or none does, k > |turns|).  If k is
   within the n attempts allowed, the send publishes exactly k times, sleeps k-1 times and returns;
   otherwise it publishes exactly n times and raises the publish's error; if and only if no power overflows.
   */
  lemma SendRetriesPublish(p: RetryPolicy, turns: seq<SendTurn>, k: nat)
    requires p.maxAttempts.Some? && k >= 1
    requires forall i :: 0 <= i < |turns| ==> Ready(turns[i])
    requires forall i :: 0 <= i < |turns| && i + 1 < k ==> !turns[i].published
    requires k <= |turns| ==> turns[k - 1].published
    requires |turns| >= k || |turns| >= Allowed(p)
    ensures var calls := if k <= Allowed(p) then k else Allowed(p);
            var log := Retried(p, Async, SendScript(p, turns));
            var made := turns[..log.calls];
            && (log.calls == calls <==> Safe(p, false, calls - 1))
            && (log.calls == calls ==>
              && Publishes(p, made) == calls && |log.sleeps| == calls - 1
              && FactoryCalls(p, made) == 0 && InnerSleeps(p, made) == 0
              && log.verdict == if k <= Allowed(p) then Returned(()) else Verdict.Raised(PublishFailed))
  {
    var script := SendScript(p, turns);
    forall i | 0 <= i < |turns|
      ensures script[i] == Turn(false, if turns[i].published then Returns(()) else Raises(PublishFailed), turns[i].draw)
    {
      ReadyAttempt(p, turns[i]);
    }
    hide PublishOutcome, Issues, Connects, Ready, Safe;
    NeverStops();
    CallCountExact(p, Async, script, k);
    ReadyCosts(p, turns[..Retried(p, Async, script).calls]);
  }

  /** A fresh sender connects, once if that succeeds, publishes, and is then ready. */
  lemma FreshSendConnects(p: RetryPolicy, t: SendTurn)
    requires t.seen == Link(false, false, false) && t.start != []
    requires t.start[0].factory && t.start[0].channel && t.start[0].exchange
    ensures Connects(t) && StartOf(p, t).calls == 1 && Opens(Made(p, t)) == 1 && AttemptLink(p, t) == Link(true, true, true)
    ensures Issues(p, t) && PublishOutcome(p, t) == if t.published then Returns(()) else Raises(PublishFailed)
  {
    FirstEndIs(p, Async, StartScript(t.start), 0);
    var made := Made(p, t);
    assert made == [t.start[0]] && made[..0] == [];
    assert Opens(made) == Opens([]) + 1;
    assert StartLink(t.seen, made) == DoStartLink(StartLink(t.seen, []), t.start[0]);
  }

  // ---------------------------------------------------------------- half-open senders

  /** The broker accepts connections, and declares no exchange or gives no channel. */
  predicate NeverSetUp(turns: seq<StartTurn>) {
    forall i :: 0 <= i < |turns| ==> turns[i].factory && !(turns[i].channel && turns[i].exchange)
  }

  lemma {:induction false} HalfOpenLink(l: Link, turns: seq<StartTurn>)
    requires NeverSetUp(turns) && turns != []
    ensures StartLink(l, turns).connOpen && StartLink(l, turns).exchange == l.exchange
    ensures Opens(turns) == |turns|
  {
    var front := turns[..|turns| - 1];
    if front != [] {
      HalfOpenLink(l, front);
    }
  }

  /**
   A `start` from no connection, on a broker that never sets it up, raises after all its calls, or on an
   overflow before that.  It leaves the last connection open, the exchange as it was, and every other
   connection it opened open and forgotten.
   */
  lemma StartCanEndHalfOpen(p: RetryPolicy, t: SendTurn)
    requires p.maxAttempts.Some? && |t.start| >= Allowed(p) && NeverSetUp(t.start) && !t.seen.connOpen
    ensures var made := Made(p, t);
            && Connects(t) && |made| == StartOf(p, t).calls >= 1 && !StartOf(p, t).verdict.Returned?
            && (|made| == Allowed(p) <==> Safe(p, false, Allowed(p) - 1))
            && AttemptLink(p, t).connOpen && AttemptLink(p, t).exchange == t.seen.exchange
            && Opens(made) == |made| && Overwrites(made) == |made| - 1
    ensures PublishOutcome(p, t) == Raises(StartFailed) && !Issues(p, t)
  {
    CallCountExact(p, Async, StartScript(t.start), |t.start| + 1);
    CallsBounded(p, StartScript(t.start));
    HalfOpenLink(t.seen, Made(p, t));
  }

  /**
   The guard of `start` looks at the connection only.  So a send that connects nothing itself makes no
   call to the factory, which could have repaired a missing exchange, and publishes exactly when one of
   its attempts finds an exchange; if none does, and no power overflows, it fails after all its attempts.
   */
  lemma HalfOpenNeverRepaired(p: RetryPolicy, turns: seq<SendTurn>)
    requires p.maxAttempts.Some? && |turns| >= Allowed(p)
    requires forall i :: 0 <= i < |turns| ==> turns[i].seen.connOpen
    ensures var log := Retried(p, Async, SendScript(p, turns));
            var made := turns[..log.calls];
            && FactoryCalls(p, made) == 0 && InnerSleeps(p, made) == 0
            && (Publishes(p, made) == 0 <==> forall i :: 0 <= i < log.calls ==> !turns[i].seen.exchange)
            && ((forall i :: 0 <= i < Allowed(p) ==> !turns[i].seen.exchange) && Safe(p, false, Allowed(p) - 1) ==>
                  log.verdict == Verdict.Raised(NoExchange) && log.calls == Allowed(p))
  {
    var script := SendScript(p, turns);
    var log := Retried(p, Async, script);
    CallsBounded(p, script);
    OpenCosts(p, turns[..log.calls]);
    if (forall i :: 0 <= i < Allowed(p) ==> !turns[i].seen.exchange) && Safe(p, false, Allowed(p) - 1) {
      FailsThroughout(p, turns);
    }
  }

  lemma FailsThroughout(p: RetryPolicy, turns: seq<SendTurn>)
    requires p.maxAttempts.Some? && |turns| >= Allowed(p) && Safe(p, false, Allowed(p) - 1)
    requires forall i :: 0 <= i < Allowed(p) ==> PublishOutcome(p, turns[i]).Raises?
    ensures var log := Retried(p, Async, SendScript(p, turns));
            && log.calls == Allowed(p)
            && log.verdict == Verdict.Raised(PublishOutcome(p, turns[Allowed(p) - 1]).error)
  {
    var n := Allowed(p);
    SafeForScript(p, false, SendScript(p, turns), n - 1);
    hide Safe, BackoffRaises, PublishOutcome;
    FirstEndIs(p, Async, SendScript(p, turns), n - 1);
  }

  lemma {:induction false} OpenCosts(p: RetryPolicy, turns: seq<SendTurn>)
    requires forall i :: 0 <= i < |turns| ==> turns[i].seen.connOpen
    ensures FactoryCalls(p, turns) == 0 && InnerSleeps(p, turns) == 0 && Opened(p, turns) == 0 && Overwritten(p, turns) == 0
    ensures Publishes(p, turns) == 0 <==> forall i :: 0 <= i < |turns| ==> !turns[i].seen.exchange
  {
    if turns != [] {
      OpenCosts(p, turns[..|turns| - 1]);
    }
  }

  /** The first attempt's costs come first. */
  lemma {:induction false} CostsCons(p: RetryPolicy, t: SendTurn, rest: seq<SendTurn>)
    ensures FactoryCalls(p, [t] + rest) == (if Connects(t) then StartOf(p, t).calls else 0) + FactoryCalls(p, rest)
    ensures Publishes(p, [t] + rest) == (if Issues(p, t) then 1 else 0) + Publishes(p, rest)
    ensures Opened(p, [t] + rest) == Opens(Made(p, t)) + Opened(p, rest)
    ensures Overwritten(p, [t] + rest) == Overwrites(Made(p, t)) + Overwritten(p, rest)
  {
    hide StartOf, Connects, Issues, Made, Overwrites;
    if rest == [] {
      assert [t] + rest == [t] && [t][..0] == [];
    } else {
      CostsCons(p, t, rest[..|rest| - 1]);
      assert ([t] + rest)[..|[t] + rest| - 1] == [t] + rest[..|rest| - 1];
    }
  }

  /**
   A send from a fresh sender on such a broker: its first attempt makes all n factory calls, the others
   find what that start left and fail for want of an exchange, and when it gives up every one of the n
   connections it opened is open and forgotten.
   */
  lemma SendStaysHalfOpen(p: RetryPolicy, turns: seq<SendTurn>)
    requires p.maxAttempts.Some? && |turns| >= Allowed(p) >= 2 && Safe(p, false, Allowed(p) - 1)
    requires turns[0].seen == Link(false, false, false)
    requires |turns[0].start| >= Allowed(p) && NeverSetUp(turns[0].start)
    requires forall i :: 1 <= i < |turns| ==> turns[i].seen == AttemptLink(p, turns[0])
    ensures var n := Allowed(p);
            var log := Retried(p, Async, SendScript(p, turns));
            var made := turns[..log.calls];
            && log.verdict == Verdict.Raised(NoExchange) && log.calls == n
            && FactoryCalls(p, made) == n && Publishes(p, made) == 0
            && Opened(p, made) == Forgotten(p, made, GaveUp(log.verdict)) == n
  {
    var n := Allowed(p);
    StartCanEndHalfOpen(p, turns[0]);
    hide Safe;
    FailsThroughout(p, turns);
    var rest := turns[1..n];
    assert turns[..n] == [turns[0]] + rest;
    CostsCons(p, turns[0], rest);
    OpenCosts(p, rest);
  }
}
