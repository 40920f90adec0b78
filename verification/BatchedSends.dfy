/**
 Concurrent sends of an `AsyncSender` that batches its confirms: the retry loop of each over the shared list
 of pending ones.

 `confirmed(f)` says whether the broker confirms publish future f.  A gather raises if one of its futures
 fails, in the send that awaits it; that send then publishes its own message again.  Inputs are the stretches
 between two awaits, of any task in any order.
 */
module BatchedSends {
  import opened RetryPolicies
  import Batching = ConfirmBatching

  /** `Awaiting` the gather that the last attempt filled; `Attempting` again after a failure, or for the first time. */
  datatype Phase = Attempting | Awaiting | Sent | GaveUp

  /** One send: the futures its attempts have published, one message all, and how many attempts it has made. */
  datatype Send = Send(futures: seq<nat>, attempts: nat, phase: Phase)

  datatype State = State(batch: Batching.State, sends: seq<Send>)

  datatype Config = Config(size: nat, policy: RetryPolicy, confirmed: nat -> bool)

  /** `Fail`: an attempt that raises before it publishes. */
  datatype Input = Begin | Attempt(i: nat) | Fail(i: nat) | Resume(i: nat) | Flush | Stop

  function Init(): State {
    State(Batching.Init(), [])
  }

  /** The attempt filled a batch, and the confirm of one of its futures failed. */
  predicate BatchFailed(c: Config, b: Batching.State, future: nat) {
    exists k :: 0 <= k < |b.gathers| && b.gathers[k].waiter == Batching.FilledBy(future) && AnyFails(c, b.gathers[k].futures)
  }

  predicate AnyFails(c: Config, futures: seq<nat>) {
    exists x :: 0 <= x < |futures| && !c.confirmed(futures[x])
  }

  function AfterFailure(c: Config, attempts: nat): Phase {
    if GivesUp(c.policy, attempts) || Overflows(c.policy, attempts + 1) then GaveUp else Attempting
  }

  function AttemptStep(c: Config, s: State, i: nat): State
    requires i < |s.sends|
  {
    var t := s.sends[i];
    if !t.phase.Attempting? then s
    else
      var filled := |s.batch.pending| + 1 >= c.size;
      State(Batching.PublishStep(c.size, s.batch),
            s.sends[i := Send(t.futures + [s.batch.created], t.attempts + 1, if filled then Awaiting else Sent)])
  }

  function FailStep(c: Config, s: State, i: nat): State
    requires i < |s.sends|
  {
    var t := s.sends[i];
    if !t.phase.Attempting? then s
    else s.(sends := s.sends[i := t.(attempts := t.attempts + 1, phase := AfterFailure(c, t.attempts + 1))])
  }

  function ResumeStep(c: Config, s: State, i: nat): State
    requires i < |s.sends|
  {
    var t := s.sends[i];
    if !t.phase.Awaiting? || t.futures == [] then s
    else if BatchFailed(c, s.batch, t.futures[|t.futures| - 1]) then
      s.(sends := s.sends[i := t.(phase := AfterFailure(c, t.attempts))])
    else s.(sends := s.sends[i := t.(phase := Sent)])
  }

  function Step(c: Config, s: State, e: Input): State {
    match e
    case Begin => s.(sends := s.sends + [Send([], 0, Attempting)])
    case Attempt(i) => if i < |s.sends| then AttemptStep(c, s, i) else s
    case Fail(i) => if i < |s.sends| then FailStep(c, s, i) else s
    case Resume(i) => if i < |s.sends| then ResumeStep(c, s, i) else s
    case Flush => s.(batch := Batching.HandOver(s.batch, Batching.PeriodicFlush))
    case Stop => s.(batch := Batching.HandOver(s.batch, Batching.StopFlush))
  }

  function After(c: Config, s: State, tape: seq<Input>): State {
    if tape == [] then s else Step(c, After(c, s, tape[..|tape| - 1]), tape[|tape| - 1])
  }

  function Run(c: Config, tape: seq<Input>): State {
    After(c, Init(), tape)
  }

  /** What each stretch does to its own send; the others it leaves alone. */
  lemma SendSteps(c: Config, s: State, i: nat)
    requires i < |s.sends|
    ensures var t := s.sends[i];
            t.phase.Attempting? ==>
              var a, f := Step(c, s, Attempt(i)), Step(c, s, Fail(i));
              && a.batch == Batching.Step(c.size, s.batch, Batching.Publish)
              && a.sends == s.sends[i := Send(t.futures + [s.batch.created], t.attempts + 1,
                                              if |s.batch.pending| + 1 < c.size then Sent else Awaiting)]
              && f.batch == s.batch && |f.sends| == |s.sends|
              && f.sends[i].futures == t.futures && f.sends[i].attempts == t.attempts + 1
              && (f.sends[i].phase == Attempting || f.sends[i].phase == GaveUp)
    ensures var t := s.sends[i];
            t.phase.Awaiting? && t.futures != [] && !BatchFailed(c, s.batch, t.futures[|t.futures| - 1]) ==>
              Step(c, s, Resume(i)) == s.(sends := s.sends[i := t.(phase := Sent)])
    ensures Step(c, s, Flush) == s.(batch := Batching.Step(c.size, s.batch, Batching.Input.Flush))
    ensures Step(c, s, Stop) == s.(batch := Batching.Step(c.size, s.batch, Batching.Input.Stop))
    ensures Step(c, s, Begin) == s.(sends := s.sends + [Send([], 0, Attempting)])
  {
    hide BatchFailed, Batching.PublishStep, Batching.HandOver, Overflows, GivesUp;
    FirstPhase(c, s.sends[i].attempts + 1);
  }

  lemma FirstPhase(c: Config, attempts: nat)
    ensures AfterFailure(c, attempts).GaveUp? || AfterFailure(c, attempts).Attempting?
  {
  }

  // ---------------------------------------------------------------- the invariant

  predicate AllFailed(c: Config, b: Batching.State, futures: seq<nat>) {
    forall j :: 0 <= j < |futures| ==> BatchFailed(c, b, futures[j])
  }

  /** All but the last attempt failed with the batch they filled; the phase says the same of the last. */
  ghost predicate SendOk(c: Config, b: Batching.State, t: Send) {
    && (forall j :: 0 <= j < |t.futures| ==> t.futures[j] < b.created)
    && match t.phase
       case Attempting => AllFailed(c, b, t.futures)
       case GaveUp => AllFailed(c, b, t.futures)
       case Awaiting =>
         && t.futures != [] && AllFailed(c, b, t.futures[..|t.futures| - 1])
         && Batching.OwnReport(b, t.futures[|t.futures| - 1])
       case Sent =>
         && t.futures != [] && AllFailed(c, b, t.futures[..|t.futures| - 1])
         && !BatchFailed(c, b, t.futures[|t.futures| - 1])
  }

  ghost predicate Inv(c: Config, s: State) {
    && Batching.AttemptsOld(s.batch)
    && (forall i :: 0 <= i < |s.sends| ==> SendOk(c, s.batch, s.sends[i]))
  }

  /** What a batch was filled by, and how it came out, is settled when the attempt is made. */
  ghost predicate Settles(c: Config, b: Batching.State, r: Batching.State) {
    && r.created >= b.created && Batching.AttemptsOld(r)
    && (forall f :: 0 <= f < b.created ==>
          && (BatchFailed(c, r, f) <==> BatchFailed(c, b, f))
          && (Batching.OwnReport(r, f) <==> Batching.OwnReport(b, f)))
  }

  lemma Appended(c: Config, b: Batching.State, r: Batching.State, f: nat)
    requires r.gathers == b.gathers
          || (|r.gathers| == |b.gathers| + 1 && r.gathers[..|b.gathers|] == b.gathers
              && r.gathers[|b.gathers|].waiter != Batching.FilledBy(f))
    ensures BatchFailed(c, r, f) <==> BatchFailed(c, b, f)
    ensures Batching.OwnReport(r, f) <==> Batching.OwnReport(b, f)
  {
    hide AnyFails;
    assert forall k :: 0 <= k < |b.gathers| ==> r.gathers[k] == b.gathers[k];
  }

  lemma FlushSettles(c: Config, b: Batching.State, waiter: Batching.Waiter)
    requires Batching.AttemptsOld(b) && !waiter.FilledBy?
    ensures Settles(c, b, Batching.HandOver(b, waiter))
  {
    var r := Batching.HandOver(b, waiter);
    forall f | 0 <= f < b.created
      ensures BatchFailed(c, r, f) <==> BatchFailed(c, b, f)
      ensures Batching.OwnReport(r, f) <==> Batching.OwnReport(b, f)
    {
      Appended(c, b, r, f);
    }
  }

  /** A publish settles all earlier futures and its own: it awaits a gather exactly if it filled one. */
  lemma PublishSettles(c: Config, b: Batching.State)
    requires Batching.AttemptsOld(b)
    ensures var r := Batching.PublishStep(c.size, b);
            && Settles(c, b, r) && r.created == b.created + 1
            && (Batching.OwnReport(r, b.created) <==> |b.pending| + 1 >= c.size)
            && (|b.pending| + 1 < c.size ==> !BatchFailed(c, r, b.created))
  {
    var r := Batching.PublishStep(c.size, b);
    forall f | 0 <= f < b.created
      ensures BatchFailed(c, r, f) <==> BatchFailed(c, b, f)
      ensures Batching.OwnReport(r, f) <==> Batching.OwnReport(b, f)
    {
      Appended(c, b, r, f);
    }
    if |b.pending| + 1 >= c.size {
      assert r.gathers[|b.gathers|].waiter == Batching.FilledBy(b.created);
    }
  }

  lemma SendStaysOk(c: Config, b: Batching.State, r: Batching.State, t: Send)
    requires SendOk(c, b, t) && Settles(c, b, r)
    ensures SendOk(c, r, t)
  {
    hide BatchFailed, Batching.OwnReport;
  }

  lemma OthersStayOk(c: Config, s: State, r: State, i: nat)
    requires Inv(c, s) && Settles(c, s.batch, r.batch)
    requires i < |s.sends| == |r.sends| && r.sends == s.sends[i := r.sends[i]] && SendOk(c, r.batch, r.sends[i])
    ensures Inv(c, r)
  {
    forall k | 0 <= k < |r.sends|
      ensures SendOk(c, r.batch, r.sends[k])
    {
      if k != i {
        SendStaysOk(c, s.batch, r.batch, s.sends[k]);
      }
    }
  }

  lemma AttemptKept(c: Config, s: State, i: nat)
    requires Inv(c, s) && i < |s.sends|
    ensures Inv(c, AttemptStep(c, s, i))
  {
    var t, r := s.sends[i], AttemptStep(c, s, i);
    if t.phase.Attempting? {
      PublishSettles(c, s.batch);
      hide BatchFailed, Batching.OwnReport, Batching.PublishStep, Batching.AttemptsOld;
      assert SendOk(c, s.batch, t);
      var futures := r.sends[i].futures;
      assert futures[..|futures| - 1] == t.futures;
      SendStaysOk(c, s.batch, r.batch, t);
      OthersStayOk(c, s, r, i);
    }
  }

  lemma LocalKept(c: Config, s: State, r: State, i: nat)
    requires Inv(c, s) && i < |s.sends| && (r == FailStep(c, s, i) || r == ResumeStep(c, s, i))
    ensures Inv(c, r)
  {
    hide BatchFailed, Batching.OwnReport, Batching.AttemptsOld, AfterFailure;
    assert SendOk(c, s.batch, s.sends[i]);
    FirstPhase(c, s.sends[i].attempts);
    FirstPhase(c, s.sends[i].attempts + 1);
  }

  lemma FlushKept(c: Config, s: State, waiter: Batching.Waiter)
    requires Inv(c, s) && !waiter.FilledBy?
    ensures Inv(c, s.(batch := Batching.HandOver(s.batch, waiter)))
  {
    var b := Batching.HandOver(s.batch, waiter);
    FlushSettles(c, s.batch, waiter);
    forall k | 0 <= k < |s.sends|
      ensures SendOk(c, b, s.sends[k])
    {
      SendStaysOk(c, s.batch, b, s.sends[k]);
    }
  }

  lemma InvKept(c: Config, s: State, e: Input)
    requires Inv(c, s)
    ensures Inv(c, Step(c, s, e))
  {
    match e
    case Begin =>
    case Attempt(i) =>
      if i < |s.sends| {
        AttemptKept(c, s, i);
      }
    case Fail(i) =>
      if i < |s.sends| {
        LocalKept(c, s, FailStep(c, s, i), i);
      }
    case Resume(i) =>
      if i < |s.sends| {
        LocalKept(c, s, ResumeStep(c, s, i), i);
      }
    case Flush => FlushKept(c, s, Batching.PeriodicFlush);
    case Stop => FlushKept(c, s, Batching.StopFlush);
  }

  lemma {:induction false} RunsKeepInv(c: Config, tape: seq<Input>)
    ensures Inv(c, After(c, Init(), tape))
  {
    if tape != [] {
      RunsKeepInv(c, tape[..|tape| - 1]);
      hide Inv, Step;
      InvKept(c, After(c, Init(), tape[..|tape| - 1]), tape[|tape| - 1]);
    }
  }

  // ---------------------------------------------------------------- who hears of a failed confirm

  /** The send took this attempt for a failure: it published its message again, is about to, or gave up. */
  predicate TakenForFailure(t: Send, j: nat) {
    j + 1 < |t.futures| || t.phase.Attempting? || t.phase.GaveUp?
  }

  /**
   In every run of concurrent sends, flushes and retries, a send takes an attempt for a failure exactly
   when the attempt filled a batch in which some confirm failed, its own or another's, once that batch has
   been heard of.
   */
  lemma RetriedIff(c: Config, tape: seq<Input>, i: nat, j: nat)
    requires i < |Run(c, tape).sends| && j < |Run(c, tape).sends[i].futures|
    ensures var s := Run(c, tape);
            var t := s.sends[i];
            (t.phase.Awaiting? && j + 1 == |t.futures|)
            || (TakenForFailure(t, j) <==> BatchFailed(c, s.batch, t.futures[j]))
  {
    RunsKeepInv(c, tape);
    var s := Run(c, tape);
    var t := s.sends[i];
    hide BatchFailed, Run;
    assert SendOk(c, s.batch, t);
    if j + 1 < |t.futures| {
      assert t.futures[..|t.futures| - 1][j] == t.futures[j];
    }
  }

  /**
   So a confirm that fails without having filled a batch is not retried: its send has returned, as if the
   message were delivered, and that was its last attempt.
   */
  lemma FailureGoesUnheard(c: Config, tape: seq<Input>, i: nat, j: nat)
    requires i < |Run(c, tape).sends| && j < |Run(c, tape).sends[i].futures|
    requires !Batching.OwnReport(Run(c, tape).batch, Run(c, tape).sends[i].futures[j])
    ensures var t := Run(c, tape).sends[i];
            t.phase.Sent? && j + 1 == |t.futures|
  {
    RetriedIff(c, tape, i, j);
    RunsKeepInv(c, tape);
    var s := Run(c, tape);
    hide Run;
    assert SendOk(c, s.batch, s.sends[i]);
    assert !BatchFailed(c, s.batch, s.sends[i].futures[j]);
  }

  // ---------------------------------------------------------------- how often a send tries

  /** A send stops trying exactly when its policy gives up, or its next backoff overflows. */
  ghost predicate TriesOk(c: Config, t: Send) {
    && |t.futures| <= t.attempts
    && (t.phase.GaveUp? ==> GivesUp(c.policy, t.attempts) || Overflows(c.policy, t.attempts + 1))
    && (t.phase.Attempting? && t.attempts > 0 ==> !GivesUp(c.policy, t.attempts) && !Overflows(c.policy, t.attempts + 1))
    && (forall k :: 1 <= k < t.attempts ==> !GivesUp(c.policy, k))
  }

  ghost predicate AllTriesOk(c: Config, s: State) {
    forall i :: 0 <= i < |s.sends| ==> TriesOk(c, s.sends[i])
  }

  lemma TriesKept(c: Config, s: State, e: Input)
    requires AllTriesOk(c, s)
    ensures AllTriesOk(c, Step(c, s, e))
  {
    hide BatchFailed, Batching.PublishStep, Batching.HandOver, Overflows;
  }

  /** In every run a send makes at most as many attempts as its policy allows, and gives up only when that says so. */
  lemma {:induction false} AttemptsBounded(c: Config, tape: seq<Input>)
    ensures AllTriesOk(c, Run(c, tape))
    ensures c.policy.maxAttempts.Some? ==>
              forall i :: 0 <= i < |Run(c, tape).sends| ==>
                |Run(c, tape).sends[i].futures| <= Run(c, tape).sends[i].attempts <= Allowed(c.policy)
  {
    if tape != [] {
      AttemptsBounded(c, tape[..|tape| - 1]);
      TriesKept(c, Run(c, tape[..|tape| - 1]), tape[|tape| - 1]);
    }
    hide Run;
    if c.policy.maxAttempts.Some? {
      forall i | 0 <= i < |Run(c, tape).sends|
        ensures Run(c, tape).sends[i].attempts <= Allowed(c.policy)
      {
        assert TriesOk(c, Run(c, tape).sends[i]);
        assert GivesUp(c.policy, Allowed(c.policy));
      }
    }
  }

  lemma Extend(c: Config, tape: seq<Input>, s: State, e: Input) returns (more: seq<Input>)
    requires Run(c, tape) == s
    ensures Run(c, more) == Step(c, s, e)
  {
    hide Step;
    more := tape + [e];
    assert more[..|more| - 1] == tape;
  }

  function OneUnconfirmed(policy: RetryPolicy): Config {
    Config(2, policy, f => f != 0)
  }

  lemma FirstSent(policy: RetryPolicy) returns (tape: seq<Input>)
    ensures Run(OneUnconfirmed(policy), tape)
         == State(Batching.State([0], [], 1), [Send([0], 1, Sent), Send([], 0, Attempting)])
  {
    var c := OneUnconfirmed(policy);
    assert Run(c, []) == Init();
    var none: seq<nat> := [];
    assert none + [0] == [0];
    hide Run;
    tape := Extend(c, [], Init(), Begin);
    tape := Extend(c, tape, State(Batching.Init(), [Send([], 0, Attempting)]), Begin);
    tape := Extend(c, tape, State(Batching.Init(), [Send([], 0, Attempting), Send([], 0, Attempting)]), Attempt(0));
  }

  /** Two sends; the second fills the batch that the first has left its unconfirmed future in. */
  lemma BatchFills(policy: RetryPolicy) returns (tape: seq<Input>)
    ensures Run(OneUnconfirmed(policy), tape)
         == State(Batching.State([], [Batching.Gather([0, 1], Batching.FilledBy(1))], 2),
                  [Send([0], 1, Sent), Send([1], 1, Awaiting)])
  {
    var c := OneUnconfirmed(policy);
    tape := FirstSent(policy);
    var none: seq<nat> := [];
    assert none + [1] == [1] && [0] + [1] == [0, 1];
    hide Run;
    tape := Extend(c, tape, State(Batching.State([0], [], 1), [Send([0], 1, Sent), Send([], 0, Attempting)]), Attempt(1));
  }

  /** The wrong send retries: the unconfirmed message's send has returned, and the confirmed one is published twice. */
  lemma WrongSendRetries(policy: RetryPolicy) returns (tape: seq<Input>)
    requires !GivesUp(policy, 1) && !Overflows(policy, 2)
    ensures var c := OneUnconfirmed(policy);
            var s := Run(c, tape);
            && |s.sends| == 2
            && !c.confirmed(0) && s.sends[0] == Send([0], 1, Sent)
            && c.confirmed(1) && s.sends[1].futures == [1, 2]
  {
    var c := OneUnconfirmed(policy);
    tape := BatchFills(policy);
    var g := Batching.Gather([0, 1], Batching.FilledBy(1));
    var b := Batching.State([], [g], 2);
    assert BatchFailed(c, b, 1) by {
      assert !c.confirmed(g.futures[0]);
      assert AnyFails(c, b.gathers[0].futures);
    }
    hide Run, BatchFailed;
    tape := Extend(c, tape, State(b, [Send([0], 1, Sent), Send([1], 1, Awaiting)]), Resume(1));
    tape := Extend(c, tape, State(b, [Send([0], 1, Sent), Send([1], 1, Attempting)]), Attempt(1));
  }
}
