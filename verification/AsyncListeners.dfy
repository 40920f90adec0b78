/**
 The concurrency limit of `AsyncListener`: handlers, permits and sessions.

 `start` makes a new semaphore; `stop` waits for the handlers in flight and then drops the reference to
 it.  A handler takes its permit from the semaphore that is current when it starts, and gives it back to
 the one that is current when it ends.  Tasks switch at awaits only, so each input is one stretch between
 two awaits.  `StartCall` is a start past its guard, which looks at the connection only.

 The wait of `stop` cancels what it waits for when its timeout is over, and then waits on: so it ends
 when every handler that was in flight at its beginning has ended.
 */
module AsyncListeners {
  import opened Wrappers

  /** A handler task; `session` is that of the semaphore it waits for or took its permit from. */
  datatype Handler = Created | Waiting(session: nat) | Holding(session: nat) | Gone

  /**
   `semaphores[k]` is the number of free permits of session k.  For the record, `strays[k]` counts
   permits of other sessions given to k, and `losses[k]` those of k given elsewhere or to nobody.
   The handlers from `tracked` on are in `_in_flight` until they end; `awaited` are those a `stop` under
   way waits for.
   */
  datatype State = State(
    current: Option<nat>,
    semaphores: seq<nat>,
    handlers: seq<Handler>,
    tracked: nat,
    awaited: Option<set<nat>>,
    strays: seq<nat>,
    losses: seq<nat>)

  datatype Input =
    | StartCall
    | StopWait
    | StopEnd
    | MessageArrives
    | Begin(i: nat)
    | Acquire(i: nat)
    | Finish(i: nat)
    | Cancel(i: nat)

  /** `__init__`: the limit is the one given, or the prefetch count, or 100; it is at least 1. */
  function MaxConcurrency(given: Option<int>, prefetch: int): (n: nat)
    ensures n >= 1
    ensures given.Some? && given.value >= 1 ==> n == given.value
    ensures given.None? ==> n == if prefetch >= 1 then prefetch else 100
    ensures given.Some? && given.value < 1 ==> n == 1
  {
    if given.Some? then (if given.value < 1 then 1 else given.value)
    else if prefetch > 0 then prefetch else 100
  }

  function Init(): State {
    State(None, [], [], 0, None, [], [])
  }

  /** The permit of a handler of session k goes to the current semaphore, or to nobody. */
  function ReleaseFrom(s: State, k: nat): State
    requires k < |s.losses| == |s.semaphores| == |s.strays|
    requires s.current.Some? ==> s.current.value < |s.semaphores|
  {
    if s.current.None? then s.(losses := s.losses[k := s.losses[k] + 1])
    else
      var c := s.current.value;
      var given := s.(semaphores := s.semaphores[c := s.semaphores[c] + 1]);
      if c == k then given
      else given.(strays := s.strays[c := s.strays[c] + 1], losses := s.losses[k := s.losses[k] + 1])
  }

  predicate Shaped(s: State) {
    && |s.losses| == |s.semaphores| == |s.strays|
    && (s.current.Some? ==> s.current.value == |s.semaphores| - 1)
    && (forall i :: 0 <= i < |s.handlers| && (s.handlers[i].Waiting? || s.handlers[i].Holding?) ==>
          s.handlers[i].session < |s.semaphores|)
  }

  function HandlerStep(s: State, e: Input, i: nat): State
    requires Shaped(s) && i < |s.handlers|
  {
    match (e, s.handlers[i])
    case (Begin(_), Created) =>
      s.(handlers := s.handlers[i := if s.current.Some? then Waiting(s.current.value) else Gone])
    case (Acquire(_), Waiting(k)) =>
      if s.semaphores[k] > 0 then
        s.(handlers := s.handlers[i := Holding(k)], semaphores := s.semaphores[k := s.semaphores[k] - 1])
      else s
    case (Finish(_), Holding(k)) => ReleaseFrom(s, k).(handlers := s.handlers[i := Gone])
    case (Cancel(_), Created) => s.(handlers := s.handlers[i := Gone])
    case (Cancel(_), Waiting(_)) => s.(handlers := s.handlers[i := Gone])
    case (Cancel(_), Holding(k)) => ReleaseFrom(s, k).(handlers := s.handlers[i := Gone])
    case _ => s
  }

  function InFlight(handlers: seq<Handler>, tracked: nat): set<nat> {
    set i: nat | tracked <= i < |handlers| && !handlers[i].Gone?
  }

  predicate WaitOver(s: State) {
    s.awaited.Some? && forall i :: 0 <= i < |s.handlers| && i in s.awaited.value ==> s.handlers[i].Gone?
  }

  function Step(max: nat, s: State, e: Input): State
    requires Shaped(s)
  {
    match e
    case StartCall =>
      if s.awaited.Some? then s
      else s.(current := Some(|s.semaphores|), semaphores := s.semaphores + [max],
              strays := s.strays + [0], losses := s.losses + [0])
    case StopWait => if s.awaited.Some? then s else s.(awaited := Some(InFlight(s.handlers, s.tracked)))
    case StopEnd =>
      if WaitOver(s) then s.(current := None, awaited := None, tracked := |s.handlers|) else s
    case MessageArrives => s.(handlers := s.handlers + [Created])
    case _ => if e.i < |s.handlers| then HandlerStep(s, e, e.i) else s
  }

  lemma StepShaped(max: nat, s: State, e: Input)
    requires Shaped(s)
    ensures Shaped(Step(max, s, e))
  {
  }

  function After(max: nat, s: State, tape: seq<Input>): (r: State)
    requires Shaped(s)
    ensures Shaped(r)
  {
    if tape == [] then s
    else
      var before := After(max, s, tape[..|tape| - 1]);
      StepShaped(max, before, tape[|tape| - 1]);
      Step(max, before, tape[|tape| - 1])
  }

  /** A handler that ends or is cancelled is gone, and only one that holds a permit gives one, to the current semaphore. */
  lemma EndExact(max: nat, s: State, e: Input, i: nat)
    requires Shaped(s) && i < |s.handlers| && e.Cancel? && e.i == i
    ensures var r, h := Step(max, s, e), s.handlers[i];
            && r.handlers == s.handlers[i := Gone] && r.current == s.current
            && (!h.Holding? || s.current.None? ==> r.semaphores == s.semaphores)
            && (h.Holding? && s.current.Some? ==>
                  r.semaphores == s.semaphores[s.current.value := s.semaphores[s.current.value] + 1])
    ensures s.handlers[i].Holding? ==> Step(max, s, Finish(i)) == Step(max, s, e)
    ensures !s.handlers[i].Holding? ==> Step(max, s, Finish(i)) == s
  {
    assert s.handlers[i := s.handlers[i]] == s.handlers;
  }

  /** A waiting handler gets a permit exactly when its own semaphore has one; one that begins waits on the current one. */
  lemma BeginExact(max: nat, s: State, i: nat)
    requires Shaped(s) && i < |s.handlers|
    ensures s.handlers[i].Created? ==>
              Step(max, s, Begin(i)) == s.(handlers := s.handlers[i := if s.current.Some? then Waiting(s.current.value) else Gone])
    ensures s.handlers[i].Waiting? ==>
              var k := s.handlers[i].session;
              Step(max, s, Acquire(i)) ==
              if s.semaphores[k] == 0 then s
              else s.(handlers := s.handlers[i := Holding(k)], semaphores := s.semaphores[k := s.semaphores[k] - 1])
  {
  }

  /** A stop ends exactly when all that was in flight as it began has ended. */
  lemma StopExact(max: nat, s: State)
    requires Shaped(s)
    ensures s.awaited.None? ==>
              && Step(max, s, StopWait).awaited.Some?
              && forall i :: 0 <= i < |s.handlers| ==>
                   (i in Step(max, s, StopWait).awaited.value <==> s.tracked <= i && s.handlers[i] != Gone)
    ensures s.awaited.Some? ==>
              var over := forall i :: 0 <= i < |s.handlers| && i in s.awaited.value ==> s.handlers[i] == Gone;
              Step(max, s, StopEnd) == if over then s.(current := None, awaited := None, tracked := |s.handlers|) else s
    ensures s.awaited.None? ==> Step(max, s, StopEnd) == s
  {
  }

  // ---------------------------------------------------------------- the law of permits

  function HoldersOf(handlers: seq<Handler>, k: nat): nat {
    if handlers == [] then 0
    else HoldersOf(handlers[..|handlers| - 1], k) + (if handlers[|handlers| - 1] == Holding(k) then 1 else 0)
  }

  /** For every session: free, plus held, plus lost, is the limit plus what strayed in. */
  ghost predicate Lawful(max: nat, s: State)
    requires Shaped(s)
  {
    && (forall k :: 0 <= k < |s.semaphores| ==>
          s.semaphores[k] + HoldersOf(s.handlers, k) + s.losses[k] == max + s.strays[k])
    && (s.current.Some? ==> s.losses[s.current.value] == 0)
  }

  lemma {:induction false} HoldersUpdate(handlers: seq<Handler>, i: nat, h: Handler, k: nat)
    requires i < |handlers|
    ensures HoldersOf(handlers[i := h], k) + (if handlers[i] == Holding(k) then 1 else 0)
         == HoldersOf(handlers, k) + (if h == Holding(k) then 1 else 0)
  {
    var n := |handlers| - 1;
    if i == n {
      assert handlers[i := h][..n] == handlers[..n];
    } else {
      HoldersUpdate(handlers[..n], i, h, k);
      assert handlers[i := h][..n] == handlers[..n][i := h];
    }
  }

  lemma {:induction false} NoHoldersYet(handlers: seq<Handler>, k: nat)
    requires forall i :: 0 <= i < |handlers| && handlers[i].Holding? ==> handlers[i].session < k
    ensures HoldersOf(handlers, k) == 0
  {
    if handlers != [] {
      NoHoldersYet(handlers[..|handlers| - 1], k);
    }
  }

  lemma OneCreated(handlers: seq<Handler>)
    ensures forall k :: HoldersOf(handlers + [Created], k) == HoldersOf(handlers, k)
  {
    assert (handlers + [Created])[..|handlers|] == handlers;
  }

  /** What a handler's step does to the books, apart from who holds what. */
  lemma HandlerBooks(s: State, e: Input, i: nat, k: nat)
    requires Shaped(s) && i < |s.handlers| && k < |s.semaphores|
    ensures var r := HandlerStep(s, e, i);
            && |r.semaphores| == |s.semaphores| && r.current == s.current && |r.handlers| == |s.handlers|
            && r.handlers == s.handlers[i := r.handlers[i]]
            && r.semaphores[k] + r.losses[k] + s.strays[k] + (if r.handlers[i] == Holding(k) then 1 else 0)
               == s.semaphores[k] + s.losses[k] + r.strays[k] + (if s.handlers[i] == Holding(k) then 1 else 0)
            && (s.current == Some(k) ==> r.losses[k] == s.losses[k])
  {
    assert s.handlers[i := s.handlers[i]] == s.handlers;
  }

  lemma LawKept(max: nat, s: State, e: Input)
    requires Shaped(s) && Lawful(max, s)
    ensures Shaped(Step(max, s, e)) && Lawful(max, Step(max, s, e))
  {
    StepShaped(max, s, e);
    var r := Step(max, s, e);
    hide HandlerStep, InFlight, HoldersOf;
    if e.StartCall? {
      NoHoldersYet(s.handlers, |s.semaphores|);
    } else if e.MessageArrives? {
      OneCreated(s.handlers);
    } else if !e.StopWait? && !e.StopEnd? && e.i < |s.handlers| {
      HandlerLawKept(max, s, e, e.i);
    }
  }

  lemma HandlerLawKept(max: nat, s: State, e: Input, i: nat)
    requires Shaped(s) && Lawful(max, s) && i < |s.handlers| && Shaped(HandlerStep(s, e, i))
    ensures Lawful(max, HandlerStep(s, e, i))
  {
    var r := HandlerStep(s, e, i);
    forall k | 0 <= k < |s.semaphores|
      ensures |r.semaphores| == |s.semaphores| && r.current == s.current
      ensures r.semaphores[k] + HoldersOf(r.handlers, k) + r.losses[k] == max + r.strays[k]
      ensures s.current == Some(k) ==> r.losses[k] == 0
    {
      HandlerBooks(s, e, i, k);
      hide HandlerStep;
      HoldersUpdate(s.handlers, i, r.handlers[i], k);
    }
  }

  /**
   In every run, across starts, stops and cancellations, and in every session: free permits, those held
   and those lost make up the limit and those that strayed in; the current session has lost none.
   */
  lemma {:induction false} PermitLaw(max: nat, tape: seq<Input>)
    ensures Lawful(max, After(max, Init(), tape))
  {
    if tape != [] {
      PermitLaw(max, tape[..|tape| - 1]);
      LawKept(max, After(max, Init(), tape[..|tape| - 1]), tape[|tape| - 1]);
    }
  }

  // ---------------------------------------------------------------- one session

  /** No start, and no end of a stop. */
  predicate WithinSession(tape: seq<Input>) {
    forall i :: 0 <= i < |tape| ==> !tape[i].StartCall? && !tape[i].StopEnd?
  }

  /** The limit is kept exactly: free permits and running handlers of the current session add up to it. */
  predicate Conserved(max: nat, s: State)
    requires Shaped(s)
  {
    s.current.Some? ==> s.semaphores[s.current.value] + HoldersOf(s.handlers, s.current.value) == max
  }

  /** A handler that has, or can still get, a permit of a session that is not the current one. */
  predicate LeftOver(s: State, h: Handler)
    requires Shaped(s) && (h.Waiting? || h.Holding? ==> h.session < |s.semaphores|)
  {
    match h
    case Holding(k) => s.current != Some(k)
    case Waiting(k) => s.current != Some(k) && s.semaphores[k] > 0
    case _ => false
  }

  predicate NoneLeftOver(s: State)
    requires Shaped(s)
  {
    forall i :: 0 <= i < |s.handlers| ==> !LeftOver(s, s.handlers[i])
  }

  lemma UndisturbedStep(max: nat, s: State, e: Input)
    requires Shaped(s) && s.current.Some? && s.strays[s.current.value] == 0 && NoneLeftOver(s)
    requires !e.StartCall? && !e.StopEnd?
    ensures var r := Step(max, s, e);
            Shaped(r) && r.current == s.current && r.strays[s.current.value] == 0 && NoneLeftOver(r)
  {
    if !e.MessageArrives? && !e.StopWait? && e.i < |s.handlers| {
      assert !LeftOver(s, s.handlers[e.i]);
    }
  }

  lemma {:induction false} SessionUndisturbed(max: nat, s: State, tape: seq<Input>)
    requires Shaped(s) && s.current.Some? && s.strays[s.current.value] == 0 && NoneLeftOver(s) && WithinSession(tape)
    ensures var r := After(max, s, tape);
            r.current == s.current && r.strays[s.current.value] == 0 && NoneLeftOver(r)
  {
    if tape != [] {
      hide Step, NoneLeftOver;
      SessionUndisturbed(max, s, tape[..|tape| - 1]);
      UndisturbedStep(max, After(max, s, tape[..|tape| - 1]), tape[|tape| - 1]);
    }
  }

  lemma {:induction false} LawAlong(max: nat, s: State, tape: seq<Input>)
    requires Shaped(s) && Lawful(max, s)
    ensures Lawful(max, After(max, s, tape))
  {
    if tape != [] {
      LawAlong(max, s, tape[..|tape| - 1]);
      LawKept(max, After(max, s, tape[..|tape| - 1]), tape[|tape| - 1]);
    }
  }

  lemma Disturbs(max: nat, s: State, i: nat) returns (tape: seq<Input>)
    requires Shaped(s) && Lawful(max, s) && s.current.Some? && s.strays[s.current.value] == 0
    requires i < |s.handlers| && LeftOver(s, s.handlers[i])
    ensures WithinSession(tape) && !Conserved(max, After(max, s, tape))
  {
    assert forall e: Input :: [e][..0] == [];
    if s.handlers[i].Holding? {
      tape := [Finish(i)];
      assert After(max, s, tape) == Step(max, s, Finish(i));
    } else {
      tape := [Acquire(i), Finish(i)];
      var held := Step(max, s, Acquire(i));
      StepShaped(max, s, Acquire(i));
      assert tape[..1] == [Acquire(i)];
      assert After(max, s, [Acquire(i)]) == held;
      assert After(max, s, tape) == Step(max, held, Finish(i));
    }
    LawAlong(max, s, tape);
  }

  /**
   A session keeps to its limit from its start on, through any cancellations, exactly when at that start
   no handler of an earlier session holds a permit or can still get one.
   */
  lemma SessionConservedIff(max: nat, s: State)
    requires Shaped(s) && Lawful(max, s) && s.awaited.None?
    ensures Shaped(Step(max, s, StartCall))
    ensures (forall tape | WithinSession(tape) :: Conserved(max, After(max, Step(max, s, StartCall), tape)))
       <==> NoneLeftOver(s.(current := None))
  {
    var t := Step(max, s, StartCall);
    LawKept(max, s, StartCall);
    assert NoneLeftOver(t) <==> NoneLeftOver(s.(current := None)) by {
      assert forall i :: 0 <= i < |s.handlers| ==> (LeftOver(t, t.handlers[i]) <==> LeftOver(s.(current := None), s.handlers[i]));
    }
    if NoneLeftOver(t) {
      forall tape | WithinSession(tape)
        ensures Conserved(max, After(max, t, tape))
      {
        SessionUndisturbed(max, t, tape);
        LawAlong(max, t, tape);
      }
    } else {
      var i :| 0 <= i < |t.handlers| && LeftOver(t, t.handlers[i]);
      var tape := Disturbs(max, t, i);
    }
  }

  // ---------------------------------------------------------------- orderly runs

  /** A start follows a stop, if anything, and no message comes while a stop waits. */
  predicate OrderlyInput(s: State, e: Input) {
    && (e.StartCall? ==> s.current.None?)
    && (e.MessageArrives? ==> s.current.Some? && s.awaited.None?)
  }

  predicate OrderlyRun(max: nat, tape: seq<Input>) {
    tape != [] ==>
      var front := tape[..|tape| - 1];
      OrderlyRun(max, front) && OrderlyInput(After(max, Init(), front), tape[|tape| - 1])
  }

  /** Every handler there is belongs to the current session, is in flight, and if a stop waits, is waited for. */
  ghost predicate OrderlyState(s: State) {
    && s.tracked <= |s.handlers|
    && (s.current.Some? ==> s.current.value < |s.strays| && s.strays[s.current.value] == 0)
    && (forall i :: 0 <= i < |s.handlers| && !s.handlers[i].Gone? ==>
          && s.current.Some? && s.tracked <= i
          && (s.awaited.Some? ==> i in s.awaited.value)
          && (s.handlers[i].Waiting? || s.handlers[i].Holding? ==> s.handlers[i].session == s.current.value))
  }

  lemma OrderlyStep(max: nat, s: State, e: Input)
    requires Shaped(s) && OrderlyState(s) && OrderlyInput(s, e)
    ensures OrderlyState(Step(max, s, e))
  {
  }

  lemma {:induction false} OrderlyAlong(max: nat, tape: seq<Input>)
    requires OrderlyRun(max, tape)
    ensures OrderlyState(After(max, Init(), tape))
  {
    if tape != [] {
      hide Step, OrderlyInput, OrderlyState;
      OrderlyAlong(max, tape[..|tape| - 1]);
      OrderlyStep(max, After(max, Init(), tape[..|tape| - 1]), tape[|tape| - 1]);
    } else {
      assert OrderlyState(Init());
    }
  }

  /**
   Over any number of sessions the limit is kept exactly, with every cancellation there may be, as long
   as no message comes while a stop waits and no start replaces a semaphore in use.
   */
  lemma OrderlyConserved(max: nat, tape: seq<Input>)
    requires OrderlyRun(max, tape)
    ensures Conserved(max, After(max, Init(), tape))
    ensures var s := After(max, Init(), tape); s.current.None? ==> forall i :: 0 <= i < |s.handlers| ==> s.handlers[i].Gone?
  {
    OrderlyAlong(max, tape);
    PermitLaw(max, tape);
  }

  // ---------------------------------------------------------------- the listener

  /** The listener's semaphore and its handlers; a dropped semaphore is kept for those that still wait on it. */
  class AsyncListener {
    const maxConcurrency: nat
    var semaphore: Option<nat>
    var permits: seq<nat>
    var handlers: seq<Handler>
    var tracked: nat
    var awaited: Option<set<nat>>
    ghost var strays: seq<nat>
    ghost var losses: seq<nat>

    ghost function View(): State
      reads this
    {
      State(semaphore, permits, handlers, tracked, awaited, strays, losses)
    }

    constructor (maxConcurrency: Option<int>, prefetchCount: int)
      ensures View() == Init() && this.maxConcurrency == MaxConcurrency(maxConcurrency, prefetchCount)
    {
      this.maxConcurrency := MaxConcurrency(maxConcurrency, prefetchCount);
      semaphore, permits, handlers, tracked, awaited, strays, losses := None, [], [], 0, None, [], [];
    }

    method Start()
      requires Shaped(View()) && awaited.None?
      modifies this
      ensures View() == Step(maxConcurrency, old(View()), StartCall)
    {
      semaphore := Some(|permits|);
      permits := permits + [maxConcurrency];
      strays, losses := strays + [0], losses + [0];
    }

    /** `stop` up to its wait: a snapshot of what is in flight. */
    method StopBegins()
      requires Shaped(View()) && awaited.None?
      modifies this
      ensures View() == Step(maxConcurrency, old(View()), StopWait)
    {
      awaited := Some(InFlight(handlers, tracked));
    }

    /** The `finally` of `stop`, once the wait is over. */
    method StopEnds()
      requires Shaped(View()) && WaitOver(View())
      modifies this
      ensures View() == Step(maxConcurrency, old(View()), StopEnd)
    {
      awaited, tracked, semaphore := None, |handlers|, None;
    }

    method OnMessage() returns (i: nat)
      requires Shaped(View())
      modifies this
      ensures View() == Step(maxConcurrency, old(View()), MessageArrives) && i == |old(handlers)|
    {
      i := |handlers|;
      handlers := handlers + [Created];
    }

    /** The first stretch of `_run_handler`: without a semaphore its assertion ends the task. */
    method BeginHandler(i: nat)
      requires Shaped(View()) && i < |handlers| && handlers[i].Created?
      modifies this
      ensures View() == Step(maxConcurrency, old(View()), Begin(i))
    {
      handlers := handlers[i := if semaphore.Some? then Waiting(semaphore.value) else Gone];
    }

    method AcquirePermit(i: nat) returns (acquired: bool)
      requires Shaped(View()) && i < |handlers| && handlers[i].Waiting?
      modifies this
      ensures View() == Step(maxConcurrency, old(View()), Acquire(i))
      ensures acquired <==> old(permits)[old(handlers)[i].session] > 0
    {
      var k := handlers[i].session;
      acquired := permits[k] > 0;
      if acquired {
        permits := permits[k := permits[k] - 1];
        handlers := handlers[i := Holding(k)];
      }
    }

    /** The `finally` of `_run_handler`, however the handler ended; without a semaphore the release fails and is dropped. */
    method EndHandler(i: nat, cancelled: bool)
      requires Shaped(View()) && i < |handlers| && handlers[i].Holding?
      modifies this
      ensures View() == Step(maxConcurrency, old(View()), if cancelled then Cancel(i) else Finish(i))
    {
      ghost var k := handlers[i].session;
      if semaphore.Some? {
        var c := semaphore.value;
        permits := permits[c := permits[c] + 1];
        if c != k {
          strays := strays[c := strays[c] + 1];
        }
      }
      if semaphore != Some(k) {
        losses := losses[k := losses[k] + 1];
      }
      handlers := handlers[i := Gone];
    }

    /** A cancellation before the permit: there is nothing to give back. */
    method CancelEarly(i: nat)
      requires Shaped(View()) && i < |handlers| && (handlers[i].Created? || handlers[i].Waiting?)
      modifies this
      ensures View() == Step(maxConcurrency, old(View()), Cancel(i))
      ensures permits == old(permits)
    {
      handlers := handlers[i := Gone];
    }
  }

  lemma Extend(tape: seq<Input>, s: State, e: Input) returns (more: seq<Input>)
    requires Shaped(s) && After(1, Init(), tape) == s
    ensures Shaped(Step(1, s, e)) && After(1, Init(), more) == Step(1, s, e)
  {
    hide Step;
    more := tape + [e];
    assert more[..|more| - 1] == tape;
    StepShaped(1, s, e);
  }

  lemma OneHolds() returns (tape: seq<Input>)
    ensures After(1, Init(), tape) == State(Some(0), [0], [Holding(0)], 0, None, [0], [0])
  {
    assert After(1, Init(), []) == Init();
    hide After;
    tape := Extend([], Init(), StartCall);
    tape := Extend(tape, State(Some(0), [1], [], 0, None, [0], [0]), MessageArrives);
    tape := Extend(tape, State(Some(0), [1], [Created], 0, None, [0], [0]), Begin(0));
    tape := Extend(tape, State(Some(0), [1], [Waiting(0)], 0, None, [0], [0]), Acquire(0));
  }

  /** A handler of the limit-1 listener holds the permit as a stop begins to wait for it; another comes then. */
  lemma LateArrival() returns (tape: seq<Input>)
    ensures After(1, Init(), tape) == State(Some(0), [0], [Holding(0), Waiting(0)], 0, Some({0}), [0], [0])
  {
    hide After;
    tape := OneHolds();
    var s := State(Some(0), [0], [Holding(0)], 0, None, [0], [0]);
    assert InFlight(s.handlers, 0) == {0};
    tape := Extend(tape, s, StopWait);
    tape := Extend(tape, State(Some(0), [0], [Holding(0)], 0, Some({0}), [0], [0]), MessageArrives);
    tape := Extend(tape, State(Some(0), [0], [Holding(0), Created], 0, Some({0}), [0], [0]), Begin(1));
  }

  /** The stop ends with the handler it waited for, and the late one keeps the permit into the next session. */
  lemma Outlives() returns (tape: seq<Input>)
    ensures After(1, Init(), tape) == State(Some(1), [0, 1], [Gone, Holding(0)], 2, None, [0, 0], [0, 0])
  {
    hide After;
    tape := LateArrival();
    tape := Extend(tape, State(Some(0), [0], [Holding(0), Waiting(0)], 0, Some({0}), [0], [0]), Finish(0));
    tape := Extend(tape, State(Some(0), [1], [Gone, Waiting(0)], 0, Some({0}), [0], [0]), Acquire(1));
    tape := Extend(tape, State(Some(0), [0], [Gone, Holding(0)], 0, Some({0}), [0], [0]), StopEnd);
    tape := Extend(tape, State(None, [0], [Gone, Holding(0)], 2, None, [0], [0]), StartCall);
  }

  lemma OneStrays() returns (tape: seq<Input>)
    ensures After(1, Init(), tape) == State(Some(1), [0, 2], [Gone, Gone, Created], 2, None, [0, 1], [1, 0])
  {
    hide After;
    tape := Outlives();
    tape := Extend(tape, State(Some(1), [0, 1], [Gone, Holding(0)], 2, None, [0, 0], [0, 0]), Finish(1));
    tape := Extend(tape, State(Some(1), [0, 2], [Gone, Gone], 2, None, [0, 1], [1, 0]), MessageArrives);
  }

  lemma TwoArrive() returns (tape: seq<Input>)
    ensures After(1, Init(), tape)
         == State(Some(1), [0, 2], [Gone, Gone, Waiting(1), Waiting(1)], 2, None, [0, 1], [1, 0])
  {
    hide After;
    tape := OneStrays();
    tape := Extend(tape, State(Some(1), [0, 2], [Gone, Gone, Created], 2, None, [0, 1], [1, 0]), MessageArrives);
    tape := Extend(tape, State(Some(1), [0, 2], [Gone, Gone, Created, Created], 2, None, [0, 1], [1, 0]), Begin(2));
    tape := Extend(tape, State(Some(1), [0, 2], [Gone, Gone, Waiting(1), Created], 2, None, [0, 1], [1, 0]), Begin(3));
  }

  lemma OneRuns() returns (tape: seq<Input>)
    ensures After(1, Init(), tape)
         == State(Some(1), [0, 1], [Gone, Gone, Holding(1), Waiting(1)], 2, None, [0, 1], [1, 0])
  {
    hide After;
    tape := TwoArrive();
    tape := Extend(tape, State(Some(1), [0, 2], [Gone, Gone, Waiting(1), Waiting(1)], 2, None, [0, 1], [1, 0]), Acquire(2));
  }

  lemma TwoRun() returns (tape: seq<Input>)
    ensures After(1, Init(), tape)
         == State(Some(1), [0, 0], [Gone, Gone, Holding(1), Holding(1)], 2, None, [0, 1], [1, 0])
  {
    hide After;
    tape := OneRuns();
    tape := Extend(tape, State(Some(1), [0, 1], [Gone, Gone, Holding(1), Waiting(1)], 2, None, [0, 1], [1, 0]), Acquire(3));
  }

  /**
   A message that comes while a stop waits is handled past the end of that stop, and its permit goes to
   the next session: there the limit of 1 lets two handlers run at once.
   */
  lemma LimitCanBeExceeded() returns (tape: seq<Input>)
    ensures var s := After(1, Init(), tape);
            s.current.Some? && HoldersOf(s.handlers, s.current.value) == 2
  {
    tape := TwoRun();
    hide After, HoldersOf;
    PermitLaw(1, tape);
  }
}
