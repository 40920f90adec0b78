/**
 The batching of publisher confirms in `AsyncSender`.

 Between two awaits a task runs alone: a publish appends its future and, when the list is full, empties
 it into a gather in one go; a flush does the same for what there is.  Inputs are those stretches, in any
 order and from any task.
 */
module ConfirmBatching {

  /** Who awaits a gather: the publish attempt that filled the batch, named by its own future, or a flush. */
  datatype Waiter = FilledBy(attempt: nat) | PeriodicFlush | StopFlush

  datatype Gather = Gather(futures: seq<nat>, waiter: Waiter)

  /** Futures are numbered as they are created, one for each publish attempt. */
  datatype State = State(pending: seq<nat>, gathers: seq<Gather>, created: nat)

  datatype Input = Publish | Flush | Stop

  function Init(): State {
    State([], [], 0)
  }

  function HandOver(s: State, waiter: Waiter): State {
    if s.pending == [] then s else s.(pending := [], gathers := s.gathers + [Gather(s.pending, waiter)])
  }

  function PublishStep(size: nat, s: State): State {
    var added := s.(pending := s.pending + [s.created], created := s.created + 1);
    if |added.pending| >= size then HandOver(added, FilledBy(s.created)) else added
  }

  function Step(size: nat, s: State, e: Input): State {
    match e
    case Publish => PublishStep(size, s)
    case Flush => HandOver(s, PeriodicFlush)
    case Stop => HandOver(s, StopFlush)
  }

  function After(size: nat, s: State, tape: seq<Input>): State {
    if tape == [] then s else Step(size, After(size, s, tape[..|tape| - 1]), tape[|tape| - 1])
  }

  /** The sender's list of pending confirms, with the gathers its tasks await. */
  class Batcher {
    const size: nat
    var pendingConfirms: seq<nat>
    var created: nat
    ghost var gathers: seq<Gather>

    ghost function View(): State
      reads this
    {
      State(pendingConfirms, gathers, created)
    }

    /** `__init__` with batching on: the size is positive. */
    constructor (size: nat)
      ensures this.size == size && View() == Init()
    {
      this.size := size;
      pendingConfirms, gathers, created := [], [], 0;
    }

    /** `_flush_confirms` up to its await: takes what is pending and leaves a new list. */
    method FlushConfirms(ghost waiter: Waiter) returns (awaited: seq<nat>)
      modifies this
      ensures View() == HandOver(old(View()), waiter)
      ensures awaited == old(pendingConfirms)
    {
      if |pendingConfirms| == 0 {
        return [];
      }
      awaited := pendingConfirms;
      pendingConfirms := [];
      gathers := gathers + [Gather(awaited, waiter)];
    }

    /** The batched part of `_do_publish` up to its await: appends the future, and flushes a full list. */
    method Enqueue() returns (future: nat, awaited: seq<nat>)
      modifies this
      ensures View() == Step(size, old(View()), Publish) && future == old(created)
      ensures awaited == if |old(pendingConfirms)| + 1 >= size then old(pendingConfirms) + [future] else []
    {
      future := created;
      created := created + 1;
      pendingConfirms := pendingConfirms + [future];
      awaited := [];
      if |pendingConfirms| >= size {
        awaited := FlushConfirms(FilledBy(future));
      }
    }
  }

  // ---------------------------------------------------------------- every interleaving

  function Flatten(gathers: seq<Gather>): seq<nat> {
    if gathers == [] then [] else Flatten(gathers[..|gathers| - 1]) + gathers[|gathers| - 1].futures
  }

  function Upto(n: nat): (r: seq<nat>)
    ensures |r| == n && forall i :: 0 <= i < n ==> r[i] == i
  {
    seq(n, i => i)
  }

  ghost predicate GatherOk(size: nat, g: Gather) {
    && 1 <= |g.futures| <= size
    && (g.waiter.FilledBy? ==> |g.futures| == size && g.futures[size - 1] == g.waiter.attempt)
    && (!g.waiter.FilledBy? ==> |g.futures| < size)
  }

  ghost predicate Inv(size: nat, s: State) {
    && |s.pending| < size
    && Flatten(s.gathers) + s.pending == Upto(s.created)
    && forall k :: 0 <= k < |s.gathers| ==> GatherOk(size, s.gathers[k])
  }

  lemma HandOverFlattens(s: State, waiter: Waiter)
    ensures Flatten(HandOver(s, waiter).gathers) + HandOver(s, waiter).pending == Flatten(s.gathers) + s.pending
  {
    if s.pending != [] {
      var g := Gather(s.pending, waiter);
      assert (s.gathers + [g])[..|s.gathers|] == s.gathers;
    }
  }

  lemma InvKept(size: nat, s: State, e: Input)
    requires size >= 1 && Inv(size, s)
    ensures Inv(size, Step(size, s, e))
  {
    hide Inv, PublishStep, HandOver;
    match e
    case Publish => PublishKeeps(size, s);
    case Flush => FlushKeeps(size, s, PeriodicFlush);
    case Stop => FlushKeeps(size, s, StopFlush);
  }

  lemma FlushKeeps(size: nat, s: State, waiter: Waiter)
    requires size >= 1 && Inv(size, s) && !waiter.FilledBy?
    ensures Inv(size, HandOver(s, waiter))
  {
    hide Flatten, Upto;
    HandOverFlattens(s, waiter);
  }

  lemma PublishKeeps(size: nat, s: State)
    requires size >= 1 && Inv(size, s)
    ensures Inv(size, PublishStep(size, s))
  {
    var added := s.(pending := s.pending + [s.created], created := s.created + 1);
    AddedInOrder(Flatten(s.gathers), s.pending, s.created);
    hide Flatten, Upto;
    AddedLast(size, s);
    HandOverFlattens(added, FilledBy(s.created));
  }

  lemma AddedInOrder(given: seq<nat>, pending: seq<nat>, created: nat)
    requires given + pending == Upto(created)
    ensures given + (pending + [created]) == Upto(created + 1)
  {
    assert given + (pending + [created]) == given + pending + [created];
  }

  /** A batch that fills up ends with the future that filled it. */
  lemma AddedLast(size: nat, s: State)
    requires size >= 1 && |s.pending| < size
    ensures |s.pending| + 1 >= size ==> GatherOk(size, Gather(s.pending + [s.created], FilledBy(s.created)))
  {
  }

  /**
   At every suspension point of every interleaving fewer confirms are pending than the batch size, and
   the futures handed to gathers, in order, followed by the pending ones, are all futures ever created, in
   order: each is pending or in exactly one gather, and no gather holds more than a batch.
   */
  lemma {:induction false} BatchesPartitionFutures(size: nat, tape: seq<Input>)
    requires size >= 1
    ensures Inv(size, After(size, Init(), tape))
  {
    if tape != [] {
      BatchesPartitionFutures(size, tape[..|tape| - 1]);
      InvKept(size, After(size, Init(), tape[..|tape| - 1]), tape[|tape| - 1]);
    } else {
      assert Flatten([]) + [] == Upto(0);
    }
  }

  /** A flush, by the flusher or a stop, takes all there is into one gather, and is no batch-filling attempt. */
  lemma FlushTakesAll(size: nat, s: State, e: Input)
    requires e.Flush? || e.Stop?
    ensures var r := Step(size, s, e);
            && r.pending == [] && r.created == s.created
            && (s.pending == [] ==> r.gathers == s.gathers)
            && (s.pending != [] ==>
                  && |r.gathers| == |s.gathers| + 1 && r.gathers[..|s.gathers|] == s.gathers
                  && r.gathers[|s.gathers|].futures == s.pending && !r.gathers[|s.gathers|].waiter.FilledBy?)
  {
  }

  /** A publish makes one future, pending or, with those before it, in the gather it fills. */
  lemma PublishExact(size: nat, s: State)
    ensures var r := Step(size, s, Publish);
            && r.created == s.created + 1
            && if |s.pending| + 1 < size then r.pending == s.pending + [s.created] && r.gathers == s.gathers
               else r.pending == [] && r.gathers == s.gathers + [Gather(s.pending + [s.created], FilledBy(s.created))]
  {
  }

  /** The attempt that created the future awaits the gather that holds it, and so hears of the first failure in it. */
  predicate OwnReport(s: State, future: nat) {
    exists k :: 0 <= k < |s.gathers| && s.gathers[k].waiter == FilledBy(future)
  }

  lemma {:induction false} GathersGrow(size: nat, s: State, tape: seq<Input>, future: nat)
    requires future < s.created
    ensures var r := After(size, s, tape);
            r.created >= s.created && (OwnReport(r, future) <==> OwnReport(s, future))
  {
    if tape != [] {
      var front := After(size, s, tape[..|tape| - 1]);
      GathersGrow(size, s, tape[..|tape| - 1], future);
      var r := Step(size, front, tape[|tape| - 1]);
      assert r.gathers == front.gathers || r.gathers[..|front.gathers|] == front.gathers;
      if OwnReport(front, future) {
        var k :| 0 <= k < |front.gathers| && front.gathers[k].waiter == FilledBy(future);
        assert r.gathers[k] == front.gathers[k];
      }
    }
  }

  /**
   An attempt awaits the gather that holds its own future, in whatever comes after, exactly when it filled
   the batch; what that gather raises is the first failure among its futures, which need not be its own.
   Any other attempt's failed confirm is raised, if at all, in another task's send or flush.
   */
  lemma OwnReportIffFilled(size: nat, before: seq<Input>, after: seq<Input>)
    requires size >= 1
    ensures var s := After(size, Init(), before);
            OwnReport(After(size, Step(size, s, Publish), after), s.created) <==> |s.pending| + 1 >= size
  {
    var s := After(size, Init(), before);
    BatchesPartitionFutures(size, before);
    var t := Step(size, s, Publish);
    GathersGrow(size, t, after, s.created);
    AttemptsAreOld(size, before);
    if |s.pending| + 1 >= size {
      assert t.gathers[|s.gathers|].waiter == FilledBy(s.created);
    } else {
      assert t.gathers == s.gathers;
    }
  }

  ghost predicate AttemptsOld(s: State) {
    forall k :: 0 <= k < |s.gathers| && s.gathers[k].waiter.FilledBy? ==> s.gathers[k].waiter.attempt < s.created
  }

  lemma AttemptsStayOld(size: nat, s: State, e: Input)
    requires AttemptsOld(s)
    ensures AttemptsOld(Step(size, s, e))
  {
  }

  lemma {:induction false} AttemptsAreOld(size: nat, tape: seq<Input>)
    ensures AttemptsOld(After(size, Init(), tape))
  {
    if tape != [] {
      AttemptsAreOld(size, tape[..|tape| - 1]);
      AttemptsStayOld(size, After(size, Init(), tape[..|tape| - 1]), tape[|tape| - 1]);
    }
  }
}
