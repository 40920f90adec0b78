/**
 What a consumer does with one delivery: the three handlers of `sync_adapter.py` and
 `async_adapter.py`, as programs of broker calls any of which may raise.
 */
module Handlers {
  import opened Wrappers
  import opened DeadLettering

  /** `Offload` is `_offload_wrapper`, `Direct` is `_internal_wrapper`, `Async` is `_run_handler`. */
  datatype Mode = Offload | Direct | Async

  datatype Message = Message(body: string, headers: Headers)

  /** A broker call; an acknowledgement remembers whether it follows the publish of a poison copy. */
  datatype Op = Ack(poison: bool) | Publish(queue: string, message: Message) | Nack(requeue: bool)

  datatype Next = Do(op: Op) | Finish

  datatype Context = Context(mode: Mode, autoAck: bool, cfg: Config, message: Message)

  /** A failing delivery of this context goes to the dead-letter queue. */
  predicate IsPoison(x: Context) {
    HasQueue(x.cfg) && Attempt(x.message.headers) >= x.cfg.maxRetries
  }

  function NackOf(x: Context): Next {
    Do(Nack(x.cfg.onError.Requeue?))
  }

  function FailurePath(x: Context): Next {
    if IsPoison(x) then Do(Publish(x.cfg.deadLetterQueue.value, x.message)) else NackOf(x)
  }

  /** The first call after the callback returned or raised. */
  function FirstOp(x: Context, raised: bool): Next {
    if x.autoAck then Finish
    else if !raised then Do(Ack(false))
    else if x.mode.Direct? then Do(Nack(true))
    else FailurePath(x)
  }

  /** The call after `op` took effect or raised. */
  function NextOp(x: Context, op: Op, ok: bool): Next {
    match op
    case Ack(false) =>
      if ok || x.mode.Offload? then Finish else if x.mode.Direct? then Do(Nack(true)) else FailurePath(x)
    case Publish(_, _) => if ok then Do(Ack(true)) else if x.mode.Async? then NackOf(x) else Finish
    case Ack(true) => if ok || !x.mode.Async? then Finish else NackOf(x)
    case Nack(_) => Finish
  }

  /** Which calls the broker lets through, for one delivery. */
  datatype Answers = Answers(ack: bool, publish: bool, poisonAck: bool, nack: bool) {
    function For(op: Op): bool {
      match op
      case Ack(p) => if p then poisonAck else ack
      case Publish(_, _) => publish
      case Nack(_) => nack
    }
  }

  datatype Done = Done(op: Op, ok: bool)

  function Rank(next: Next): nat {
    match next
    case Finish => 0
    case Do(Nack(_)) => 1
    case Do(Ack(true)) => 2
    case Do(Publish(_, _)) => 3
    case Do(Ack(false)) => 4
  }

  /** The calls a delivery leads to. */
  function Play(x: Context, next: Next, answers: Answers): seq<Done>
    decreases Rank(next)
  {
    match next
    case Finish => []
    case Do(op) => [Done(op, answers.For(op))] + Play(x, NextOp(x, op, answers.For(op)), answers)
  }

  function Handle(x: Context, raised: bool, answers: Answers): seq<Done> {
    Play(x, FirstOp(x, raised), answers)
  }

  /** Each call of a play, and what follows it. */
  lemma PlayUnfolds(x: Context, answers: Answers)
    ensures Play(x, Finish, answers) == []
    ensures forall op :: Play(x, Do(op), answers)
              == [Done(op, answers.For(op))] + Play(x, NextOp(x, op, answers.For(op)), answers)
  {
  }

  /** The direct program written out. */
  lemma DirectPlays(x: Context, raised: bool, answers: Answers)
    requires x.mode.Direct?
    ensures Handle(x, raised, answers) ==
            if x.autoAck then []
            else if raised then [Done(Nack(true), answers.nack)]
            else if answers.ack then [Done(Ack(false), true)]
            else [Done(Ack(false), false), Done(Nack(true), answers.nack)]
  {
    PlayUnfolds(x, answers);
    hide Play;
  }

  /** The offload handler's failure program written out. */
  lemma OffloadFailurePlays(x: Context, answers: Answers)
    requires x.mode.Offload?
    ensures Play(x, FailurePath(x), answers) ==
            if !IsPoison(x) then [Done(Nack(x.cfg.onError.Requeue?), answers.nack)]
            else
              var copy := Publish(x.cfg.deadLetterQueue.value, x.message);
              if answers.publish then [Done(copy, true), Done(Ack(true), answers.poisonAck)] else [Done(copy, false)]
  {
    PlayUnfolds(x, answers);
    hide Play;
  }

  // ---------------------------------------------------------------- reading a log of calls

  predicate Settles(d: Done) {
    d.ok && !d.op.Publish?
  }

  function Settlements(log: seq<Done>): nat {
    if log == [] then 0 else Settlements(log[..|log| - 1]) + (if Settles(log[|log| - 1]) then 1 else 0)
  }

  function Acks(log: seq<Done>): nat {
    if log == [] then 0
    else Acks(log[..|log| - 1]) + (if Settles(log[|log| - 1]) && log[|log| - 1].op.Ack? then 1 else 0)
  }

  function Nacks(log: seq<Done>): nat {
    if log == [] then 0
    else Nacks(log[..|log| - 1]) + (if Settles(log[|log| - 1]) && log[|log| - 1].op.Nack? then 1 else 0)
  }

  function Copies(log: seq<Done>): nat {
    if log == [] then 0
    else Copies(log[..|log| - 1]) + (if log[|log| - 1].ok && log[|log| - 1].op.Publish? then 1 else 0)
  }

  // ---------------------------------------------------------------- the handlers

  /** A channel that lets each kind of call through or raises, and remembers the calls made on it. */
  class Channel {
    const answers: Answers
    var log: seq<Done>

    constructor (answers: Answers)
      ensures this.answers == answers && log == []
    {
      this.answers := answers;
      log := [];
    }

    method Call(op: Op) returns (raised: bool)
      modifies this
      ensures raised == !answers.For(op)
      ensures log == old(log) + [Done(op, answers.For(op))]
      ensures Acks(log) == Acks(old(log)) + (if !raised && op.Ack? then 1 else 0)
      ensures Nacks(log) == Nacks(old(log)) + (if !raised && op.Nack? then 1 else 0)
    {
      raised := !answers.For(op);
      log := log + [Done(op, !raised)];
      assert log[..|log| - 1] == old(log);
    }
  }

  /** What `_offload_wrapper` has done with a delivery when it returns, or that it waits for a permit. */
  datatype Offloaded = Ignored | Blocked | Submitted | FellBack

  /** A sync listener: its counters, and the free permits of its offload semaphore. */
  class Listener {
    const x: Context
    var received: nat
    var handlerExceptions: nat
    var acked: nat
    var nacked: nat
    var permits: nat

    constructor (x: Context, maxInFlight: int)
      ensures this.x == x && permits >= 1 && (maxInFlight >= 1 ==> permits == maxInFlight)
      ensures received == handlerExceptions == acked == nacked == 0
    {
      this.x := x;
      received, handlerExceptions, acked, nacked := 0, 0, 0, 0;
      permits := if maxInFlight < 1 then 1 else maxInFlight;
    }

    /**
     `_internal_wrapper`: acks after the callback returned, and after anything that raised nacks with a
     requeue; when that nack raises too, the exception leaves the wrapper.
     */
    method InternalWrapper(ch: Channel, stopMe: bool, callbackRaises: bool) returns (escapes: bool)
      modifies this, ch
      ensures ch.log == old(ch.log) + if stopMe then [] else Handle(x.(mode := Direct), callbackRaises, ch.answers)
      ensures received == old(received) + if stopMe then 0 else 1
      ensures acked - old(acked) == Acks(ch.log) - Acks(old(ch.log))
      ensures nacked - old(nacked) == Nacks(ch.log) - Nacks(old(ch.log))
      ensures escapes <==> |ch.log| > |old(ch.log)| && ch.log[|ch.log| - 1] == Done(Nack(true), false)
      ensures permits == old(permits) && handlerExceptions == old(handlerExceptions)
    {
      DirectPlays(x.(mode := Direct), callbackRaises, ch.answers);
      hide Handle, Acks, Nacks;
      escapes := false;
      if stopMe {
        return;
      }
      received := received + 1;
      var raised := callbackRaises;
      if !raised && !x.autoAck {
        raised := ch.Call(Ack(false));
        if !raised {
          acked := acked + 1;
        }
      }
      if raised && !x.autoAck {
        escapes := ch.Call(Nack(true));
        if !escapes {
          nacked := nacked + 1;
        }
      }
    }

    /** `_handle_fail`: poison goes to the dead-letter queue, then is acked; the rest is nacked; a raise ends it. */
    method HandleFail(ch: Channel)
      requires x.mode.Offload? && !x.autoAck
      modifies this`acked, this`nacked, ch
      ensures ch.log == old(ch.log) + Play(x, FailurePath(x), ch.answers)
      ensures acked - old(acked) == Acks(ch.log) - Acks(old(ch.log))
      ensures nacked - old(nacked) == Nacks(ch.log) - Nacks(old(ch.log))
    {
      OffloadFailurePlays(x, ch.answers);
      hide Play, FailurePath, Acks, Nacks, Attempt;
      var raised;
      var attempt := RetryAttemptFromHeaders(x.message.headers);
      if HasQueue(x.cfg) && attempt >= x.cfg.maxRetries {
        raised := ch.Call(Publish(x.cfg.deadLetterQueue.value, x.message));
        if raised {
          return;
        }
        raised := ch.Call(Ack(true));
        if raised {
          return;
        }
        acked := acked + 1;
        return;
      }
      if x.cfg.onError == DeadLetter {
        raised := ch.Call(Nack(false));
      } else {
        raised := ch.Call(Nack(true));
      }
      if raised {
        return;
      }
      nacked := nacked + 1;
    }

    /**
     `_on_done`, with the settlement it schedules run at once: where it runs changes neither the calls
     nor the channel they go to.  The permit comes back on every path.
     */
    method OnDone(ch: Channel, callbackRaised: bool)
      requires x.mode.Offload?
      modifies this, ch
      ensures ch.log == old(ch.log) + Handle(x, callbackRaised, ch.answers)
      ensures acked - old(acked) == Acks(ch.log) - Acks(old(ch.log))
      ensures nacked - old(nacked) == Nacks(ch.log) - Nacks(old(ch.log))
      ensures handlerExceptions == old(handlerExceptions) + if callbackRaised then 1 else 0
      ensures permits == old(permits) + 1 && received == old(received)
    {
      if callbackRaised {
        handlerExceptions := handlerExceptions + 1;
      }
      if !x.autoAck {
        if callbackRaised {
          HandleFail(ch);
        } else {
          var raised := ch.Call(Ack(false));
          if !raised {
            acked := acked + 1;
          }
        }
      }
      permits := permits + 1;
    }

    /**
     `_offload_wrapper` up to its permit: a delivery is ignored while stopping, else counted; without a
     free permit the thread waits there, and `HandOver` is what it does on being woken.
     */
    method OffloadWrapper(ch: Channel, stopMe: bool, submitRaises: bool, stopsMeanwhile: bool, callbackRaises: bool)
        returns (outcome: Offloaded)
      requires x.mode.Offload?
      modifies this, ch
      ensures outcome.Ignored? <==> stopMe
      ensures outcome.Blocked? <==> !stopMe && old(permits) == 0
      ensures outcome.Submitted? <==> !stopMe && old(permits) > 0 && !submitRaises
      ensures permits == old(permits) - if outcome.Submitted? then 1 else 0
      ensures !outcome.FellBack? ==> ch.log == old(ch.log)
      ensures outcome.FellBack? ==>
                ch.log == old(ch.log) + if stopsMeanwhile then [] else Handle(x.(mode := Direct), callbackRaises, ch.answers)
      ensures received == old(received) + if stopMe then 0 else if outcome.FellBack? && !stopsMeanwhile then 2 else 1
      ensures acked - old(acked) == Acks(ch.log) - Acks(old(ch.log))
      ensures nacked - old(nacked) == Nacks(ch.log) - Nacks(old(ch.log))
      ensures handlerExceptions == old(handlerExceptions)
    {
      if stopMe {
        return Ignored;
      }
      received := received + 1;
      if permits == 0 {
        return Blocked;
      }
      outcome := HandOver(ch, submitRaises, stopsMeanwhile, callbackRaises);
    }

    /**
     The rest, once the semaphore lets the thread through: the permit is taken and kept by the job, or
     given back when the executor refuses it and the delivery is handled directly, which looks at the stop
     flag again and counts the delivery as received twice.
     */
    method HandOver(ch: Channel, submitRaises: bool, stopsMeanwhile: bool, callbackRaises: bool)
        returns (outcome: Offloaded)
      requires x.mode.Offload? && permits > 0
      modifies this, ch
      ensures outcome == if submitRaises then FellBack else Submitted
      ensures permits == old(permits) - if submitRaises then 0 else 1
      ensures !submitRaises ==> ch.log == old(ch.log)
      ensures submitRaises ==>
                ch.log == old(ch.log) + if stopsMeanwhile then [] else Handle(x.(mode := Direct), callbackRaises, ch.answers)
      ensures received == old(received) + if submitRaises && !stopsMeanwhile then 1 else 0
      ensures acked - old(acked) == Acks(ch.log) - Acks(old(ch.log))
      ensures nacked - old(nacked) == Nacks(ch.log) - Nacks(old(ch.log))
      ensures handlerExceptions == old(handlerExceptions)
    {
      permits := permits - 1;
      if submitRaises {
        permits := permits + 1;
        var _ := InternalWrapper(ch, stopsMeanwhile, callbackRaises);
        return FellBack;
      }
      outcome := Submitted;
    }
  }

  /** The last resort of `_run_handler`: a nack, whose own failure is only logged. */
  method NackLast(x: Context, ch: Channel)
    modifies ch
    ensures ch.log == old(ch.log) + Play(x, NackOf(x), ch.answers)
  {
    if x.cfg.onError == DeadLetter {
      var _ := ch.Call(Nack(false));
    } else {
      var _ := ch.Call(Nack(true));
    }
  }

  /** What `_run_handler` does after anything raised: poison is published and acked, and if either raises, nacked. */
  method FailDelivery(x: Context, ch: Channel)
    requires x.mode.Async?
    modifies ch
    ensures ch.log == old(ch.log) + Play(x, FailurePath(x), ch.answers)
  {
    PlayUnfolds(x, ch.answers);
    hide Play, Acks, Nacks;
    var attempt := RetryAttemptFromHeaders(x.message.headers);
    if HasQueue(x.cfg) && attempt >= x.cfg.maxRetries {
      var raised := ch.Call(Publish(x.cfg.deadLetterQueue.value, x.message));
      if !raised {
        raised := ch.Call(Ack(true));
        if !raised {
          return;
        }
      }
    }
    NackLast(x, ch);
  }

  /** An async listener's `_run_handler`, on a permit it already holds and without cancellation. */
  method RunHandler(x: Context, ch: Channel, callbackRaises: bool)
    requires x.mode.Async?
    modifies ch
    ensures ch.log == old(ch.log) + Handle(x, callbackRaises, ch.answers)
  {
    var raised := callbackRaises;
    if !raised && !x.autoAck {
      raised := ch.Call(Ack(false));
    }
    if raised && !x.autoAck {
      FailDelivery(x, ch);
    }
  }

  // ---------------------------------------------------------------- what a handler guarantees

  lemma {:induction false} CountsCons(d: Done, rest: seq<Done>)
    ensures Settlements([d] + rest) == (if Settles(d) then 1 else 0) + Settlements(rest)
    ensures Acks([d] + rest) == (if Settles(d) && d.op.Ack? then 1 else 0) + Acks(rest)
    ensures Nacks([d] + rest) == (if Settles(d) && d.op.Nack? then 1 else 0) + Nacks(rest)
    ensures Copies([d] + rest) == (if d.ok && d.op.Publish? then 1 else 0) + Copies(rest)
  {
    if rest == [] {
      assert [d] + rest == [d] && [d][..0] == [];
    } else {
      CountsCons(d, rest[..|rest| - 1]);
      assert ([d] + rest)[..|[d] + rest| - 1] == [d] + rest[..|rest| - 1];
    }
  }

  /** What a play from a given call on comes to. */
  lemma {:induction false} PlayOutcome(x: Context, next: Next, answers: Answers)
    ensures var log := Play(x, next, answers);
            && Settlements(log) == Acks(log) + Nacks(log) <= 1
            && (Settlements(log) == 1 <==> log != [] && Settles(log[|log| - 1]))
            && Copies(log) <= 1
            && (next.Finish? || next == Do(Ack(true)) || (next.Do? && next.op.Nack?) ==> Copies(log) == 0)
    decreases Rank(next)
  {
    if next.Do? {
      var ok := answers.For(next.op);
      var rest := Play(x, NextOp(x, next.op, ok), answers);
      PlayOutcome(x, NextOp(x, next.op, ok), answers);
      CountsCons(Done(next.op, ok), rest);
    }
  }

  /** At most one settlement of a delivery is accepted whatever raises, and nothing is called after it. */
  lemma SettledAtMostOnce(x: Context, raised: bool, answers: Answers)
    ensures var log := Handle(x, raised, answers);
            && Settlements(log) == Acks(log) + Nacks(log) <= 1
            && (Settlements(log) == 1 <==> log != [] && Settles(log[|log| - 1]))
            && Copies(log) <= 1
  {
    PlayOutcome(x, FirstOp(x, raised), answers);
  }

  /** The four kinds of call in turn, each counted. */
  lemma PlayCounts(x: Context, answers: Answers)
    ensures var log := Play(x, NackOf(x), answers);
            Acks(log) == 0 && Copies(log) == 0 && Nacks(log) == if answers.nack then 1 else 0
    ensures var log := Play(x, Do(Nack(true)), answers);
            Acks(log) == 0 && Copies(log) == 0 && Nacks(log) == if answers.nack then 1 else 0
    ensures var log := Play(x, Do(Ack(true)), answers);
            && Copies(log) == 0 && Acks(log) == (if answers.poisonAck then 1 else 0)
            && Nacks(log) == if x.mode.Async? && !answers.poisonAck && answers.nack then 1 else 0
  {
    CountsCons(Done(Nack(true), answers.nack), []);
    CountsCons(Done(Nack(x.cfg.onError.Requeue?), answers.nack), []);
    CountsCons(Done(Ack(true), answers.poisonAck), Play(x, NextOp(x, Ack(true), answers.poisonAck), answers));
  }

  lemma FailureCounts(x: Context, answers: Answers)
    requires !x.mode.Direct?
    ensures var log := Play(x, FailurePath(x), answers);
            var copied := IsPoison(x) && answers.publish;
            && Copies(log) == (if copied then 1 else 0)
            && Acks(log) == (if copied && answers.poisonAck then 1 else 0)
            && Nacks(log) == (if answers.nack
                                 && (!IsPoison(x) || (x.mode.Async? && !(answers.publish && answers.poisonAck)))
                              then 1 else 0)
  {
    PlayCounts(x, answers);
    if IsPoison(x) {
      var op := Publish(x.cfg.deadLetterQueue.value, x.message);
      CountsCons(Done(op, answers.publish), Play(x, NextOp(x, op, answers.publish), answers));
    }
  }

  /** Every handler's counts, for every context and every way the calls can fail. */
  lemma HandleCounts(x: Context, raised: bool, answers: Answers)
    requires !x.autoAck
    ensures var log := Handle(x, raised, answers);
            var acked := !raised && answers.ack;
            var fails := !x.mode.Direct? && (raised || (x.mode.Async? && !answers.ack));
            var copied := fails && IsPoison(x) && answers.publish;
            && Copies(log) == (if copied then 1 else 0)
            && Acks(log) == (if acked || (copied && answers.poisonAck) then 1 else 0)
            && Nacks(log) == (if answers.nack && !acked
                                 && match x.mode
                                    case Direct => true
                                    case Offload => raised && !IsPoison(x)
                                    case Async => !(copied && answers.poisonAck)
                              then 1 else 0)
  {
    PlayCounts(x, answers);
    if !x.mode.Direct? {
      FailureCounts(x, answers);
    }
    if !raised {
      CountsCons(Done(Ack(false), answers.ack), Play(x, NextOp(x, Ack(false), answers.ack), answers));
    }
  }

  /**
   An async delivery whose last resort, the nack, is accepted ends settled exactly once, whatever else
   raised; it is both copied to the dead-letter queue and nacked exactly when the copy was published
   and its acknowledgement raised.
   */
  lemma AsyncEndsSettled(x: Context, raised: bool, answers: Answers)
    requires x.mode.Async? && !x.autoAck
    ensures var log := Handle(x, raised, answers);
            && (Settlements(log) == 1 <==>
                  || answers.nack
                  || (!raised && answers.ack)
                  || (IsPoison(x) && answers.publish && answers.poisonAck))
            && (Copies(log) == 1 && Nacks(log) == 1 <==>
                  && (raised || !answers.ack)
                  && IsPoison(x) && answers.publish && !answers.poisonAck && answers.nack)
            && (Acks(log) == 1 ==> (!raised && answers.ack) || Copies(log) == 1)
  {
    HandleCounts(x, raised, answers);
    SettledAtMostOnce(x, raised, answers);
  }

  /**
   The offload handler has no last resort: a failing delivery is left unsettled exactly when a call of
   its one path raised, and then its copy may already be in the dead-letter queue.
   */
  lemma OffloadEndsSettled(x: Context, raised: bool, answers: Answers)
    requires x.mode.Offload? && !x.autoAck
    ensures var log := Handle(x, raised, answers);
            && (Settlements(log) == 0 <==>
                  if !raised then !answers.ack
                  else if IsPoison(x) then !(answers.publish && answers.poisonAck)
                  else !answers.nack)
            && (Settlements(log) == 0 && Copies(log) == 1 <==>
                  raised && IsPoison(x) && answers.publish && !answers.poisonAck)
            && (Acks(log) == 1 ==> !raised || Copies(log) == 1)
  {
    HandleCounts(x, raised, answers);
    SettledAtMostOnce(x, raised, answers);
  }

  // ---------------------------------------------------------------- a program interrupted

  /** Where a program that starts with `first` stands after these calls, if they are its calls. */
  function Reached(x: Context, first: Next, log: seq<Done>): Option<Next> {
    if log == [] then Some(first)
    else
      var d := log[|log| - 1];
      if Reached(x, first, log[..|log| - 1]) == Some(Do(d.op)) then Some(NextOp(x, d.op, d.ok)) else None
  }

  lemma {:induction false} ReachedCons(x: Context, first: Next, log: seq<Done>)
    requires log != [] && Reached(x, first, log).Some?
    ensures first == Do(log[0].op)
    ensures Reached(x, NextOp(x, log[0].op, log[0].ok), log[1..]) == Reached(x, first, log)
  {
    hide NextOp;
    if |log| == 1 {
      assert log[..0] == [] && log[1..] == [];
    } else {
      var front := log[..|log| - 1];
      ReachedCons(x, first, front);
      assert log[1..][..|log| - 2] == front[1..];
    }
  }

  /** The answers to the kinds of call that come no later than a rank are the same. */
  predicate SameUpTo(a: Answers, b: Answers, rank: nat) {
    && (rank >= 1 ==> a.nack == b.nack)
    && (rank >= 2 ==> a.poisonAck == b.poisonAck)
    && (rank >= 3 ==> a.publish == b.publish)
    && (rank >= 4 ==> a.ack == b.ack)
  }

  lemma {:induction false} PlayDependsOn(x: Context, next: Next, a: Answers, b: Answers)
    requires SameUpTo(a, b, Rank(next))
    ensures Play(x, next, a) == Play(x, next, b)
    decreases Rank(next)
  {
    if next.Do? {
      PlayDependsOn(x, NextOp(x, next.op, a.For(next.op)), a, b);
    }
  }

  function Answering(a: Answers, op: Op, ok: bool): Answers {
    match op
    case Ack(false) => a.(ack := ok)
    case Ack(true) => a.(poisonAck := ok)
    case Publish(_, _) => a.(publish := ok)
    case Nack(_) => a.(nack := ok)
  }

  /** Calls that bring a program to its end are a whole play of it, for some answers. */
  lemma {:induction false} EndedIsPlay(x: Context, first: Next, log: seq<Done>) returns (answers: Answers)
    requires Reached(x, first, log) == Some(Finish)
    ensures Play(x, first, answers) == log
    decreases |log|
  {
    if log == [] {
      answers := FAULTLESS;
    } else {
      ReachedCons(x, first, log);
      var rest := NextOp(x, log[0].op, log[0].ok);
      var later := EndedIsPlay(x, rest, log[1..]);
      answers := Answering(later, log[0].op, log[0].ok);
      AnsweringKeeps(x, later, log[0].op, log[0].ok);
      hide NextOp, Reached, Answering, SameUpTo;
      PlayDependsOn(x, rest, answers, later);
      assert log == [log[0]] + log[1..];
    }
  }

  /** Answering a call otherwise changes nothing for those that come after it. */
  lemma AnsweringKeeps(x: Context, a: Answers, op: Op, ok: bool)
    ensures Answering(a, op, ok).For(op) == ok
    ensures SameUpTo(Answering(a, op, ok), a, Rank(NextOp(x, op, ok)))
  {
  }

  const FAULTLESS := Answers(true, true, true, true)

  /** What the raw configuration and headers of a delivery make of it. */
  function ContextOf(mode: Mode, autoAck: bool, destination: Mapping, message: Message): Context {
    Context(mode, autoAck, ResolveConfig(destination), message)
  }

  /**
   Without faults the async and the offload handler make the same calls, for every raw configuration,
   headers, flag and callback outcome, and settle a delivery they are to settle exactly once.
   */
  lemma PolicyAgreement(destination: Mapping, message: Message, autoAck: bool, raised: bool)
    ensures var a := Handle(ContextOf(Async, autoAck, destination, message), raised, FAULTLESS);
            && a == Handle(ContextOf(Offload, autoAck, destination, message), raised, FAULTLESS)
            && Settlements(a) == (if autoAck then 0 else 1)
            && (Copies(a) == 1 <==> !autoAck && raised && IsPoison(ContextOf(Async, autoAck, destination, message)))
  {
    var x := ContextOf(Async, autoAck, destination, message);
    var y := ContextOf(Offload, autoAck, destination, message);
    FailuresAgree(x, y);
    if !autoAck {
      HandleCounts(x, raised, FAULTLESS);
      SettledAtMostOnce(x, raised, FAULTLESS);
    }
  }

  lemma FailuresAgree(x: Context, y: Context)
    requires x.mode.Async? && y == x.(mode := Offload)
    ensures Play(x, FailurePath(x), FAULTLESS) == Play(y, FailurePath(y), FAULTLESS)
    ensures Play(x, Do(Ack(false)), FAULTLESS) == Play(y, Do(Ack(false)), FAULTLESS)
  {
    assert Play(x, Do(Ack(true)), FAULTLESS) == Play(y, Do(Ack(true)), FAULTLESS);
  }

  /**
   The direct handler never looks at the configuration, so without faults it does what the others do
   exactly when the delivery succeeds, needs no settlement, or is to be requeued anyway.
   */
  lemma DirectAgreesIff(x: Context, raised: bool)
    requires x.mode.Offload?
    ensures Handle(x, raised, FAULTLESS) == Handle(x.(mode := Direct), raised, FAULTLESS)
       <==> x.autoAck || !raised || (!IsPoison(x) && x.cfg.onError.Requeue?)
  {
    var d := x.(mode := Direct);
    if x.autoAck {
    } else if !raised {
      assert NextOp(x, Ack(false), true) == Finish == NextOp(d, Ack(false), true);
    } else {
      assert Handle(d, raised, FAULTLESS)[0] == Done(Nack(true), true);
      assert Handle(d, raised, FAULTLESS) == Play(d, Do(Nack(true)), FAULTLESS);
      if !IsPoison(x) {
        assert Handle(x, raised, FAULTLESS)[0] == Done(Nack(x.cfg.onError.Requeue?), true);
      } else {
        assert Handle(x, raised, FAULTLESS)[0].op.Publish?;
      }
    }
  }

  // ---------------------------------------------------------------- poison

  /** A broker's retry route returns the message with its deaths raised by c, and nothing else changed. */
  predicate Redelivered(c: nat, was: Message, now: Message) {
    && now.body == was.body
    && Deaths(now.headers) == Deaths(was.headers) + c
  }

  /** The broker delivers `now` after a handler that was given `was` made these calls. */
  predicate DeliversAgain(log: seq<Done>, c: nat, was: Message, now: Message) {
    && log != []
    && log[|log| - 1].ok && log[|log| - 1].op.Nack?
    && if log[|log| - 1].op.requeue then now == was else Redelivered(c, was, now)
  }

  /** Successive deliveries of one message to a handler whose callback always raises. */
  predicate Retries(x: Context, c: nat, trail: seq<Message>) {
    && trail != []
    && (forall i :: 0 <= i < |trail| - 1 ==>
          DeliversAgain(Handle(x.(message := trail[i]), true, FAULTLESS), c, trail[i], trail[i + 1]))
  }

  function CeilDiv(a: nat, b: nat): nat
    requires b >= 1
  {
    (a + b - 1) / b
  }

  lemma {:induction false} DeathsAlong(x: Context, c: nat, trail: seq<Message>, i: nat)
    requires !x.autoAck && !x.mode.Direct? && Retries(x, c, trail) && i < |trail|
    ensures trail[i].body == trail[0].body
    ensures x.cfg.onError.DeadLetter? ==> Deaths(trail[i].headers) == Deaths(trail[0].headers) + c * i
    ensures x.cfg.onError.Requeue? ==> trail[i] == trail[0]
    ensures i > 0 ==> !IsPoison(x.(message := trail[i - 1]))
  {
    if i > 0 {
      DeathsAlong(x, c, trail, i - 1);
      FailedLog(x.(message := trail[i - 1]));
      hide Handle;
      assert DeliversAgain(Handle(x.(message := trail[i - 1]), true, FAULTLESS), c, trail[i - 1], trail[i - 1 + 1]);
      assert c * i == c * (i - 1) + c;
    }
  }

  /** Which retries end the trail: the copy, then the acknowledgement. */
  function PoisonLog(x: Context): seq<Done>
    requires x.cfg.deadLetterQueue.Some?
  {
    [Done(Publish(x.cfg.deadLetterQueue.value, x.message), true), Done(Ack(true), true)]
  }

  lemma FailedLog(x: Context)
    requires !x.autoAck && !x.mode.Direct?
    ensures IsPoison(x) ==> Handle(x, true, FAULTLESS) == PoisonLog(x)
    ensures !IsPoison(x) ==> Handle(x, true, FAULTLESS) == [Done(Nack(x.cfg.onError.Requeue?), true)]
  {
    PlayUnfolds(x, FAULTLESS);
    hide Play;
  }

  /**
   What a failing delivery of the offload or async handler comes to without faults, whatever the mode: a
   queue by a name that is not empty and an attempt at the limit decide, before `on_error` is looked at.
   */
  lemma FailureExact(x: Context)
    requires !x.autoAck && !x.mode.Direct?
    ensures var queue := x.cfg.deadLetterQueue;
            Handle(x, true, FAULTLESS) ==
            if queue.Some? && queue.value != "" && Attempt(x.message.headers) >= x.cfg.maxRetries
            then [Done(Publish(queue.value, x.message), true), Done(Ack(true), true)]
            else [Done(Nack(x.cfg.onError.Requeue?), true)]
  {
    FailedLog(x);
    hide Handle;
  }

  /** And the other cases: nothing under auto-ack, an ack on success, a requeue from the direct handler. */
  lemma OtherwiseExact(x: Context, raised: bool)
    requires x.autoAck || !raised || x.mode.Direct?
    ensures Handle(x, raised, FAULTLESS) ==
            if x.autoAck then [] else if raised then [Done(Nack(true), true)] else [Done(Ack(false), true)]
  {
    PlayUnfolds(x, FAULTLESS);
    hide Play;
  }

  lemma CeilDivAbove(a: nat, c: nat, n: nat)
    requires c >= 1
    ensures n >= CeilDiv(a, c) <==> c * n >= a
  {
    var q := CeilDiv(a, c);
    CeilDivBounds(a, c);
    hide CeilDiv;
    if n >= q {
      TimesOrdered(c, q, n);
    } else {
      TimesOrdered(c, n, q - 1);
    }
  }

  lemma CeilDivBounds(a: nat, c: nat)
    requires c >= 1
    ensures c * CeilDiv(a, c) >= a && (CeilDiv(a, c) > 0 ==> c * (CeilDiv(a, c) - 1) < a)
  {
    var q: int := CeilDiv(a, c);
    assert a + c - 1 == c * q + (a + c - 1) % c;
    assert c * (q - 1) == c * q - c;
  }

  lemma TimesOrdered(c: nat, a: int, b: int)
    requires a <= b
    ensures c * a <= c * b
  {
    assert c * (b - a) >= 0;
    assert c * b == c * a + c * (b - a);
  }

  /**
   A message that always fails, with a dead-letter queue set and failures dead-lettered, that starts
   without deaths and gains c at each return, is poison at its delivery n (counting from 0) exactly when
   n has reached ceil((maxRetries - 1) / c); so it is handled 1 + ceil((maxRetries - 1) / c) times, the
   last time published once, body and headers as delivered, and acknowledged.
   */
  lemma PoisonAfterExactly(x: Context, c: nat, trail: seq<Message>)
    requires !x.autoAck && !x.mode.Direct? && HasQueue(x.cfg) && x.cfg.onError.DeadLetter? && x.cfg.maxRetries >= 1
    requires c >= 1 && Retries(x, c, trail) && Deaths(trail[0].headers) == 0
    ensures var handled := 1 + CeilDiv(x.cfg.maxRetries - 1, c);
            var n := |trail| - 1;
            var last := x.(message := trail[n]);
            && |trail| <= handled
            && (IsPoison(last) <==> |trail| == handled)
            && (|trail| == handled ==> Handle(last, true, FAULTLESS) == PoisonLog(last))
            && (|trail| < handled ==> Handle(last, true, FAULTLESS) == [Done(Nack(false), true)])
            && trail[n].body == trail[0].body
  {
    var n := |trail| - 1;
    var last := x.(message := trail[n]);
    DeathsAlong(x, c, trail, n);
    CeilDivAbove(x.cfg.maxRetries - 1, c, n);
    FailedLog(last);
    if n > 0 {
      DeathsAlong(x, c, trail, n - 1);
      CeilDivAbove(x.cfg.maxRetries - 1, c, n - 1);
    }
  }

  /** The bound is reached: until poison the broker delivers again, so there are trails of every length up to it. */
  lemma {:induction false} RetriesGoOn(x: Context, c: nat, body: string, n: nat) returns (trail: seq<Message>)
    requires !x.autoAck && !x.mode.Direct? && HasQueue(x.cfg) && x.cfg.onError.DeadLetter? && x.cfg.maxRetries >= 1
    requires c >= 1 && 1 <= n <= 1 + CeilDiv(x.cfg.maxRetries - 1, c)
    ensures Retries(x, c, trail) && |trail| == n && Deaths(trail[0].headers) == 0 && trail[0].body == body
  {
    if n == 1 {
      trail := [Message(body, NoHeaders)];
    } else {
      var front := RetriesGoOn(x, c, body, n - 1);
      PoisonAfterExactly(x, c, front);
      var last := front[n - 2];
      var next := Message(last.body, XDeath([Counted(Deaths(last.headers) + c)]));
      var death := Counted(Deaths(last.headers) + c);
      assert SumCounts([death]) == SumCounts([death][..0]) + CountOf(death);
      assert Deaths(next.headers) == Deaths(last.headers) + c;
      trail := front + [next];
      forall i | 0 <= i < n - 1
        ensures DeliversAgain(Handle(x.(message := trail[i]), true, FAULTLESS), c, trail[i], trail[i + 1])
      {
        if i < n - 2 {
          assert trail[i] == front[i] && trail[i + 1] == front[i + 1];
        }
      }
    }
  }

  /** With failures requeued, a message that starts short of the limit is never poison, however often it fails. */
  lemma RequeueNeverPoison(x: Context, c: nat, trail: seq<Message>)
    requires !x.autoAck && !x.mode.Direct? && x.cfg.onError.Requeue? && Retries(x, c, trail)
    ensures Attempt(trail[0].headers) < x.cfg.maxRetries ==>
              forall i :: 0 <= i < |trail| ==>
                Handle(x.(message := trail[i]), true, FAULTLESS) == [Done(Nack(true), true)]
    ensures |trail| > 1 ==> !IsPoison(x.(message := trail[0]))
  {
    forall i | 0 <= i < |trail|
      ensures Attempt(trail[0].headers) < x.cfg.maxRetries ==>
                Handle(x.(message := trail[i]), true, FAULTLESS) == [Done(Nack(true), true)]
      ensures i > 0 ==> !IsPoison(x.(message := trail[0]))
    {
      DeathsAlong(x, c, trail, i);
      FailedLog(x.(message := trail[i]));
    }
    if |trail| > 1 {
      DeathsAlong(x, c, trail, 1);
    }
  }
}
