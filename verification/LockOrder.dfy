/**
 The two mutexes together. `Start` logs while it holds the handle's mutex, so an
 emission may run inside a critical section of the handle; nothing takes the locks in
 the other order. Consumers are the threads that never appear here: they only receive.
 */
module LockOrder {
  import opened Options
  import D = LogDelivery

  type Thread = nat

  /** Holding no mutex, the handle's, or the logger's (`nested`: on top of the handle's). */
  datatype Pc = Outside | InHandle | Logging(nested: bool)

  /** The logger's state, where the threads are, and who holds which mutex. */
  datatype State = State(log: D.State, pcs: map<Thread, Pc>, handle: Option<Thread>, emitter: Option<Thread>)

  datatype Step =
    | LockHandle(t: Thread)
    | UnlockHandle(t: Thread)
    | LockLogger(t: Thread, e: D.LogEntry)
    | Offer(t: Thread, ch: D.ChanId, waiting: bool)
    | UnlockLogger(t: Thread)
    | Subscribe(t: Thread, ch: D.ChanId)
    | Unsubscribe(t: Thread, ch: D.ChanId)
    | Receive(ch: D.ChanId)

  function Init(cap: nat): State {
    State(D.Init(cap), map[], None, None)
  }

  function At(s: State, t: Thread): Pc {
    if t in s.pcs then s.pcs[t] else Outside
  }

  /** The logger's part of a step, if it has one. */
  function LogStep(step: Step): Option<D.Step> {
    match step
    case LockLogger(_, e) => Some(D.BeginEmit(e))
    case Offer(_, ch, waiting) => Some(D.Offer(ch, waiting))
    case UnlockLogger(_) => Some(D.EndEmit)
    case Subscribe(_, ch) => Some(D.Subscribe(ch))
    case Unsubscribe(_, ch) => Some(D.Unsubscribe(ch))
    case Receive(ch) => Some(D.Receive(ch))
    case _ => None
  }

  predicate Enabled(s: State, step: Step) {
    && (LogStep(step).Some? ==> D.Enabled(s.log, LogStep(step).value))
    && match step
       case LockHandle(t) => At(s, t).Outside? && s.handle.None?
       case UnlockHandle(t) => At(s, t).InHandle?
       case LockLogger(t, _) => !At(s, t).Logging?
       case Offer(t, _, _) => At(s, t).Logging?
       case UnlockLogger(t) => At(s, t).Logging?
       case Subscribe(t, _) => At(s, t).Outside?
       case Unsubscribe(t, _) => At(s, t).Outside?
       case Receive(_) => true
  }

  function Apply(s: State, step: Step): State
    requires Enabled(s, step)
  {
    var r := if LogStep(step).Some? then s.(log := D.Apply(s.log, LogStep(step).value)) else s;
    match step
    case LockHandle(t) => r.(pcs := s.pcs[t := InHandle], handle := Some(t))
    case UnlockHandle(t) => r.(pcs := s.pcs[t := Outside], handle := None)
    case LockLogger(t, _) => r.(pcs := s.pcs[t := Logging(At(s, t).InHandle?)], emitter := Some(t))
    case UnlockLogger(t) => r.(pcs := s.pcs[t := if At(s, t).nested then InHandle else Outside], emitter := None)
    case _ => r
  }

  ghost predicate IsRun(s: State, steps: seq<Step>, t: State)
    decreases |steps|
  {
    if steps == [] then s == t else Enabled(s, steps[0]) && IsRun(Apply(s, steps[0]), steps[1..], t)
  }

  ghost predicate Reachable(s: State) {
    exists cap, steps: seq<Step> :: IsRun(Init(cap), steps, s)
  }

  // --------------------------------------------------------------------- invariants

  predicate HoldsHandle(pc: Pc) {
    pc.InHandle? || pc == Logging(true)
  }

  /** Each mutex is held by the thread that is in its section, and by nobody else; and
      the logger is emitting exactly while somebody holds its mutex. */
  predicate LocksInv(s: State) {
    && (forall t | t in s.pcs :: HoldsHandle(s.pcs[t]) <==> s.handle == Some(t))
    && (forall t | t in s.pcs :: s.pcs[t].Logging? <==> s.emitter == Some(t))
    && (s.handle.Some? ==> s.handle.value in s.pcs)
    && (s.emitter.Some? ==> s.emitter.value in s.pcs)
    && (s.emitter.Some? <==> s.log.lock.Emitting?)
  }

  predicate Inv(s: State) {
    LocksInv(s) && D.OffersInv(s.log)
  }

  lemma StepKeepsLocks(s: State, step: Step)
    requires LocksInv(s) && Enabled(s, step)
    ensures LocksInv(Apply(s, step))
  {
  }

  lemma StepKeepsInv(s: State, step: Step)
    requires Inv(s) && Enabled(s, step)
    ensures Inv(Apply(s, step))
  {
    StepKeepsLocks(s, step);
    if LogStep(step).Some? {
      D.StepKeepsOffers(s.log, LogStep(step).value);
    }
  }

  lemma {:induction false} RunKeepsInv(s: State, steps: seq<Step>, t: State)
    requires Inv(s) && IsRun(s, steps, t)
    ensures Inv(t)
    decreases |steps|
  {
    if steps != [] {
      StepKeepsInv(s, steps[0]);
      RunKeepsInv(Apply(s, steps[0]), steps[1..], t);
    }
  }

  lemma ReachableInv(s: State)
    requires Reachable(s)
    ensures Inv(s)
  {
    var cap, steps :| IsRun(Init(cap), steps, s);
    assert Inv(Init(cap));
    RunKeepsInv(Init(cap), steps, s);
  }

  // ------------------------------------------------------------------- main results

  /** Both mutexes exclude, whatever the interleaving and the nesting. */
  lemma MutualExclusion(s: State, t: Thread, u: Thread)
    requires Reachable(s)
    ensures HoldsHandle(At(s, t)) && HoldsHandle(At(s, u)) ==> t == u
    ensures At(s, t).Logging? && At(s, u).Logging? ==> t == u
  {
    ReachableInv(s);
  }

  /** A step that a holder takes towards giving its mutex back. */
  predicate Releasing(step: Step) {
    step.Offer? || step.UnlockLogger? || step.UnlockHandle?
  }

  /** The releasing steps that are left before both mutexes are free. */
  function Work(s: State): nat {
    (match s.log.lock case Free => 0 case Emitting(pending) => |pending| + 1) + if s.handle.Some? then 1 else 0
  }

  /** Releasing is never undone by a consumer: each such step shortens the way by one,
      and a receive changes nothing about it. */
  lemma WorkShrinks(s: State, step: Step)
    requires LocksInv(s) && Enabled(s, step)
    ensures Releasing(step) ==> Work(Apply(s, step)) == Work(s) - 1
    ensures step.Receive? ==> Work(Apply(s, step)) == Work(s)
  {
  }

  /** As long as a mutex is held, some holder can take a releasing step. */
  lemma HolderCanMove(s: State) returns (step: Step)
    requires Inv(s) && (s.handle.Some? || s.emitter.Some?)
    ensures Enabled(s, step) && Releasing(step)
  {
    if s.emitter.None? {
      step := UnlockHandle(s.handle.value);
    } else if s.log.lock.pending == {} {
      step := UnlockLogger(s.emitter.value);
    } else {
      var ch :| ch in s.log.lock.pending;
      step := Offer(s.emitter.value, ch, false);
    }
  }

  /** No reachable state is stuck on a slow consumer: from each of them, in exactly as
      many steps as there is work left and without a single receive, the holders come
      to a state in which both mutexes are free. */
  lemma NeverStuck(s: State) returns (steps: seq<Step>, r: State)
    requires Reachable(s)
    ensures IsRun(s, steps, r) && |steps| == Work(s)
    ensures forall i | 0 <= i < |steps| :: Releasing(steps[i])
    ensures r.handle.None? && r.emitter.None? && r.log.lock.Free?
    ensures forall t :: At(r, t).Outside?
  {
    ReachableInv(s);
    steps, r := Drain(s);
  }

  lemma {:induction false} Drain(s: State) returns (steps: seq<Step>, r: State)
    requires Inv(s)
    ensures Inv(r) && IsRun(s, steps, r) && |steps| == Work(s)
    ensures forall i | 0 <= i < |steps| :: Releasing(steps[i])
    ensures r.handle.None? && r.emitter.None?
    decreases Work(s)
  {
    if s.handle.None? && s.emitter.None? {
      steps, r := [], s;
    } else {
      var step := HolderCanMove(s);
      WorkShrinks(s, step);
      StepKeepsInv(s, step);
      var rest: seq<Step>;
      rest, r := Drain(Apply(s, step));
      steps := [step] + rest;
      assert steps[1..] == rest;
    }
  }
}
