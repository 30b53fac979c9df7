/** `io_future`: a one-word handshake between the coroutine that awaits and the completion that
    finishes, interleaved at every operation on the word. */
module IoFuture {
  import opened Options

  // The word: null, the address of a suspended coroutine, or FUTURE_DONE.
  datatype Slot = Empty | Waiting(handle: nat) | FutureDone

  datatype Coroutine =
    | Started
    | NotReady     // `await_ready` returned false; about to exchange its handle in
    | Went         // `await_ready` returned true: it goes on without suspending
    | Rescue       // found FUTURE_DONE while suspending: about to schedule itself
    | Suspended    // `await_suspend` has returned

  datatype Completion =
    | Running
    | Swapped(found: Slot)  // exchanged FUTURE_DONE in; about to schedule what it found
    | Over

  // `resumed` lists the handles scheduled.
  datatype State = State(slot: Slot, me: nat, co: Coroutine, fin: Completion, resumed: seq<nat>)

  datatype Act = AwaitStep | FinishStep

  function Step(s: State, a: Act): State {
    match a
    case AwaitStep => (
      match s.co
      case Started => s.(co := if s.slot != Empty then Went else NotReady)
      case NotReady => s.(slot := Waiting(s.me), co := if s.slot == FutureDone then Rescue else Suspended)
      case Rescue => s.(co := Suspended, resumed := s.resumed + [s.me])
      case _ => s)
    case FinishStep => (
      match s.fin
      case Running => s.(slot := FutureDone, fin := Swapped(s.slot))
      case Swapped(found) =>
        s.(fin := Over, resumed := if found.Waiting? then s.resumed + [found.handle] else s.resumed)
      case Over => s)
  }

  function Run(s: State, acts: seq<Act>): State
    decreases |acts|
  {
    if acts == [] then s else Step(Run(s, acts[..|acts| - 1]), acts[|acts| - 1])
  }

  function Start(me: nat): State { State(Empty, me, Started, Running, []) }

  ghost predicate Inv(s: State) {
    && (s.fin.Running? ==>
          && s.resumed == []
          && s.slot == (if s.co.Suspended? then Waiting(s.me) else Empty)
          && (s.co.Started? || s.co.NotReady? || s.co.Suspended?))
    && (s.fin.Swapped? && s.fin.found != Empty ==>
          s.co.Suspended? && s.fin.found == Waiting(s.me) && s.resumed == [] && s.slot == FutureDone)
    && (s.fin.Swapped? && s.fin.found == Empty ==> Finished(s))
    && (s.fin.Over? ==> Finished(s))
  }

  // Nothing is left for `finish` to schedule.
  ghost predicate Finished(s: State) {
    && s.resumed == (if s.co.Suspended? then [s.me] else [])
    && (s.co.Started? || s.co.NotReady? || s.co.Went? ==> s.slot == FutureDone)
  }

  lemma StepInv(s: State, a: Act)
    requires Inv(s)
    ensures Inv(Step(s, a)) && Step(s, a).me == s.me
  {
  }

  lemma {:induction false} RunInv(me: nat, acts: seq<Act>)
    ensures Inv(Run(Start(me), acts)) && Run(Start(me), acts).me == me
    decreases |acts|
  {
    if acts != [] {
      RunInv(me, acts[..|acts| - 1]);
      StepInv(Run(Start(me), acts[..|acts| - 1]), acts[|acts| - 1]);
    }
  }

  // Every interleaving with a single `finish`: the coroutine is never resumed twice, never before
  // `finish`, and only if it suspended; when both sides are through, it was resumed exactly once if
  // it suspended.  It goes on without suspending only after `finish`.
  lemma ResumedOnce(me: nat, acts: seq<Act>)
    ensures var s := Run(Start(me), acts);
            && (s.resumed == [] || s.resumed == [me])
            && (s.resumed != [] ==> !s.fin.Running? && s.co.Suspended?)
            && (s.co.Went? ==> !s.fin.Running? && s.resumed == [])
            && (s.fin.Over? && s.co.Suspended? ==> s.resumed == [me])
  {
    RunInv(me, acts);
  }

  // The same handshake as an object, each call run without interruption: `sys` is the handshake so
  // far, and every call takes it as many steps as it has atomic operations and schedulings.
  class Future {
    var slot: Slot
    ghost var sys: State

    ghost predicate Valid()
      reads this
    {
      slot == sys.slot && Inv(sys)
    }

    constructor (ghost me: nat)
      ensures Valid() && sys == Start(me)
    {
      slot := Empty;
      sys := Start(me);
    }

    // True exactly when `finish` has come first: then there is nothing to wait for.
    method AwaitReady() returns (ready: bool)
      requires Valid() && sys.co.Started?
      modifies `sys
      ensures Valid() && sys == Step(old(sys), AwaitStep)
      ensures ready <==> sys.co.Went?
      ensures ready <==> !sys.fin.Running?
    {
      StepInv(sys, AwaitStep);
      ready := slot != Empty;
      sys := Step(sys, AwaitStep);
    }

    // Schedules the coroutine itself exactly when `finish` came in between.
    method AwaitSuspend(h: nat) returns (scheduled: Option<nat>)
      requires Valid() && sys.co.NotReady? && sys.me == h
      modifies this
      ensures Valid() && sys == Step(Step(old(sys), AwaitStep), AwaitStep)
      ensures sys.co.Suspended? && sys.resumed == old(sys.resumed) + Somes([scheduled])
      ensures scheduled == Some(h) <==> !sys.fin.Running?
    {
      StepInv(sys, AwaitStep);
      StepInv(Step(sys, AwaitStep), AwaitStep);
      var before := slot;
      slot := Waiting(h);
      scheduled := if before == FutureDone then Some(h) else None;
      sys := Step(Step(sys, AwaitStep), AwaitStep);
    }

    // Schedules the coroutine exactly when it has suspended.
    method Finish() returns (scheduled: Option<nat>)
      requires Valid() && sys.fin.Running?
      modifies this
      ensures Valid() && sys == Step(Step(old(sys), FinishStep), FinishStep)
      ensures sys.fin.Over? && sys.resumed == old(sys.resumed) + Somes([scheduled])
      ensures scheduled == if sys.co.Suspended? then Some(sys.me) else None
    {
      StepInv(sys, FinishStep);
      StepInv(Step(sys, FinishStep), FinishStep);
      var before := slot;
      slot := FutureDone;
      scheduled := if before.Waiting? then Some(before.handle) else None;
      sys := Step(Step(sys, FinishStep), FinishStep);
    }
  }
}
