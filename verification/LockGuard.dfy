/** `lock_guard`: whatever is moved, swapped and destroyed, each mutex is unlocked once. */
module LockGuard {
  import opened Options
  import opened Sequences
  import opened MultiLock

  // All the guards of a program, and what their destructors have unlocked so far.
  datatype State = State(guards: seq<Option<nat>>, unlocked: seq<nat>)

  datatype Act = Take(m: nat) | MoveNew(h: nat) | Swap(h: nat, k: nat) | DestroyOne(h: nat)

  function Step(s: State, a: Act): State {
    match a
    case Take(m) => s.(guards := s.guards + [Some(m)])
    case MoveNew(h) =>
      if h < |s.guards| then s.(guards := s.guards[h := None] + [s.guards[h]]) else s
    case Swap(h, k) =>
      if h < |s.guards| && k < |s.guards|
      then s.(guards := s.guards[h := s.guards[k]][k := s.guards[h]]) else s
    case DestroyOne(h) =>
      if h < |s.guards| then
        State(s.guards[h := None], if s.guards[h].Some? then s.unlocked + [s.guards[h].value] else s.unlocked)
      else s
  }

  function Run(s: State, acts: seq<Act>): State
    decreases |acts|
  {
    if acts == [] then s else Step(Run(s, acts[..|acts| - 1]), acts[|acts| - 1])
  }

  // How many guards hold m, and how often m was unlocked.
  function Holders(s: State, m: nat): nat { Times(s.guards, Some(m)) + Times(s.unlocked, m) }

  lemma Swapped(gs: seq<Option<nat>>, h: nat, k: nat, x: Option<nat>)
    requires h < |gs| && k < |gs|
    ensures Times(gs[h := gs[k]][k := gs[h]], x) == Times(gs, x)
  {
    TimesUpdate(gs, h, gs[k], x);
    TimesUpdate(gs[h := gs[k]], k, gs[h], x);
  }

  lemma StepKeeps(s: State, a: Act, m: nat)
    ensures Holders(Step(s, a), m) == Holders(s, m) + if a == Take(m) then 1 else 0
  {
    match a
    case Take(x) => TimesMore(s.guards, Some(x), Some(m));
    case MoveNew(h) =>
      if h < |s.guards| { TimesUpdate(s.guards, h, None, Some(m)); }
    case Swap(h, k) =>
      if h < |s.guards| && k < |s.guards| { Swapped(s.guards, h, k, Some(m)); }
    case DestroyOne(h) =>
      if h < |s.guards| { TimesUpdate(s.guards, h, None, Some(m)); }
  }

  lemma {:induction false} HoldersCounted(acts: seq<Act>, m: nat)
    ensures Holders(Run(State([], []), acts), m) == Times(acts, Take(m))
    decreases |acts|
  {
    if acts != [] {
      var n := |acts| - 1;
      HoldersCounted(acts[..n], m);
      StepKeeps(Run(State([], []), acts[..n]), acts[n], m);
      TimesMore(acts[..n], acts[n], Take(m));
      assert acts == acts[..n] + [acts[n]];
    }
  }

  // Over every sequence of takings, moves, swaps and destructions, the guards holding a mutex plus the
  // times it was unlocked are the times it was taken: at most one unlock for each, and exactly one
  // when every guard is empty again.
  lemma EachUnlockedOnce(acts: seq<Act>, m: nat)
    ensures Holders(Run(State([], []), acts), m) == Times(acts, Take(m))
    ensures (forall h :: 0 <= h < |Run(State([], []), acts).guards| ==> Run(State([], []), acts).guards[h].None?) ==>
              Times(Run(State([], []), acts).unlocked, m) == Times(acts, Take(m))
  {
    HoldersCounted(acts, m);
    NoHolder(Run(State([], []), acts).guards, m);
  }

  lemma NoHolder(gs: seq<Option<nat>>, m: nat)
    ensures (forall h :: 0 <= h < |gs| ==> gs[h].None?) ==> Times(gs, Some(m)) == 0
  {
    assert Some(m) in multiset(gs) ==> Some(m) in gs;
  }

  // The guards of a program as objects: each call moves the program by one step.
  class Program {
    ghost var sys: State

    constructor ()
      ensures sys == State([], [])
    {
      sys := State([], []);
    }
  }

  class Guard {
    var mtx: Option<nat>
    ghost const id: nat  // its number in the program

    ghost predicate In(p: Program)
      reads this, p
    {
      id < |p.sys.guards| && p.sys.guards[id] == mtx
    }

    // A guard of a mutex that is held.
    constructor (p: Program, m: nat)
      modifies p
      ensures In(p) && mtx == Some(m) && p.sys == Step(old(p.sys), Take(m))
    {
      mtx := Some(m);
      id := |p.sys.guards|;
      new;
      p.sys := Step(p.sys, Take(m));
    }

    constructor Move(p: Program, other: Guard)
      requires other.In(p)
      modifies p, other
      ensures In(p) && other.In(p) && p.sys == Step(old(p.sys), MoveNew(other.id))
      ensures mtx == old(other.mtx) && other.mtx == None
    {
      mtx := other.mtx;
      id := |p.sys.guards|;
      new;
      other.mtx := None;
      p.sys := Step(p.sys, MoveNew(other.id));
    }

    // Move-assignment swaps, also onto itself.
    method Assign(p: Program, rhs: Guard)
      requires In(p) && rhs.In(p)
      modifies this, rhs, p
      ensures In(p) && rhs.In(p) && p.sys == Step(old(p.sys), Swap(id, rhs.id))
      ensures mtx == old(rhs.mtx) && rhs.mtx == old(mtx)
    {
      var tmp := mtx;
      mtx := rhs.mtx;
      rhs.mtx := tmp;
      p.sys := Step(p.sys, Swap(id, rhs.id));
    }

    // The destructor: the guard is gone afterwards.
    method Destroy(p: Program, w: World)
      requires In(p) && w.Valid() && (mtx.Some? ==> mtx.value in w.mine)
      modifies this, w, p
      ensures In(p) && w.Valid() && mtx == None && p.sys == Step(old(p.sys), DestroyOne(id))
      ensures w.mine == old(w.mine) - if old(mtx).Some? then {old(mtx).value} else {}
      ensures w.log == old(w.log) + if old(mtx).Some? then [Released(old(mtx).value)] else []
    {
      p.sys := Step(p.sys, DestroyOne(id));
      if mtx.Some? {
        w.Unlock(mtx.value);
        mtx := None;
      }
    }
  }
}
