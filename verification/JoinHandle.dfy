/** `blocking_join_handle` and its shared block as objects.  A call is made without interruption
    between its critical sections, and moves the system as `JoinSystem` says. */
module JoinHandle {
  import opened Options
  import J = JoinSystem

  // All blocks and handles of a program, as the system sees them, and what was done to them so far.
  class Runtime {
    ghost var sys: J.State
    ghost var acts: seq<J.Act>

    ghost predicate Valid()
      reads this
    {
      J.Inv(sys) && sys == J.Run(J.Start(0), acts)
    }

    constructor ()
      ensures Valid() && sys == J.Start(0)
    {
      sys, acts := J.Start(0), [];
      J.RunInv(0, []);
    }

    // The ghost side of one step.
    ghost method Advance(a: J.Act)
      requires Valid()
      modifies this
      ensures Valid() && sys == J.Step(old(sys), a) && acts == old(acts) + [a]
    {
      J.StepInv(sys, a);
      sys, acts := J.Step(sys, a), acts + [a];
      assert acts[..|acts| - 1] == old(acts);
    }
  }

  class StateBlock {
    var state: int
    var outcome: Option<J.Outcome>
    var suspended: Option<nat>
    ghost var freed: nat
    ghost const id: nat  // its number in the system

    ghost function View(): J.Block
      reads this
    {
      J.Block(state, outcome, suspended, freed)
    }

    ghost predicate In(rt: Runtime)
      reads this, rt
    {
      id < |rt.sys.blocks| == |rt.sys.workers| && View() == rt.sys.blocks[id]
    }

    constructor (ghost id: nat)
      ensures View() == J.Block(0, None, None, 0) && this.id == id
    {
      state, outcome, suspended, freed := 0, None, None, 0;
      this.id := id;
    }

    // `call`, once the function has ended: store the outcome, take the awaiter, finish, schedule the
    // awaiter, and delete the block if its owner had detached.
    method Call(rt: Runtime, o: J.Outcome) returns (scheduled: Option<nat>)
      requires rt.Valid() && In(rt) && rt.sys.workers[id].Queued?
      modifies this, rt
      ensures rt.Valid() && In(rt) && rt.sys == Called(old(rt.sys), id, o)
      ensures rt.sys.resumed == old(rt.sys.resumed) + Somes([scheduled])
      ensures outcome == Some(o) && J.Ended(0, rt.acts, id, o)
    {
      ghost var before := rt.acts;
      assert J.BlockAt(rt.sys, id);
      CallSteps(rt.sys, id, o);
      rt.Advance(J.Function(id, o));
      outcome := Some(o);
      scheduled := suspended;
      suspended := None;
      var st := state;
      state := 1;
      rt.Advance(J.Publish(id));
      rt.Advance(J.Schedule(id));
      if st == -1 { freed := freed + 1; }
      rt.Advance(J.Release(id));
      assert rt.acts[..|before|] == before && J.EndedAt(0, rt.acts, |before|, id, o);
    }
  }

  // The steps of one `call`.
  ghost function Called(s: J.State, b: nat, o: J.Outcome): J.State {
    J.Step(J.Step(J.Step(J.Step(s, J.Function(b, o)), J.Publish(b)), J.Schedule(b)), J.Release(b))
  }

  lemma CallSteps(s: J.State, b: nat, o: J.Outcome)
    requires b < |s.blocks| == |s.workers| && s.workers[b].Queued?
    ensures var s', x := Called(s, b, o), s.blocks[b];
            && |s'.blocks| == |s'.workers| == |s.blocks|
            && s'.blocks[b] == J.PublishBlock(x, o).(freed := if x.state == -1 then x.freed + 1 else x.freed)
            && s'.resumed == s.resumed + Somes([x.suspended])
  {
    assert Somes([s.blocks[b].suspended]) ==
           if s.blocks[b].suspended.Some? then [s.blocks[b].suspended.value] else [];
  }

  class Handle {
    var block: StateBlock?
    ghost const id: nat  // its number in the system

    ghost predicate In(rt: Runtime)
      reads this, block, rt
    {
      && id < |rt.sys.handles|
      && rt.sys.handles[id] == (if block == null then J.Null else J.Owns(block.id))
      && (block != null ==> block.In(rt))
    }

    // `spawn_blocking`: a new block and its handle.
    constructor Spawn(rt: Runtime)
      requires rt.Valid()
      modifies rt
      ensures rt.Valid() && In(rt) && block != null && fresh(block)
      ensures rt.sys == J.Step(old(rt.sys), J.Spawn) && rt.sys.workers[block.id].Queued?
    {
      id := |rt.sys.handles|;
      block := new StateBlock(|rt.sys.blocks|);
      new;
      rt.Advance(J.Spawn);
    }

    constructor Move(rt: Runtime, other: Handle)
      requires rt.Valid() && other.In(rt)
      modifies rt, other
      ensures rt.Valid() && In(rt) && other.In(rt)
      ensures block == old(other.block) && other.block == null
      ensures rt.sys == J.Step(old(rt.sys), J.Move(other.id))
    {
      id := |rt.sys.handles|;
      block := other.block;
      new;
      other.block := null;
      rt.Advance(J.Move(other.id));
    }

    // Move-assignment swaps, also onto itself.
    method Assign(rt: Runtime, rhs: Handle)
      requires rt.Valid() && In(rt) && rhs.In(rt)
      modifies this, rhs, rt
      ensures rt.Valid() && In(rt) && rhs.In(rt)
      ensures block == old(rhs.block) && rhs.block == old(block)
      ensures rt.sys == J.Step(old(rt.sys), J.Swap(id, rhs.id))
    {
      var tmp := block;
      block := rhs.block;
      rhs.block := tmp;
      rt.Advance(J.Swap(id, rhs.id));
    }

    // True exactly when the outcome is there to be taken.
    method AwaitReady(rt: Runtime) returns (ready: bool)
      requires rt.Valid() && In(rt) && block != null
      ensures J.Step(rt.sys, J.Ready(id)) == rt.sys
      ensures ready <==> block.outcome.Some?
    {
      J.LookInv(rt.sys, id);
      Looked(rt);
      ready := block.state == 1;
    }

    // A block that is owned has not been deleted, and is finished exactly when its outcome is stored.
    lemma Looked(rt: Runtime)
      requires rt.Valid() && In(rt) && block != null
      ensures block.freed == 0 && (block.state == 1 <==> block.outcome.Some?)
    {
      assert J.Refers(rt.sys, id, block.id) && J.BlockAt(rt.sys, block.id);
    }

    // The next awaiter is scheduled here and now exactly when the outcome is there; otherwise the
    // block keeps it for `Call`, and an awaiter it kept before is lost.
    method AwaitSuspend(rt: Runtime, a: nat) returns (now: bool)
      requires rt.Valid() && In(rt) && block != null && a == |rt.sys.passed|
      modifies block, rt
      ensures rt.Valid() && In(rt) && rt.sys == J.Step(old(rt.sys), J.Suspend(id))
      ensures now <==> block.outcome.Some?
      ensures rt.sys.resumed == old(rt.sys.resumed) + if now then [a] else []
      ensures rt.sys.lost == old(rt.sys.lost) +
              if now || old(block.suspended).None? then [] else [old(block.suspended).value]
    {
      Looked(rt);
      now := block.state == 1;
      if !now { block.suspended := Some(a); }
      rt.Advance(J.Suspend(id));
    }

    // The value that the function of the task returned, if it did not throw.
    method AwaitResume(rt: Runtime) returns (value: nat)
      requires rt.Valid() && In(rt) && block != null && block.outcome.Some? && block.outcome.value.Returned?
      ensures J.Step(rt.sys, J.Resume(id)) == rt.sys
      ensures J.Ended(0, rt.acts, block.id, J.Returned(value))
    {
      J.LookInv(rt.sys, id);
      J.OutcomeIsReturned(0, rt.acts, block.id);
      value := block.outcome.value.value;
    }

    method Detach(rt: Runtime)
      requires rt.Valid() && In(rt) && block != null
      modifies this, block, rt
      ensures rt.Valid() && In(rt) && block == null && old(block).In(rt)
      ensures rt.sys == J.Step(J.Step(old(rt.sys), J.Detach(id)), J.Delete(id))
    {
      Looked(rt);
      if block.state == 1 {
        rt.Advance(J.Detach(id));
        block.freed := block.freed + 1;
      } else {
        block.state := -1;
        rt.Advance(J.Detach(id));
      }
      rt.Advance(J.Delete(id));
      block := null;
    }

    method Destroy(rt: Runtime)
      requires rt.Valid() && In(rt)
      modifies this, block, rt
      ensures rt.Valid() && In(rt) && block == null && (old(block) != null ==> old(block).In(rt))
      ensures rt.sys == J.Step(J.Step(old(rt.sys), J.Detach(id)), J.Delete(id))
    {
      if block != null {
        Detach(rt);
      }
    }
  }
}
