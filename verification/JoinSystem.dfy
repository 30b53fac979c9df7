/** `blocking_join_handle`: the worker that runs a blocking task and the owner of the handle share
    one heap block.  Any number of blocks and handles, interleaved at every critical section. */
module JoinSystem {
  import opened Options
  import opened Sequences

  datatype Outcome = Returned(value: nat) | Threw(exception: nat)

  // The shared block; `state` is 0 (waiting), 1 (finished) or -1 (detached).  `freed` counts how
  // often it has been deleted.
  datatype Block = Block(state: int, outcome: Option<Outcome>, suspended: Option<nat>, freed: nat)

  // Where the worker is inside `call()`.
  datatype Worker =
    | Queued                               // has not finished running the function
    | Ran(outcome: Outcome)                // about to enter the critical section
    | Published(susp: Option<nat>, st: int) // about to schedule the awaiter it found
    | Scheduled(st: int)                   // about to delete the block, if it was detached
    | Finished

  // A handle: null, the owner of a block, or past the critical section of `detach` that found the
  // task finished, about to delete.
  datatype Handle = Null | Owns(b: nat) | Deleting(b: nat)

  // `passed[a]` is the block whose handle got awaiter a in `await_suspend`; `resumed` lists the
  // awaiters scheduled, in order; `lost` lists those overwritten by a later `await_suspend` on the
  // same block; `fault` records any access to a deleted block.  None of the four steers anything.
  datatype State = State(
    blocks: seq<Block>, workers: seq<Worker>, handles: seq<Handle>,
    passed: seq<nat>, resumed: seq<nat>, lost: seq<nat>, fault: bool)

  datatype Act =
    | Spawn                              // a new task and its handle
    | Move(h: nat)                       // move-construct a new handle from h
    | Swap(h: nat, k: nat)               // move-assign: swap two handles
    | Detach(h: nat)                     // `detach`, also from the destructor
    | Delete(h: nat)                     // its second half
    | Ready(h: nat)                      // `await_ready`
    | Resume(h: nat)                     // `await_resume`
    | Suspend(h: nat)                    // `await_suspend` with a new awaiter
    | Function(b: nat, outcome: Outcome) // the task's function ends
    | Publish(b: nat)                    // the critical section of `call`
    | Schedule(b: nat)
    | Release(b: nat)

  // ---- the critical sections, on one block ----

  function DetachBlock(b: Block): Block { if b.state == 1 then b else b.(state := -1) }

  function SuspendBlock(b: Block, a: nat): Block { if b.state == 1 then b else b.(suspended := Some(a)) }

  function PublishBlock(b: Block, o: Outcome): Block { Block(1, Some(o), None, b.freed) }

  function Touch(s: State, b: nat): bool { s.fault || b >= |s.blocks| || s.blocks[b].freed > 0 }

  function Put(s: State, b: nat, x: Block): seq<Block> { if b < |s.blocks| then s.blocks[b := x] else s.blocks }

  function At(s: State, b: nat): Block {
    if b < |s.blocks| then s.blocks[b] else Block(0, None, None, 0)
  }

  // An access through handle h that changes nothing.
  function Look(s: State, h: nat): State {
    if h < |s.handles| && s.handles[h].Owns? then s.(fault := Touch(s, s.handles[h].b)) else s
  }

  // `await_suspend` on a block that is not finished and has an awaiter already.
  predicate Overwrites(s: State, a: Act) {
    && a.Suspend? && a.h < |s.handles| && s.handles[a.h].Owns?
    && At(s, s.handles[a.h].b).state != 1 && At(s, s.handles[a.h].b).suspended.Some?
  }

  function Step(s: State, a: Act): State {
    match a
    case Spawn =>
      s.(blocks := s.blocks + [Block(0, None, None, 0)], workers := s.workers + [Queued],
         handles := s.handles + [Owns(|s.blocks|)])
    case Move(h) =>
      if h < |s.handles| && !s.handles[h].Deleting?
      then s.(handles := s.handles[h := Null] + [s.handles[h]]) else s
    case Swap(h, k) =>
      if h < |s.handles| && k < |s.handles| && !s.handles[h].Deleting? && !s.handles[k].Deleting?
      then s.(handles := s.handles[h := s.handles[k]][k := s.handles[h]]) else s
    case Detach(h) =>
      if h < |s.handles| && s.handles[h].Owns? then
        var b := s.handles[h].b;
        s.(blocks := Put(s, b, DetachBlock(At(s, b))), fault := Touch(s, b),
           handles := s.handles[h := if At(s, b).state == 1 then Deleting(b) else Null])
      else s
    case Delete(h) =>
      if h < |s.handles| && s.handles[h].Deleting? then
        var b := s.handles[h].b;
        s.(blocks := Put(s, b, At(s, b).(freed := At(s, b).freed + 1)), fault := Touch(s, b),
           handles := s.handles[h := Null])
      else s
    case Ready(h) => Look(s, h)
    case Resume(h) => Look(s, h)
    case Suspend(h) =>
      if h < |s.handles| && s.handles[h].Owns? then
        var b := s.handles[h].b;
        s.(blocks := Put(s, b, SuspendBlock(At(s, b), |s.passed|)), fault := Touch(s, b),
           passed := s.passed + [b],
           resumed := if At(s, b).state == 1 then s.resumed + [|s.passed|] else s.resumed,
           lost := if Overwrites(s, a) then s.lost + [At(s, b).suspended.value] else s.lost)
      else s
    case Function(b, o) =>
      if b < |s.workers| && s.workers[b].Queued?
      then s.(workers := s.workers[b := Ran(o)], fault := Touch(s, b)) else s
    case Publish(b) =>
      if b < |s.workers| && s.workers[b].Ran? then
        s.(blocks := Put(s, b, PublishBlock(At(s, b), s.workers[b].outcome)), fault := Touch(s, b),
           workers := s.workers[b := Published(At(s, b).suspended, At(s, b).state)])
      else s
    case Schedule(b) =>
      if b < |s.workers| && s.workers[b].Published? then
        var w := s.workers[b];
        s.(workers := s.workers[b := Scheduled(w.st)],
           resumed := match w.susp case Some(x) => s.resumed + [x] case None => s.resumed)
      else s
    case Release(b) =>
      if b < |s.workers| && s.workers[b].Scheduled? then
        if s.workers[b].st == -1 then
          s.(blocks := Put(s, b, At(s, b).(freed := At(s, b).freed + 1)), fault := Touch(s, b),
             workers := s.workers[b := Finished])
        else s.(workers := s.workers[b := Finished])
      else s
  }

  function Run(s: State, acts: seq<Act>): State
    decreases |acts|
  {
    if acts == [] then s else Step(Run(s, acts[..|acts| - 1]), acts[|acts| - 1])
  }

  // Nothing spawned yet, and some null handles.
  function Start(handles: nat): State { State([], [], seq(handles, _ => Null), [], [], [], false) }

  // ---- the invariant ----

  predicate Refers(s: State, h: nat, b: nat) {
    h < |s.handles| && (s.handles[h] == Owns(b) || s.handles[h] == Deleting(b))
  }

  ghost predicate Referred(s: State, b: nat) { exists h :: Refers(s, h, b) }

  // One block, its worker, and whether a handle refers to it.
  ghost predicate BlockOk(x: Block, w: Worker, referred: bool) {
    match w
    case Queued => Waiting(x, referred)
    case Ran(_) => Waiting(x, referred)
    case Published(_, st) => Done(x, referred, st) && (st == 0 || st == -1)
    case Scheduled(st) => Done(x, referred, st) && (st == 0 || st == -1)
    case Finished => Done(x, referred, 0)
  }

  ghost predicate Waiting(x: Block, referred: bool) {
    && x.outcome.None? && x.freed == 0
    && (if referred then x.state == 0 else x.state == -1)
  }

  // Detached before the end: the worker will delete.  Otherwise the owner does.
  ghost predicate Done(x: Block, referred: bool, st: int) {
    && x.state == 1 && x.outcome.Some? && x.suspended.None?
    && (if st == -1 then !referred && x.freed == 0 else x.freed == if referred then 0 else 1)
  }

  // Where awaiter a is: resumed, overwritten, stored in its block, or in the hand of the worker.
  function Stored(s: State, a: nat, b: nat): nat { if At(s, b).suspended == Some(a) then 1 else 0 }

  function InHand(s: State, a: nat, b: nat): nat {
    if b < |s.workers| && s.workers[b].Published? && s.workers[b].susp == Some(a) then 1 else 0
  }

  ghost predicate AwaiterOk(s: State, a: nat) {
    if a < |s.passed| then
      var b := s.passed[a];
      && b < |s.blocks| && Times(s.resumed, a) + Times(s.lost, a) + Stored(s, a, b) + InHand(s, a, b) == 1
      && (a in s.resumed ==> s.blocks[b].outcome.Some?)
    else Times(s.resumed, a) == 0 && Times(s.lost, a) == 0
  }

  // What a block or a worker holds was passed for that block.
  ghost predicate Belongs(s: State, b: nat, o: Option<nat>) {
    o.Some? ==> o.value < |s.passed| && s.passed[o.value] == b
  }

  ghost predicate HandlesOk(s: State) {
    && (forall h :: 0 <= h < |s.handles| && !s.handles[h].Null? ==> s.handles[h].b < |s.blocks|)
    && (forall h, k, b :: Refers(s, h, b) && Refers(s, k, b) ==> h == k)
    && (forall h :: 0 <= h < |s.handles| && s.handles[h].Deleting? ==> At(s, s.handles[h].b).state == 1)
  }

  ghost predicate BlockAt(s: State, b: nat)
    requires b < |s.blocks| == |s.workers|
  {
    && BlockOk(s.blocks[b], s.workers[b], Referred(s, b))
    && Belongs(s, b, s.blocks[b].suspended)
    && (s.workers[b].Published? ==> Belongs(s, b, s.workers[b].susp))
  }

  ghost predicate Inv(s: State) {
    && !s.fault && |s.workers| == |s.blocks| && HandlesOk(s)
    && (forall b :: 0 <= b < |s.blocks| ==> BlockAt(s, b))
    && (forall a :: AwaiterOk(s, a))
  }

  // ---- it is kept ----

  // The same blocks are referred to, whichever handles do it.
  ghost predicate SameReferred(s: State, s': State) {
    forall b: nat :: Referred(s, b) <==> Referred(s', b)
  }

  lemma SpawnInv(s: State)
    requires Inv(s)
    ensures Inv(Step(s, Spawn))
  {
    var s' := Step(s, Spawn);
    var n := |s.blocks|;
    assert Refers(s', |s.handles|, n);
    assert forall h: nat, b :: h < |s.handles| ==> (Refers(s', h, b) <==> Refers(s, h, b));
    assert forall h: nat, b :: Refers(s', h, b) && h >= |s.handles| ==> h == |s.handles| && b == n;
    assert forall h: nat, b: nat :: Refers(s, h, b) ==> b < n;
    assert HandlesOk(s');
    forall b | 0 <= b < |s'.blocks| ensures BlockAt(s', b) {
      if b < n {
        assert BlockAt(s, b);
        if Referred(s, b) {
          var h :| Refers(s, h, b);
          assert Refers(s', h, b);
        }
        if Referred(s', b) {
          var h :| Refers(s', h, b);
          assert Refers(s, h, b);
        }
      }
    }
    forall a: nat ensures AwaiterOk(s', a) {
      assert AwaiterOk(s, a);
    }
  }

  // Steps that only rearrange handles.
  lemma KeepHandles(s: State, s': State)
    requires Inv(s) && s' == s.(handles := s'.handles) && HandlesOk(s') && SameReferred(s, s')
    ensures Inv(s')
  {
    forall b | 0 <= b < |s'.blocks| ensures BlockAt(s', b) {
      assert BlockAt(s, b);
    }
    forall a: nat ensures AwaiterOk(s', a) {
      assert AwaiterOk(s, a);
    }
  }

  lemma MoveInv(s: State, h: nat)
    requires Inv(s) && h < |s.handles| && !s.handles[h].Deleting?
    ensures Inv(Step(s, Move(h)))
  {
    var s' := Step(s, Move(h));
    forall b ensures Referred(s, b) <==> Referred(s', b) {
      if Referred(s, b) {
        var k :| Refers(s, k, b);
        assert Refers(s', if k == h then |s.handles| else k, b);
      }
      if Referred(s', b) {
        var k :| Refers(s', k, b);
        assert Refers(s, if k == |s.handles| then h else k, b);
      }
    }
    forall k, m, b | Refers(s', k, b) && Refers(s', m, b) ensures k == m {
      assert Refers(s, if k == |s.handles| then h else k, b);
      assert Refers(s, if m == |s.handles| then h else m, b);
    }
    KeepHandles(s, s');
  }

  lemma SwapInv(s: State, h: nat, k: nat)
    requires Inv(s) && h < |s.handles| && k < |s.handles| && !s.handles[h].Deleting? && !s.handles[k].Deleting?
    ensures Inv(Step(s, Swap(h, k)))
  {
    var s' := Step(s, Swap(h, k));
    forall b ensures Referred(s, b) <==> Referred(s', b) {
      if Referred(s, b) {
        var m :| Refers(s, m, b);
        assert Refers(s', Other(h, k, m), b);
      }
      if Referred(s', b) {
        var m :| Refers(s', m, b);
        assert Refers(s, Other(h, k, m), b);
      }
    }
    forall m, n, b | Refers(s', m, b) && Refers(s', n, b) ensures m == n {
      assert Refers(s, Other(h, k, m), b) && Refers(s, Other(h, k, n), b);
    }
    KeepHandles(s, s');
  }

  function Other(h: nat, k: nat, m: nat): nat { if m == h then k else if m == k then h else m }

  // Handle h lets go of block b: nothing refers to b any more, and nothing else changes.
  lemma LetGo(s: State, s': State, h: nat, b: nat)
    requires HandlesOk(s) && h < |s.handles| && Refers(s, h, b)
    requires s'.handles == s.handles[h := Null]
    ensures !Referred(s', b) && forall c: nat :: c != b ==> (Referred(s, c) <==> Referred(s', c))
  {
    if Referred(s', b) {
      var k :| Refers(s', k, b);
      assert Refers(s, k, b);
    }
    forall c: nat | c != b ensures Referred(s, c) <==> Referred(s', c) {
      if Referred(s, c) {
        var k :| Refers(s, k, c);
        assert Refers(s', k, c);
      }
      if Referred(s', c) {
        var k :| Refers(s', k, c);
        assert Refers(s, k, c);
      }
    }
  }

  lemma DetachInv(s: State, h: nat)
    requires Inv(s) && h < |s.handles| && s.handles[h].Owns?
    ensures Inv(Step(s, Detach(h)))
  {
    var s' := Step(s, Detach(h));
    var b := s.handles[h].b;
    assert Refers(s, h, b) && BlockAt(s, b);
    if s.blocks[b].state == 1 {
      assert s'.blocks == s.blocks;
      forall c: nat ensures Referred(s, c) <==> Referred(s', c) {
        assert forall k :: Refers(s, k, c) <==> Refers(s', k, c);
      }
      assert forall k, c :: Refers(s', k, c) ==> Refers(s, k, c);
      KeepHandles(s, s');
    } else {
      LetGo(s, s', h, b);
      assert forall k, c :: Refers(s', k, c) ==> Refers(s, k, c);
      forall c | 0 <= c < |s'.blocks| ensures BlockAt(s', c) {
        assert BlockAt(s, c);
      }
      forall a: nat ensures AwaiterOk(s', a) {
        assert AwaiterOk(s, a);
      }
    }
  }

  lemma DeleteInv(s: State, h: nat)
    requires Inv(s) && h < |s.handles| && s.handles[h].Deleting?
    ensures Inv(Step(s, Delete(h)))
  {
    var s' := Step(s, Delete(h));
    var b := s.handles[h].b;
    assert Refers(s, h, b) && BlockAt(s, b);
    LetGo(s, s', h, b);
    assert forall k, c :: Refers(s', k, c) ==> Refers(s, k, c);
    forall c | 0 <= c < |s'.blocks| ensures BlockAt(s', c) {
      assert BlockAt(s, c);
    }
    forall a: nat ensures AwaiterOk(s', a) {
      assert AwaiterOk(s, a);
    }
  }

  lemma SuspendInv(s: State, h: nat)
    requires Inv(s) && h < |s.handles| && s.handles[h].Owns?
    ensures Inv(Step(s, Suspend(h)))
  {
    var s' := Step(s, Suspend(h));
    var b := s.handles[h].b;
    assert Refers(s, h, b) && BlockAt(s, b);
    assert forall k, c :: Refers(s', k, c) <==> Refers(s, k, c);
    forall c | 0 <= c < |s'.blocks| ensures BlockAt(s', c) {
      assert BlockAt(s, c);
    }
    forall a: nat ensures AwaiterOk(s', a) {
      SuspendAwaiter(s, h, a);
    }
  }

  lemma SuspendAwaiter(s: State, h: nat, a: nat)
    requires Inv(s) && h < |s.handles| && s.handles[h].Owns?
    requires var b := s.handles[h].b; b < |s.blocks| && BlockAt(s, b) && Referred(s, b)
    ensures AwaiterOk(Step(s, Suspend(h)), a)
  {
    assert AwaiterOk(s, a);
    var before := s.blocks[s.handles[h].b].suspended;
    TimesMore(s.resumed, |s.passed|, a);
    if before.Some? { TimesMore(s.lost, before.value, a); }
    if a < |s.passed| { PassedBefore(s, h, a); } else { PassedNow(s, h, a); }
  }

  lemma PassedBefore(s: State, h: nat, a: nat)
    requires |s.workers| == |s.blocks| && h < |s.handles| && s.handles[h].Owns? && a < |s.passed| && AwaiterOk(s, a)
    requires var b := s.handles[h].b;
             && b < |s.blocks| && s.blocks[b].freed == 0 && Belongs(s, b, s.blocks[b].suspended)
             && (s.blocks[b].suspended.Some? ==>
                   var x := s.blocks[b].suspended.value;
                   Times(s.lost + [x], a) == Times(s.lost, a) + if x == a then 1 else 0)
    requires Times(s.resumed + [|s.passed|], a) == Times(s.resumed, a)
    requires a in s.resumed <==> Times(s.resumed, a) > 0
    ensures AwaiterOk(Step(s, Suspend(h)), a)
  {
  }

  lemma PassedNow(s: State, h: nat, a: nat)
    requires Inv(s) && h < |s.handles| && s.handles[h].Owns? && a >= |s.passed|
    requires var b := s.handles[h].b; b < |s.blocks| && BlockAt(s, b) && Referred(s, b)
    ensures AwaiterOk(Step(s, Suspend(h)), a)
  {
    assert AwaiterOk(s, a);
    var b, s' := s.handles[h].b, Step(s, Suspend(h));
    var x := s.blocks[b];
    TimesMore(s.resumed, |s.passed|, a);
    if x.suspended.Some? { TimesMore(s.lost, x.suspended.value, a); }
    assert Times(s'.lost, a) == 0;
    assert Times(s'.resumed, a) == if x.state == 1 && a == |s.passed| then 1 else 0;
    assert InHand(s', a, b) == 0;
    assert a == |s.passed| ==> (Stored(s', a, b) == if x.state == 1 then 0 else 1);
    assert a in s'.resumed ==> x.state == 1;
  }

  // Steps of the worker of block b that leave the handles alone.
  lemma KeepWorker(s: State, s': State, b: nat)
    requires Inv(s) && b < |s.blocks| && |s'.workers| == |s'.blocks| == |s.blocks|
    requires s' == s.(blocks := s.blocks[b := s'.blocks[b]], workers := s.workers[b := s'.workers[b]],
                      resumed := s'.resumed, fault := s'.fault)
    requires !s'.fault && (s.blocks[b].state == 1 ==> s'.blocks[b].state == 1)
    requires BlockOk(s'.blocks[b], s'.workers[b], Referred(s, b))
    requires Belongs(s, b, s'.blocks[b].suspended)
    requires s'.workers[b].Published? ==> Belongs(s, b, s'.workers[b].susp)
    requires forall a :: AwaiterOk(s', a)
    ensures Inv(s')
  {
    assert forall k, c :: Refers(s', k, c) <==> Refers(s, k, c);
    forall c | 0 <= c < |s'.blocks| ensures BlockAt(s', c) {
      assert BlockAt(s, c);
    }
  }

  lemma FunctionInv(s: State, b: nat, o: Outcome)
    requires Inv(s) && b < |s.workers| && s.workers[b].Queued?
    ensures Inv(Step(s, Function(b, o)))
  {
    var s' := Step(s, Function(b, o));
    assert BlockAt(s, b);
    forall a: nat ensures AwaiterOk(s', a) {
      assert AwaiterOk(s, a);
    }
    KeepWorker(s, s', b);
  }

  lemma PublishInv(s: State, b: nat)
    requires Inv(s) && b < |s.workers| && s.workers[b].Ran?
    ensures Inv(Step(s, Publish(b)))
  {
    var s' := Step(s, Publish(b));
    assert BlockAt(s, b);
    forall a: nat ensures AwaiterOk(s', a) {
      assert AwaiterOk(s, a);
    }
    KeepWorker(s, s', b);
  }

  lemma ScheduleInv(s: State, b: nat)
    requires Inv(s) && b < |s.workers| && s.workers[b].Published?
    ensures Inv(Step(s, Schedule(b)))
  {
    var s' := Step(s, Schedule(b));
    assert BlockAt(s, b);
    forall a: nat ensures AwaiterOk(s', a) {
      assert AwaiterOk(s, a);
      ScheduleAwaiter(s, b, a);
    }
    KeepWorker(s, s', b);
  }

  lemma ScheduleAwaiter(s: State, b: nat, a: nat)
    requires |s.workers| == |s.blocks| && b < |s.workers| && s.workers[b].Published?
    requires BlockAt(s, b) && AwaiterOk(s, a)
    ensures AwaiterOk(Step(s, Schedule(b)), a)
  {
    if s.workers[b].susp.Some? { TimesMore(s.resumed, s.workers[b].susp.value, a); }
  }

  lemma ReleaseInv(s: State, b: nat)
    requires Inv(s) && b < |s.workers| && s.workers[b].Scheduled?
    ensures Inv(Step(s, Release(b)))
  {
    var s' := Step(s, Release(b));
    assert BlockAt(s, b);
    forall a: nat ensures AwaiterOk(s', a) {
      assert AwaiterOk(s, a);
    }
    KeepWorker(s, s', b);
  }

  lemma StepInv(s: State, a: Act)
    requires Inv(s)
    ensures Inv(Step(s, a))
  {
    match a
    case Spawn => SpawnInv(s);
    case Move(h) => if h < |s.handles| && !s.handles[h].Deleting? { MoveInv(s, h); }
    case Swap(h, k) =>
      if h < |s.handles| && k < |s.handles| && !s.handles[h].Deleting? && !s.handles[k].Deleting? {
        SwapInv(s, h, k);
      }
    case Detach(h) => if h < |s.handles| && s.handles[h].Owns? { DetachInv(s, h); }
    case Delete(h) => if h < |s.handles| && s.handles[h].Deleting? { DeleteInv(s, h); }
    case Ready(h) => LookInv(s, h);
    case Resume(h) => LookInv(s, h);
    case Suspend(h) =>
      if h < |s.handles| && s.handles[h].Owns? { SuspendInv(s, h); }
    case Function(b, o) => if b < |s.workers| && s.workers[b].Queued? { FunctionInv(s, b, o); }
    case Publish(b) => if b < |s.workers| && s.workers[b].Ran? { PublishInv(s, b); }
    case Schedule(b) => if b < |s.workers| && s.workers[b].Published? { ScheduleInv(s, b); }
    case Release(b) => if b < |s.workers| && s.workers[b].Scheduled? { ReleaseInv(s, b); }
  }

  lemma LookInv(s: State, h: nat)
    requires Inv(s)
    ensures Look(s, h) == s
  {
    if h < |s.handles| && s.handles[h].Owns? {
      assert Refers(s, h, s.handles[h].b) && BlockAt(s, s.handles[h].b);
    }
  }

  lemma {:induction false} RunInv(handles: nat, acts: seq<Act>)
    ensures Inv(Run(Start(handles), acts))
    decreases |acts|
  {
    if acts == [] {
      var s := Start(handles);
      assert forall h, b :: !Refers(s, h, b);
      assert forall a :: AwaiterOk(s, a);
    } else {
      RunInv(handles, acts[..|acts| - 1]);
      StepInv(Run(Start(handles), acts[..|acts| - 1]), acts[|acts| - 1]);
    }
  }

  // ---- what it means ----

  // On every run: no access to a deleted block, at most one handle per block, and each block is
  // deleted at most once, only after its outcome was stored and its owner let go; once its worker
  // is done, it has been deleted exactly if the owner has let go.
  lemma FreedExactlyOnce(handles: nat, acts: seq<Act>, b: nat)
    ensures var s := Run(Start(handles), acts);
            && !s.fault
            && (forall h, k :: Refers(s, h, b) && Refers(s, k, b) ==> h == k)
            && (b < |s.blocks| ==>
                  && |s.workers| == |s.blocks| && s.blocks[b].freed <= 1
                  && (s.blocks[b].freed == 1 ==> s.blocks[b].outcome.Some? && !Referred(s, b))
                  && (s.workers[b].Finished? ==> (s.blocks[b].freed == 1 <==> !Referred(s, b))))
  {
    RunInv(handles, acts);
    var s := Run(Start(handles), acts);
    if b < |s.blocks| { assert BlockAt(s, b); }
  }

  // On every run: an awaiter is resumed at most once, and only after the outcome of its block is
  // stored; it is not both resumed and overwritten; and once the worker is past scheduling, it was
  // resumed exactly once unless it was overwritten.
  lemma ResumedExactlyOnce(handles: nat, acts: seq<Act>, a: nat)
    ensures var s := Run(Start(handles), acts);
            && Times(s.resumed, a) + Times(s.lost, a) <= 1
            && (a in s.resumed ==> a < |s.passed| && s.passed[a] < |s.blocks| && s.blocks[s.passed[a]].outcome.Some?)
            && (a < |s.passed| ==> s.passed[a] < |s.workers|)
            && (a < |s.passed| && (s.workers[s.passed[a]].Scheduled? || s.workers[s.passed[a]].Finished?) ==>
                  (Times(s.resumed, a) == 1 <==> a !in s.lost))
  {
    RunInv(handles, acts);
    ResumedAt(Run(Start(handles), acts), a);
  }

  lemma ResumedAt(s: State, a: nat)
    requires Inv(s)
    ensures Times(s.resumed, a) + Times(s.lost, a) <= 1
    ensures a in s.resumed ==> a < |s.passed| && s.passed[a] < |s.blocks| && s.blocks[s.passed[a]].outcome.Some?
    ensures a < |s.passed| ==> s.passed[a] < |s.workers|
    ensures a < |s.passed| && (s.workers[s.passed[a]].Scheduled? || s.workers[s.passed[a]].Finished?) ==>
              (Times(s.resumed, a) == 1 <==> a !in s.lost)
  {
    assert AwaiterOk(s, a);
    TimesMore(s.resumed, a, a);
    TimesMore(s.lost, a, a);
    if a < |s.passed| { assert BlockAt(s, s.passed[a]); }
  }

  predicate OverwritesAt(s: State, acts: seq<Act>, k: nat)
    requires k < |acts|
  {
    Overwrites(Run(s, acts[..k]), acts[k])
  }

  // No `await_suspend` of the run meets an unfinished block with an awaiter.
  ghost predicate NeverOverwrites(s: State, acts: seq<Act>) {
    forall k :: 0 <= k < |acts| ==> !OverwritesAt(s, acts, k)
  }

  lemma SamePrefix(s: State, acts: seq<Act>, n: nat, k: nat)
    requires k < n <= |acts|
    ensures OverwritesAt(s, acts[..n], k) == OverwritesAt(s, acts, k)
  {
    assert acts[..n][..k] == acts[..k];
  }

  lemma NeverSnoc(s: State, acts: seq<Act>)
    requires acts != []
    ensures var n := |acts| - 1;
            NeverOverwrites(s, acts) <==> NeverOverwrites(s, acts[..n]) && !OverwritesAt(s, acts, n)
  {
    var n := |acts| - 1;
    forall k | 0 <= k < n ensures OverwritesAt(s, acts[..n], k) == OverwritesAt(s, acts, k) {
      SamePrefix(s, acts, n, k);
    }
  }

  // An awaiter is overwritten on a run exactly when some `await_suspend` does meet one.
  lemma {:induction false} NoneLostExactly(s: State, acts: seq<Act>)
    requires s.lost == []
    ensures Run(s, acts).lost == [] <==> NeverOverwrites(s, acts)
    decreases |acts|
  {
    if acts != [] {
      var n := |acts| - 1;
      NoneLostExactly(s, acts[..n]);
      NeverSnoc(s, acts);
      LostStep(Run(s, acts[..n]), acts[n]);
    }
  }

  lemma LostStep(s: State, a: Act)
    ensures Step(s, a).lost == [] <==> s.lost == [] && !Overwrites(s, a)
  {
  }

  // So, once every worker is past scheduling, every awaiter was resumed exactly once if and only if
  // nobody called `await_suspend` on an unfinished block with an awaiter.
  lemma AllResumedExactly(handles: nat, acts: seq<Act>)
    requires var s := Run(Start(handles), acts);
             forall b :: 0 <= b < |s.workers| ==> s.workers[b].Scheduled? || s.workers[b].Finished?
    ensures var s := Run(Start(handles), acts);
            (forall a: nat :: a < |s.passed| ==> Times(s.resumed, a) == 1) <==> NeverOverwrites(Start(handles), acts)
  {
    NoneLostExactly(Start(handles), acts);
    RunInv(handles, acts);
    AllOrLost(Run(Start(handles), acts));
  }

  lemma AllOrLost(s: State)
    requires Inv(s)
    requires forall b :: 0 <= b < |s.workers| ==> s.workers[b].Scheduled? || s.workers[b].Finished?
    ensures (forall a: nat :: a < |s.passed| ==> Times(s.resumed, a) == 1) <==> s.lost == []
  {
    forall a: nat | a < |s.passed| ensures Times(s.resumed, a) == 1 <==> a !in s.lost {
      ResumedAt(s, a);
    }
    if s.lost != [] {
      assert s.lost[0] in s.lost;
      LostWasPassed(s, s.lost[0]);
    }
  }

  lemma LostWasPassed(s: State, a: nat)
    requires Inv(s) && a in s.lost
    ensures a < |s.passed|
  {
    assert AwaiterOk(s, a);
    TimesMore(s.lost, a, a);
  }

  // It does happen: two calls of `await_suspend` before the task has finished.
  lemma SecondAwaiterWins(o: Outcome)
    ensures var acts := [Spawn, Suspend(0), Suspend(0), Function(0, o), Publish(0), Schedule(0), Release(0)];
            var s := Run(Start(0), acts);
            s.passed == [0, 0] && s.resumed == [1] && s.lost == [0] && s.workers == [Finished]
  {
    var s3 := State([Block(0, None, Some(1), 0)], [Queued], [Owns(0)], [0, 0], [], [0], false);
    TwoAwaiters(s3);
    LastOneResumed(s3, o);
    Prefixes(Start(0), [Spawn, Suspend(0), Suspend(0), Function(0, o), Publish(0), Schedule(0), Release(0)]);
  }

  lemma TwoAwaiters(s3: State)
    requires s3 == State([Block(0, None, Some(1), 0)], [Queued], [Owns(0)], [0, 0], [], [0], false)
    ensures Step(Step(Step(Start(0), Spawn), Suspend(0)), Suspend(0)) == s3
  {
    assert Step(Step(Start(0), Spawn), Suspend(0)) ==
           State([Block(0, None, Some(0), 0)], [Queued], [Owns(0)], [0], [], [], false);
  }

  lemma LastOneResumed(s3: State, o: Outcome)
    requires s3 == State([Block(0, None, Some(1), 0)], [Queued], [Owns(0)], [0, 0], [], [0], false)
    ensures var s := Step(Step(Step(Step(s3, Function(0, o)), Publish(0)), Schedule(0)), Release(0));
            s.passed == [0, 0] && s.resumed == [1] && s.lost == [0] && s.workers == [Finished]
  {
    var s5 := Step(Step(s3, Function(0, o)), Publish(0));
    assert s5.workers == [Published(Some(1), 0)] && s5.resumed == [];
    assert Step(s5, Schedule(0)).workers == [Scheduled(0)] && Step(s5, Schedule(0)).resumed == [1];
  }

  // The states a run of seven choices goes through.
  lemma Prefixes(s: State, acts: seq<Act>)
    requires |acts| == 7
    ensures Run(s, acts) ==
            Step(Step(Step(Step(Step(Step(Step(s, acts[0]), acts[1]), acts[2]), acts[3]), acts[4]), acts[5]), acts[6])
  {
    assert acts[..6][..5] == acts[..5] && acts[..5][..4] == acts[..4] && acts[..4][..3] == acts[..3];
    assert acts[..3][..2] == acts[..2] && acts[..2][..1] == acts[..1] && acts[..1][..0] == [];
    assert Run(s, acts[..1]) == Step(s, acts[0]);
    assert Run(s, acts[..2]) == Step(Run(s, acts[..1]), acts[1]);
    assert Run(s, acts[..3]) == Step(Run(s, acts[..2]), acts[2]);
    assert Run(s, acts[..4]) == Step(Run(s, acts[..3]), acts[3]);
    assert Run(s, acts[..5]) == Step(Run(s, acts[..4]), acts[4]);
    assert Run(s, acts[..6]) == Step(Run(s, acts[..5]), acts[5]);
  }

  // ---- the outcome ----

  // Choice k of the run ended the function of block b, with outcome o.
  ghost predicate EndedAt(handles: nat, acts: seq<Act>, k: nat, b: nat, o: Outcome) {
    && k < |acts| && acts[k] == Function(b, o)
    && Waits(Run(Start(handles), acts[..k]), b)
  }

  predicate Waits(s: State, b: nat) { b < |s.workers| && s.workers[b].Queued? }

  ghost predicate Ended(handles: nat, acts: seq<Act>, b: nat, o: Outcome) {
    exists k: nat :: EndedAt(handles, acts, k, b, o)
  }

  predicate PastPublish(w: Worker) { w.Published? || w.Scheduled? || w.Finished? }

  // The worker of block b and the outcome in the block, before and after a choice.
  ghost predicate OutcomeMoves(w: Worker, x: Option<Outcome>, a: Act, b: nat, w': Worker, x': Option<Outcome>) {
    match w
    case Queued => x' == x && if a.Function? && a.b == b then w' == Ran(a.outcome) else w' == w
    case Ran(o) => if a == Publish(b) then w'.Published? && x' == Some(o) else w' == w && x' == x
    case _ => PastPublish(w') && x' == x
  }

  lemma OutcomeStep(s: State, a: Act, b: nat)
    requires |s.workers| == |s.blocks| && b < |s.blocks|
    ensures var s' := Step(s, a);
            && b < |s'.workers| == |s'.blocks|
            && OutcomeMoves(s.workers[b], s.blocks[b].outcome, a, b, s'.workers[b], s'.blocks[b].outcome)
  {
  }

  lemma EarlierEnd(handles: nat, acts: seq<Act>, n: nat, b: nat, o: Outcome)
    requires n <= |acts| && Ended(handles, acts[..n], b, o)
    ensures Ended(handles, acts, b, o)
  {
    var k: nat :| EndedAt(handles, acts[..n], k, b, o);
    assert acts[..n][..k] == acts[..k];
    assert EndedAt(handles, acts, k, b, o);
  }

  // What is known of a worker and its block.
  ghost predicate OutcomeOk(handles: nat, acts: seq<Act>, b: nat, w: Worker, x: Option<Outcome>) {
    && (x.Some? <==> PastPublish(w))
    && (w.Ran? ==> Ended(handles, acts, b, w.outcome))
    && (x.Some? ==> Ended(handles, acts, b, x.value))
  }

  // On every run: a block has an outcome exactly from the moment its worker has published it, and it is
  // the one with which the function of that block ended.
  lemma {:induction false} OutcomeIsReturned(handles: nat, acts: seq<Act>, b: nat)
    requires b < |Run(Start(handles), acts).blocks|
    ensures var s := Run(Start(handles), acts);
            |s.workers| == |s.blocks| && OutcomeOk(handles, acts, b, s.workers[b], s.blocks[b].outcome)
    decreases |acts|
  {
    var n := |acts| - 1;
    RunInv(handles, acts[..n]);
    var s := Run(Start(handles), acts[..n]);
    if b < |s.blocks| {
      OutcomeIsReturned(handles, acts[..n], b);
      OutcomeStep(s, acts[n], b);
      OutcomeNext(handles, acts, n, b, s);
    }
  }

  lemma OutcomeNext(handles: nat, acts: seq<Act>, n: nat, b: nat, s: State)
    requires n + 1 == |acts| && s == Run(Start(handles), acts[..n]) && b < |s.blocks| == |s.workers|
    requires OutcomeOk(handles, acts[..n], b, s.workers[b], s.blocks[b].outcome)
    requires var s' := Step(s, acts[n]);
             && b < |s'.workers| == |s'.blocks|
             && OutcomeMoves(s.workers[b], s.blocks[b].outcome, acts[n], b, s'.workers[b], s'.blocks[b].outcome)
    ensures var s' := Step(s, acts[n]); OutcomeOk(handles, acts, b, s'.workers[b], s'.blocks[b].outcome)
  {
    var w, x := s.workers[b], s.blocks[b].outcome;
    if w.Ran? { EarlierEnd(handles, acts, n, b, w.outcome); }
    if x.Some? { EarlierEnd(handles, acts, n, b, x.value); }
    if w.Queued? && acts[n].Function? && acts[n].b == b {
      assert EndedAt(handles, acts, n, b, acts[n].outcome);
    }
  }

  // A function ends once.
  lemma EndedOnce(handles: nat, acts: seq<Act>, k: nat, m: nat, b: nat, o: Outcome, p: Outcome)
    requires EndedAt(handles, acts, k, b, o) && EndedAt(handles, acts, m, b, p)
    ensures k == m && o == p
  {
    if k < m {
      NotQueuedAgain(handles, acts, k, m, b, o);
    } else if m < k {
      NotQueuedAgain(handles, acts, m, k, b, p);
    }
  }

  predicate Begun(s: State, b: nat) { b < |s.workers| && !s.workers[b].Queued? }

  lemma {:induction false} NotQueuedAgain(handles: nat, acts: seq<Act>, k: nat, m: nat, b: nat, o: Outcome)
    requires EndedAt(handles, acts, k, b, o) && k < m <= |acts|
    ensures Begun(Run(Start(handles), acts[..m]), b)
    decreases m
  {
    if k < m - 1 { NotQueuedAgain(handles, acts, k, m - 1, b, o); }
    BegunNext(handles, acts, m, b);
  }

  lemma BegunNext(handles: nat, acts: seq<Act>, m: nat, b: nat)
    requires 0 < m <= |acts|
    requires var s, a := Run(Start(handles), acts[..m - 1]), acts[m - 1];
             Begun(s, b) || (Waits(s, b) && a.Function? && a.b == b)
    ensures Begun(Run(Start(handles), acts[..m]), b)
  {
    var s := Run(Start(handles), acts[..m - 1]);
    assert acts[..m][..m - 1] == acts[..m - 1];
    RunInv(handles, acts[..m - 1]);
    BegunStep(s, acts[m - 1], b);
  }

  lemma BegunStep(s: State, a: Act, b: nat)
    requires Inv(s) && (Begun(s, b) || (Waits(s, b) && a.Function? && a.b == b))
    ensures Begun(Step(s, a), b)
  {
    OutcomeStep(s, a, b);
  }
}
