/** Any number of tasks, each inside one multi-mutex `lock(...)` at a time, interleaved at every
    lock, try_lock and unlock: the back-off never deadlocks. */
module LockSystem {
  import opened Options
  import opened Sequences
  import opened MultiLock

  // Where a task is.  `held` lists what it has acquired, in order: a prefix of the rotated list.
  datatype Task =
    | Idle
    | Blocking(ms: seq<nat>, start: nat)                               // in `co_await m1.lock()`
    | Trying(ms: seq<nat>, start: nat, held: seq<nat>)                 // about to try the next mutex
    | Undoing(ms: seq<nat>, start: nat, failed: nat, held: seq<nat>)   // releasing, latest first
    | Holding(ms: seq<nat>, held: seq<nat>)                            // `lock` returned its guards

  // owner[m] is the task that holds mutex m.
  datatype System = System(owner: seq<Option<nat>>, tasks: seq<Task>)

  datatype Act = Call(t: nat, ms: seq<nat>) | Go(t: nat) | Drop(t: nat, k: nat)

  predicate Proper(s: System, ms: seq<nat>) {
    |ms| >= 2 && (forall i :: 0 <= i < |ms| ==> ms[i] < |s.owner|) && Distinct(ms)
  }

  function Held(t: Task): seq<nat> {
    match t
    case Trying(_, _, held) => held
    case Undoing(_, _, _, held) => held
    case Holding(_, held) => held
    case _ => []
  }

  function Own(s: System, m: nat, o: Option<nat>): seq<Option<nat>> {
    if m < |s.owner| then s.owner[m := o] else s.owner
  }

  predicate Free(s: System, m: nat) { m < |s.owner| && s.owner[m] == None }

  // One step of task t inside `lock(...)`.
  function Advance(s: System, t: nat): System
    requires t < |s.tasks|
  {
    match s.tasks[t]
    case Blocking(ms, start) =>
      if ms == [] then s else
        var m := Rotated(ms, start)[0];
        if Free(s, m) then System(Own(s, m, Some(t)), s.tasks[t := Trying(ms, start, [m])]) else s
    case Trying(ms, start, held) =>
      if |held| >= |ms| then s.(tasks := s.tasks[t := Holding(ms, held)])
      else
        var m := Rotated(ms, start)[|held|];
        if Free(s, m) then System(Own(s, m, Some(t)), s.tasks[t := Trying(ms, start, held + [m])])
        else s.(tasks := s.tasks[t := Undoing(ms, start, |held|, held)])
    case Undoing(ms, start, failed, held) =>
      if held == [] then
        s.(tasks := s.tasks[t := Blocking(ms, if ms == [] then 0 else (start + failed) % |ms|)])
      else
        var n := |held| - 1;
        System(Own(s, held[n], None), s.tasks[t := Undoing(ms, start, failed, held[..n])])
    case _ => s
  }

  // One scheduling choice: a call, a step inside a call, or the destruction of one guard.
  function Step(s: System, a: Act): System {
    match a
    case Call(t, ms) =>
      if t < |s.tasks| && s.tasks[t].Idle? && Proper(s, ms)
      then s.(tasks := s.tasks[t := Blocking(ms, 0)]) else s
    case Go(t) => if t < |s.tasks| then Advance(s, t) else s
    case Drop(t, k) =>
      if t < |s.tasks| && s.tasks[t].Holding? && k < |s.tasks[t].held| then
        var h := s.tasks[t].held;
        var rest := h[..k] + h[k + 1..];
        System(Own(s, h[k], None), s.tasks[t := if rest == [] then Idle else Holding(s.tasks[t].ms, rest)])
      else s
  }

  function Run(s: System, acts: seq<Act>): System
    decreases |acts|
  {
    if acts == [] then s else Step(Run(s, acts[..|acts| - 1]), acts[|acts| - 1])
  }

  function Start(mutexes: nat, tasks: nat): System {
    System(seq(mutexes, _ => None), seq(tasks, _ => Idle))
  }

  // The list a task is locking, and how far it has come, fit together.
  ghost predicate TaskOk(s: System, t: Task) {
    && Distinct(Held(t))
    && (forall k :: 0 <= k < |Held(t)| ==> Held(t)[k] < |s.owner|)
    && match t
       case Idle => true
       case Blocking(ms, start) => Proper(s, ms) && start < |ms|
       case Trying(ms, start, held) =>
         Proper(s, ms) && start < |ms| && 0 < |held| <= |ms| && held == Rotated(ms, start)[..|held|]
       case Undoing(ms, start, failed, held) =>
         && Proper(s, ms) && start < |ms| && |held| <= failed < |ms|
         && held == Rotated(ms, start)[..|held|]
       case Holding(ms, held) => Proper(s, ms) && held != []
  }

  // A mutex is owned by exactly the task that lists it as held.
  ghost predicate Inv(s: System) {
    && (forall t :: 0 <= t < |s.tasks| ==> TaskOk(s, s.tasks[t]))
    && (forall m :: 0 <= m < |s.owner| && s.owner[m].Some? ==>
          s.owner[m].value < |s.tasks| && m in Held(s.tasks[s.owner[m].value]))
    && (forall t, m :: 0 <= t < |s.tasks| && m in Held(s.tasks[t]) ==>
          m < |s.owner| && s.owner[m] == Some(t))
  }

  lemma KeepMove(s: System, t: nat, task: Task)
    requires Inv(s) && t < |s.tasks| && TaskOk(s, task) && Held(task) == Held(s.tasks[t])
    ensures Inv(s.(tasks := s.tasks[t := task]))
  {
  }

  lemma KeepAcquire(s: System, t: nat, m: nat, task: Task)
    requires Inv(s) && t < |s.tasks| && Free(s, m) && TaskOk(s, task)
    requires Held(task) == Held(s.tasks[t]) + [m]
    ensures Inv(System(s.owner[m := Some(t)], s.tasks[t := task]))
  {
    var s' := System(s.owner[m := Some(t)], s.tasks[t := task]);
    forall u, x | 0 <= u < |s'.tasks| && x in Held(s'.tasks[u])
      ensures x < |s'.owner| && s'.owner[x] == Some(u)
    {
      assert u != t ==> x in Held(s.tasks[u]);
    }
  }

  lemma KeepRelease(s: System, t: nat, k: nat, task: Task)
    requires Inv(s) && t < |s.tasks| && TaskOk(s, task) && k < |Held(s.tasks[t])|
    requires Held(task) == Held(s.tasks[t])[..k] + Held(s.tasks[t])[k + 1..]
    ensures Inv(System(Own(s, Held(s.tasks[t])[k], None), s.tasks[t := task]))
  {
    var h := Held(s.tasks[t]);
    assert h[k] in h && Distinct(h) by { assert TaskOk(s, s.tasks[t]); }
    WithoutOne(h, k);
    KeepReleaseOwners(s, t, k, task);
  }

  lemma WithoutOne(h: seq<nat>, k: nat)
    requires k < |h| && Distinct(h)
    ensures forall x :: x in h[..k] + h[k + 1..] <==> x in h && x != h[k]
  {
    var rest := h[..k] + h[k + 1..];
    forall x | x in h && x != h[k] ensures x in rest {
      var i :| 0 <= i < |h| && h[i] == x;
      assert rest[if i < k then i else i - 1] == x;
    }
  }

  lemma KeepReleaseOwners(s: System, t: nat, k: nat, task: Task)
    requires Inv(s) && t < |s.tasks| && TaskOk(s, task) && k < |Held(s.tasks[t])|
    requires forall x :: x in Held(task) <==> x in Held(s.tasks[t]) && x != Held(s.tasks[t])[k]
    ensures Inv(System(Own(s, Held(s.tasks[t])[k], None), s.tasks[t := task]))
  {
    var h := Held(s.tasks[t]);
    var s' := System(Own(s, h[k], None), s.tasks[t := task]);
    forall u, x | 0 <= u < |s'.tasks| && x in Held(s'.tasks[u])
      ensures x < |s'.owner| && s'.owner[x] == Some(u)
    {
      assert h[k] in h && x in Held(s.tasks[u]);
      if u != t { assert s.owner[x] == Some(u) && s.owner[h[k]] == Some(t); }
    }
  }

  lemma RotatedDistinct(ms: seq<nat>, start: nat)
    requires start < |ms| && Distinct(ms)
    ensures Distinct(Rotated(ms, start))
    ensures forall k :: 0 <= k < |ms| ==> Rotated(ms, start)[k] in ms
  {
    RotatedFirst(ms, start);
    var r := Rotated(ms, start);
    forall k | 0 <= k < |ms| ensures r[k] in ms {
      assert r[k] in Elements(r);
    }
  }

  lemma AdvanceInv(s: System, t: nat)
    requires Inv(s) && t < |s.tasks|
    ensures Inv(Advance(s, t))
  {
    assert TaskOk(s, s.tasks[t]);
    match s.tasks[t]
    case Blocking(ms, start) => AdvanceBlocking(s, t, ms, start);
    case Trying(ms, start, held) => AdvanceTrying(s, t, ms, start, held);
    case Undoing(ms, start, failed, held) => AdvanceUndoing(s, t, ms, start, failed, held);
    case _ =>
  }

  lemma AdvanceBlocking(s: System, t: nat, ms: seq<nat>, start: nat)
    requires Inv(s) && t < |s.tasks| && s.tasks[t] == Blocking(ms, start) && TaskOk(s, s.tasks[t])
    ensures Inv(Advance(s, t))
  {
    RotatedDistinct(ms, start);
    var m := Rotated(ms, start)[0];
    if Free(s, m) {
      assert [m] == Rotated(ms, start)[..1];
      KeepAcquire(s, t, m, Trying(ms, start, [m]));
    }
  }

  lemma AdvanceTrying(s: System, t: nat, ms: seq<nat>, start: nat, held: seq<nat>)
    requires Inv(s) && t < |s.tasks| && s.tasks[t] == Trying(ms, start, held) && TaskOk(s, s.tasks[t])
    ensures Inv(Advance(s, t))
  {
    var r := Rotated(ms, start);
    RotatedDistinct(ms, start);
    if |held| >= |ms| {
      KeepMove(s, t, Holding(ms, held));
    } else {
      var m := r[|held|];
      if Free(s, m) {
        assert held + [m] == r[..|held| + 1];
        KeepAcquire(s, t, m, Trying(ms, start, held + [m]));
      } else {
        KeepMove(s, t, Undoing(ms, start, |held|, held));
      }
    }
  }

  lemma AdvanceUndoing(s: System, t: nat, ms: seq<nat>, start: nat, failed: nat, held: seq<nat>)
    requires Inv(s) && t < |s.tasks| && s.tasks[t] == Undoing(ms, start, failed, held)
    requires TaskOk(s, s.tasks[t])
    ensures Inv(Advance(s, t))
  {
    if held == [] {
      KeepMove(s, t, Blocking(ms, (start + failed) % |ms|));
    } else {
      var n := |held| - 1;
      assert held[..n] == held[..n] + held[n + 1..];
      assert held[..n] == Rotated(ms, start)[..n];
      KeepRelease(s, t, n, Undoing(ms, start, failed, held[..n]));
    }
  }

  lemma StepInv(s: System, a: Act)
    requires Inv(s)
    ensures Inv(Step(s, a))
  {
    match a
    case Call(t, ms) =>
      if t < |s.tasks| && s.tasks[t].Idle? && Proper(s, ms) {
        KeepMove(s, t, Blocking(ms, 0));
      }
    case Go(t) =>
      if t < |s.tasks| { AdvanceInv(s, t); }
    case Drop(t, k) =>
      if t < |s.tasks| && s.tasks[t].Holding? && k < |s.tasks[t].held| { DropInv(s, t, k); }
  }

  lemma DropInv(s: System, t: nat, k: nat)
    requires Inv(s) && t < |s.tasks| && s.tasks[t].Holding? && k < |s.tasks[t].held|
    ensures Inv(Step(s, Drop(t, k)))
  {
    var h := s.tasks[t].held;
    var rest := h[..k] + h[k + 1..];
    assert TaskOk(s, s.tasks[t]);
    KeepRelease(s, t, k, if rest == [] then Idle else Holding(s.tasks[t].ms, rest));
  }

  lemma {:induction false} RunInv(mutexes: nat, tasks: nat, acts: seq<Act>)
    ensures Inv(Run(Start(mutexes, tasks), acts))
    decreases |acts|
  {
    if acts != [] {
      RunInv(mutexes, tasks, acts[..|acts| - 1]);
      StepInv(Run(Start(mutexes, tasks), acts[..|acts| - 1]), acts[|acts| - 1]);
    }
  }

  // Task t waits in `m.lock()` for a mutex that is taken.
  ghost predicate Waits(s: System, t: nat, m: nat) {
    && t < |s.tasks| && m < |s.owner| && s.owner[m].Some?
    && s.tasks[t].Blocking? && s.tasks[t].ms != []
    && m == Rotated(s.tasks[t].ms, s.tasks[t].start)[0]
  }

  // In every reachable state, a task waiting in `m.lock()` holds nothing, so whoever holds m is not
  // waiting: there is no wait cycle, not even a chain of two waits.
  lemma WaitersHoldNothing(mutexes: nat, tasks: nat, acts: seq<Act>)
    ensures var s := Run(Start(mutexes, tasks), acts);
            && (forall t: nat, m: nat :: Waits(s, t, m) ==> forall x :: 0 <= x < |s.owner| ==> s.owner[x] != Some(t))
            && (forall t: nat, m: nat, m': nat :: Waits(s, t, m) ==> !Waits(s, s.owner[m].value, m'))
  {
    RunInv(mutexes, tasks, acts);
    var s := Run(Start(mutexes, tasks), acts);
    forall t: nat, m: nat, x | Waits(s, t, m) && 0 <= x < |s.owner| ensures s.owner[x] != Some(t) {
      assert Held(s.tasks[t]) == [];
    }
    forall t: nat, m: nat, m': nat | Waits(s, t, m) ensures !Waits(s, s.owner[m].value, m') {
      assert m in Held(s.tasks[s.owner[m].value]);
    }
  }

  // A task inside `lock(...)` that is not waiting can take a step, and the step changes its state.
  ghost predicate CanMove(s: System, t: nat) {
    t < |s.tasks| && Advance(s, t) != s
  }

  lemma OnlyWaitersStop(mutexes: nat, tasks: nat, acts: seq<Act>, t: nat)
    requires t < tasks
    ensures var s := Run(Start(mutexes, tasks), acts);
            && |s.tasks| == tasks
            && (s.tasks[t].Idle? || s.tasks[t].Holding? || CanMove(s, t) || exists m :: Waits(s, t, m))
  {
    RunInv(mutexes, tasks, acts);
    RunSizes(Start(mutexes, tasks), acts);
    var s := Run(Start(mutexes, tasks), acts);
    assert TaskOk(s, s.tasks[t]);
    var s' := Advance(s, t);
    match s.tasks[t]
    case Blocking(ms, start) =>
      var m := Rotated(ms, start)[0];
      RotatedDistinct(ms, start);
      if Free(s, m) { assert s'.tasks[t] != s.tasks[t]; } else { assert Waits(s, t, m); }
    case Trying(ms, start, held) => assert s'.tasks[t] != s.tasks[t];
    case Undoing(ms, start, failed, held) => assert s'.tasks[t] != s.tasks[t];
    case _ =>
  }

  lemma {:induction false} RunSizes(s: System, acts: seq<Act>)
    ensures |Run(s, acts).tasks| == |s.tasks| && |Run(s, acts).owner| == |s.owner|
    decreases |acts|
  {
    if acts != [] {
      RunSizes(s, acts[..|acts| - 1]);
    }
  }

  // No deadlock: if some task waits and no task can move, then what it waits for is held by a task
  // whose `lock(...)` has returned, and which only has to drop its guards.
  lemma NoDeadlock(mutexes: nat, tasks: nat, acts: seq<Act>, t: nat, m: nat)
    requires Waits(Run(Start(mutexes, tasks), acts), t, m)
    requires forall u :: !CanMove(Run(Start(mutexes, tasks), acts), u)
    ensures var s := Run(Start(mutexes, tasks), acts);
            var o := s.owner[m].value;
            o < |s.tasks| && s.tasks[o].Holding? && m in s.tasks[o].held
  {
    RunInv(mutexes, tasks, acts);
    RunSizes(Start(mutexes, tasks), acts);
    WaitersHoldNothing(mutexes, tasks, acts);
    var s := Run(Start(mutexes, tasks), acts);
    var o := s.owner[m].value;
    OnlyWaitersStop(mutexes, tasks, acts, o);
    assert m in Held(s.tasks[o]);
  }

  // When `lock(...)` has just returned, the task holds each mutex of its list exactly once, and no
  // two tasks ever hold the same mutex.
  lemma HoldsWholeList(mutexes: nat, tasks: nat, acts: seq<Act>, t: nat)
    requires t < tasks && var s := Run(Start(mutexes, tasks), acts);
             t < |s.tasks| && s.tasks[t].Trying? && |s.tasks[t].held| == |s.tasks[t].ms|
    ensures var s := Run(Start(mutexes, tasks), acts);
            && Advance(s, t).tasks[t] == Holding(s.tasks[t].ms, s.tasks[t].held)
            && multiset(s.tasks[t].held) == multiset(s.tasks[t].ms)
            && (forall m :: m in s.tasks[t].ms ==> m < |s.owner| && s.owner[m] == Some(t))
  {
    RunInv(mutexes, tasks, acts);
    WholeList(Run(Start(mutexes, tasks), acts), t);
  }

  lemma WholeList(s: System, t: nat)
    requires Inv(s) && t < |s.tasks| && s.tasks[t].Trying? && |s.tasks[t].held| == |s.tasks[t].ms|
    ensures multiset(s.tasks[t].held) == multiset(s.tasks[t].ms)
    ensures forall m :: m in s.tasks[t].ms ==> m < |s.owner| && s.owner[m] == Some(t)
  {
    assert TaskOk(s, s.tasks[t]);
    var ms, start, held := s.tasks[t].ms, s.tasks[t].start, s.tasks[t].held;
    RotatePermutes(ms, start);
    assert held == Rotated(ms, start);
    forall m | m in ms ensures m in Held(s.tasks[t]) {
      assert m in multiset(ms) && m in multiset(held);
    }
  }

  // ---- what a task waits for ----

  // The task has been refused mutex m: it releases what it took, and then waits for m.
  ghost predicate BacksOffTo(task: Task, m: nat) {
    match task
    case Undoing(ms, start, failed, _) => start < |ms| && failed < |ms| && Rotated(ms, start)[failed] == m
    case Blocking(ms, start) => start < |ms| && Rotated(ms, start)[0] == m
    case _ => false
  }

  // A call first waits for the first mutex of its list.
  lemma FirstWait(s: System, t: nat, ms: seq<nat>)
    requires t < |s.tasks| && s.tasks[t].Idle? && Proper(s, ms)
    ensures BacksOffTo(Step(s, Call(t, ms)).tasks[t], ms[0])
  {
    RotatedStart(ms, 0);
  }

  // A refused `try_lock` starts the back-off from exactly the mutex that refused.
  lemma Refused(s: System, t: nat)
    requires Inv(s) && t < |s.tasks| && s.tasks[t].Trying? && |s.tasks[t].held| < |s.tasks[t].ms|
    requires !Free(s, Rotated(s.tasks[t].ms, s.tasks[t].start)[|s.tasks[t].held|])
    ensures BacksOffTo(Step(s, Go(t)).tasks[t], Rotated(s.tasks[t].ms, s.tasks[t].start)[|s.tasks[t].held|])
  {
    assert TaskOk(s, s.tasks[t]);
  }

  lemma RestartsAtRefused(ms: seq<nat>, start: nat, failed: nat)
    requires start < |ms| && failed < |ms|
    ensures var next := (start + failed) % |ms|; next < |ms| && Rotated(ms, next)[0] == Rotated(ms, start)[failed]
  {
    RotateAt(ms, start, failed);
    RotatedStart(ms, (start + failed) % |ms|);
  }

  lemma BackOffStep(s: System, a: Act, t: nat, m: nat)
    requires t < |s.tasks| && BacksOffTo(s.tasks[t], m)
    ensures |Step(s, a).tasks| == |s.tasks|
    ensures || BacksOffTo(Step(s, a).tasks[t], m)
            || (a == Go(t) && s.tasks[t].Blocking? &&
                Step(s, a).tasks[t] == Trying(s.tasks[t].ms, s.tasks[t].start, [m]))
  {
    if a == Go(t) && s.tasks[t].Undoing? {
      RestartsAtRefused(s.tasks[t].ms, s.tasks[t].start, s.tasks[t].failed);
    }
  }

  // At choice k of the run, task t gets mutex m, for which it waits with nothing in its hands.
  ghost predicate GetsAt(s: System, acts: seq<Act>, k: nat, t: nat, m: nat)
    requires k < |acts|
  {
    var s1 := Run(s, acts[..k]);
    && acts[k] == Go(t) && t < |s1.tasks| && s1.tasks[t].Blocking? && BacksOffTo(s1.tasks[t], m)
    && var s2 := Step(s1, acts[k]);
       t < |s2.tasks| && s2.tasks[t] == Trying(s1.tasks[t].ms, s1.tasks[t].start, [m])
  }

  // For a list of any length and whatever the others do: from a refusal on, the task backs off, until
  // it gets exactly the mutex that refused, by waiting for it.
  lemma {:induction false} WaitsForRefused(s: System, acts: seq<Act>, t: nat, m: nat)
    requires t < |s.tasks| && BacksOffTo(s.tasks[t], m)
    ensures || (t < |Run(s, acts).tasks| && BacksOffTo(Run(s, acts).tasks[t], m))
            || (exists k :: 0 <= k < |acts| && GetsAt(s, acts, k, t, m))
    decreases |acts|
  {
    if acts != [] {
      var n := |acts| - 1;
      WaitsForRefused(s, acts[..n], t, m);
      if k :| 0 <= k < n && GetsAt(s, acts[..n], k, t, m) {
        assert acts[..n][..k] == acts[..k];
        assert GetsAt(s, acts, k, t, m);
      } else {
        BackOffStep(Run(s, acts[..n]), acts[n], t, m);
        if !BacksOffTo(Run(s, acts).tasks[t], m) { assert GetsAt(s, acts, n, t, m); }
      }
    }
  }

  // ---- no bound when others keep re-acquiring ----

  // How often task t was refused a mutex inside `lock(...)`: each refusal is one failed round.
  function Refusals(s: System, acts: seq<Act>, t: nat): nat
    decreases |acts|
  {
    if acts == [] then 0
    else
      var n := |acts| - 1;
      var s1 := Run(s, acts[..n]);
      Refusals(s, acts[..n], t) +
      if t < |s1.tasks| && s1.tasks[t].Trying? && Step(s1, acts[n]).tasks[t].Undoing? then 1 else 0
  }

  // One more choice.
  lemma Next(s0: System, acts: seq<Act>, s: System, a: Act) returns (acts': seq<Act>, s': System)
    requires Run(s0, acts) == s && |Step(s, a).tasks| == |s.tasks| && |s.tasks| > 0
    ensures acts' == acts + [a] && s' == Step(s, a) == Run(s0, acts')
    ensures Refusals(s0, acts', 0) ==
            Refusals(s0, acts, 0) + if s.tasks[0].Trying? && s'.tasks[0].Undoing? then 1 else 0
  {
    acts', s' := acts + [a], Step(s, a);
    assert acts'[..|acts|] == acts;
  }

  // Task 0 waits for mutex k of the two, both are free, and task 1 is idle.
  function AtRound(k: nat): System {
    System([None, None], [Blocking([0, 1], k), Idle])
  }

  // What one step of the list [0, 1] rotated by k looks like, by the state of the task.
  lemma Turned(k: nat)
    requires k < 2
    ensures Rotated([0, 1], k) == [k, 1 - k]
  {
    RotateAt([0, 1], k, 0);
    RotateAt([0, 1], k, 1);
    assert k == 0 || k == 1;
  }

  lemma GoFirst(s: System, t: nat, k: nat)
    requires k < 2 && t < |s.tasks| && s.tasks[t] == Blocking([0, 1], k) && Free(s, k)
    ensures Step(s, Go(t)) == System(s.owner[k := Some(t)], s.tasks[t := Trying([0, 1], k, [k])])
  {
    Turned(k);
  }

  lemma GoSecond(s: System, t: nat, k: nat)
    requires k < 2 && t < |s.tasks| && s.tasks[t] == Trying([0, 1], k, [k])
    ensures Step(s, Go(t)) == if Free(s, 1 - k)
                              then System(s.owner[1 - k := Some(t)], s.tasks[t := Trying([0, 1], k, [k, 1 - k])])
                              else s.(tasks := s.tasks[t := Undoing([0, 1], k, 1, [k])])
  {
    Turned(k);
    assert [k] + [1 - k] == [k, 1 - k];
  }

  lemma GoDone(s: System, t: nat, k: nat)
    requires k < 2 && t < |s.tasks| && s.tasks[t] == Trying([0, 1], k, [k, 1 - k])
    ensures Step(s, Go(t)) == s.(tasks := s.tasks[t := Holding([0, 1], [k, 1 - k])])
  {
  }

  lemma GoUndo(s: System, t: nat, k: nat)
    requires k < 2 && t < |s.tasks| && s.tasks[t] == Undoing([0, 1], k, 1, [k]) && k < |s.owner|
    ensures Step(s, Go(t)) == System(s.owner[k := None], s.tasks[t := Undoing([0, 1], k, 1, [])])
  {
    assert [k][..0] == [];
  }

  lemma GoRetry(s: System, t: nat, k: nat)
    requires k < 2 && t < |s.tasks| && s.tasks[t] == Undoing([0, 1], k, 1, [])
    ensures Step(s, Go(t)) == s.(tasks := s.tasks[t := Blocking([0, 1], 1 - k)])
  {
    assert k == 0 || k == 1;
  }

  lemma DropOne(s: System, t: nat, k: nat)
    requires k < 2 && t < |s.tasks| && s.tasks[t] == Holding([0, 1], [0, 1]) && k < |s.owner|
    ensures Step(s, Drop(t, k)) == System(s.owner[k := None], s.tasks[t := Holding([0, 1], [1 - k])])
  {
    var h: seq<nat> := [0, 1];
    assert h[..k] + h[k + 1..] == [1 - k];
  }

  lemma DropLast(s: System, t: nat, m: nat)
    requires t < |s.tasks| && s.tasks[t] == Holding([0, 1], [m]) && m < |s.owner|
    ensures Step(s, Drop(t, 0)) == System(s.owner[m := None], s.tasks[t := Idle])
  {
    var h := [m];
    assert h[..0] + h[1..] == [];
  }

  // No choice from position n on is a call by task 0.
  predicate NoCallFrom(acts: seq<Act>, n: nat) {
    forall i :: n <= i < |acts| ==> !(acts[i].Call? && acts[i].t == 0)
  }

  // Task 1 takes both mutexes.
  lemma BothTaken(s0: System, acts: seq<Act>, me: Task, c: nat) returns (acts': seq<Act>, s': System)
    requires Run(s0, acts) == System([None, None], [me, Idle]) && !me.Trying? && NoCallFrom(acts, c)
    ensures Run(s0, acts') == s' == System([Some(1), Some(1)], [me, Holding([0, 1], [0, 1])])
    ensures Refusals(s0, acts', 0) == Refusals(s0, acts, 0) && acts <= acts' && NoCallFrom(acts', c)
  {
    acts', s' := Next(s0, acts, System([None, None], [me, Idle]), Call(1, [0, 1]));
    assert s' == System([None, None], [me, Blocking([0, 1], 0)]);
    acts', s' := TakeBoth(s0, acts', s', me, c);
  }

  lemma TakeBoth(s0: System, acts: seq<Act>, s: System, me: Task, c: nat) returns (acts': seq<Act>, s': System)
    requires Run(s0, acts) == s == System([None, None], [me, Blocking([0, 1], 0)])
    requires !me.Trying? && NoCallFrom(acts, c)
    ensures Run(s0, acts') == s' == System([Some(1), Some(1)], [me, Holding([0, 1], [0, 1])])
    ensures Refusals(s0, acts', 0) == Refusals(s0, acts, 0) && acts <= acts' && NoCallFrom(acts', c)
  {
    FirstTaken(me);
    acts', s' := Next(s0, acts, s, Go(1));
    acts', s' := TakeSecond(s0, acts', s', me, c);
  }

  lemma TakeSecond(s0: System, acts: seq<Act>, s: System, me: Task, c: nat) returns (acts': seq<Act>, s': System)
    requires Run(s0, acts) == s == System([Some(1), None], [me, Trying([0, 1], 0, [0])])
    requires !me.Trying? && NoCallFrom(acts, c)
    ensures Run(s0, acts') == s' == System([Some(1), Some(1)], [me, Holding([0, 1], [0, 1])])
    ensures Refusals(s0, acts', 0) == Refusals(s0, acts, 0) && acts <= acts' && NoCallFrom(acts', c)
  {
    SecondTaken(me);
    acts', s' := Next(s0, acts, s, Go(1));
    ListTaken(me);
    acts', s' := Next(s0, acts', s', Go(1));
  }

  lemma FirstTaken(me: Task)
    ensures Step(System([None, None], [me, Blocking([0, 1], 0)]), Go(1)) ==
            System([Some(1), None], [me, Trying([0, 1], 0, [0])])
  {
    GoFirst(System([None, None], [me, Blocking([0, 1], 0)]), 1, 0);
  }

  lemma SecondTaken(me: Task)
    ensures Step(System([Some(1), None], [me, Trying([0, 1], 0, [0])]), Go(1)) ==
            System([Some(1), Some(1)], [me, Trying([0, 1], 0, [0, 1])])
  {
    GoSecond(System([Some(1), None], [me, Trying([0, 1], 0, [0])]), 1, 0);
  }

  lemma ListTaken(me: Task)
    ensures Step(System([Some(1), Some(1)], [me, Trying([0, 1], 0, [0, 1])]), Go(1)) ==
            System([Some(1), Some(1)], [me, Holding([0, 1], [0, 1])])
  {
    GoDone(System([Some(1), Some(1)], [me, Trying([0, 1], 0, [0, 1])]), 1, 0);
  }

  // Task 0 takes mutex k, is refused the other, and backs off.
  lemma BackOff(s0: System, acts: seq<Act>, s: System, k: nat, c: nat) returns (acts': seq<Act>, s': System)
    requires k < 2 && Run(s0, acts) == s && NoCallFrom(acts, c)
    requires |s.tasks| == 2 && s.tasks[0] == Blocking([0, 1], k) && |s.owner| == 2
    requires s.owner[k] == None && s.owner[1 - k] == Some(1)
    ensures Run(s0, acts') == s' == s.(tasks := s.tasks[0 := Blocking([0, 1], 1 - k)])
    ensures Refusals(s0, acts', 0) == Refusals(s0, acts, 0) + 1 && acts <= acts' && NoCallFrom(acts', c)
  {
    GoFirst(s, 0, k);
    acts', s' := Next(s0, acts, s, Go(0));
    GoSecond(s', 0, k);
    acts', s' := Next(s0, acts', s', Go(0));
    acts', s' := Undo(s0, acts', s', k, c);
    assert s'.owner == s.owner && s'.tasks == s.tasks[0 := Blocking([0, 1], 1 - k)];
  }

  lemma Undo(s0: System, acts: seq<Act>, s: System, k: nat, c: nat) returns (acts': seq<Act>, s': System)
    requires k < 2 && Run(s0, acts) == s && NoCallFrom(acts, c)
    requires |s.tasks| == 2 && s.tasks[0] == Undoing([0, 1], k, 1, [k]) && |s.owner| == 2
    ensures Run(s0, acts') == s' == System(s.owner[k := None], s.tasks[0 := Blocking([0, 1], 1 - k)])
    ensures Refusals(s0, acts', 0) == Refusals(s0, acts, 0) && acts <= acts' && NoCallFrom(acts', c)
  {
    GoUndo(s, 0, k);
    acts', s' := Next(s0, acts, s, Go(0));
    GoRetry(s', 0, k);
    acts', s' := Next(s0, acts', s', Go(0));
    assert s'.tasks == s.tasks[0 := Blocking([0, 1], 1 - k)];
  }

  // Task 1 takes both mutexes and drops one; task 0 takes that one, is refused the other and backs off;
  // task 1 drops the other.
  lemma FailedRound(s0: System, acts: seq<Act>, k: nat, c: nat) returns (acts': seq<Act>)
    requires k < 2 && Run(s0, acts) == AtRound(k) && NoCallFrom(acts, c)
    ensures Run(s0, acts') == AtRound(1 - k) && Refusals(s0, acts', 0) == Refusals(s0, acts, 0) + 1
    ensures acts <= acts' && NoCallFrom(acts', c)
  {
    var s;
    acts', s := BothTaken(s0, acts, Blocking([0, 1], k), c);
    DropOne(s, 1, k);
    acts', s := Next(s0, acts', s, Drop(1, k));
    acts', s := BackOff(s0, acts', s, k, c);
    DropLast(s, 1, 1 - k);
    acts', s := Next(s0, acts', s, Drop(1, 0));
    assert s.owner == [None, None] && s.tasks == [Blocking([0, 1], 1 - k), Idle];
  }

  // After the call, n failed rounds, and the next one waits for mutex k.
  ghost predicate Failed(s0: System, acts: seq<Act>, n: nat, k: nat) {
    && acts != [] && acts[0] == Call(0, [0, 1]) && NoCallFrom(acts, 1)
    && Refusals(s0, acts, 0) == n && k < 2 && Run(s0, acts) == AtRound(k)
  }

  lemma FirstRound(s0: System) returns (acts: seq<Act>)
    requires Step(s0, Call(0, [0, 1])) == AtRound(0) && s0.tasks == [Idle, Idle]
    ensures Failed(s0, acts, 0, 0)
  {
    var s;
    acts, s := Next(s0, [], s0, Call(0, [0, 1]));
  }

  lemma NextRound(s0: System, acts: seq<Act>, n: nat, k: nat) returns (acts': seq<Act>)
    requires n > 0 && Failed(s0, acts, n - 1, k)
    ensures Failed(s0, acts', n, 1 - k)
  {
    acts' := FailedRound(s0, acts, k, 1);
    assert acts'[0] == acts[0];
  }

  ghost predicate CanFail(s0: System, n: nat) { exists acts, k :: Failed(s0, acts, n, k) }

  lemma OnceMore(s0: System, n: nat)
    requires n > 0 && CanFail(s0, n - 1)
    ensures CanFail(s0, n)
  {
    var acts, k :| Failed(s0, acts, n - 1, k);
    var acts' := NextRound(s0, acts, n, k);
  }

  lemma {:induction false} Rounds(s0: System, n: nat)
    requires CanFail(s0, 0)
    ensures CanFail(s0, n)
  {
    if n > 0 {
      Rounds(s0, n - 1);
      OnceMore(s0, n);
    }
  }

  // For every n there is a run in which a single call of `lock(...)` fails n rounds and still waits,
  // because another task keeps locking and unlocking the same two mutexes.
  lemma NoBound(n: nat) returns (acts: seq<Act>, k: nat)
    ensures acts != [] && acts[0] == Call(0, [0, 1]) && NoCallFrom(acts, 1)
    ensures Refusals(Start(2, 2), acts, 0) == n && Run(Start(2, 2), acts) == AtRound(k)
  {
    assert Start(2, 2) == System([None, None], [Idle, Idle]);
    assert Step(Start(2, 2), Call(0, [0, 1])) == AtRound(0);
    var first := FirstRound(Start(2, 2));
    Rounds(Start(2, 2), n);
    acts, k :| Failed(Start(2, 2), acts, n, k);
  }
}
