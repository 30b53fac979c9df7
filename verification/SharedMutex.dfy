/** `shared_mutex` as an object, its methods run without interruption: each moves the word as
    `SharedMutexSystem` says, and the unlocks drain the queue of suspended coroutines. */
module SharedMutex {
  import opened Options
  import opened Words
  import QueueSpec
  import LfQueue
  import S = SharedMutexSystem

  type Handle = nat  // a suspended coroutine

  type Queue = QueueSpec.QState<Handle>

  // The loop `pop` until empty-handed, schedule: the queue it leaves, and what it schedules.
  function Drained(q: Queue): (Queue, seq<Handle>)
    decreases |q.vals|
  {
    var (q1, r) := QueueSpec.Pop(q);
    if r.None? then (q1, [])
    else
      var (q2, woken) := Drained(q1);
      (q2, [r.value] + woken)
  }

  // One drain wakes everybody, in order, unless the front node is spent: then it wakes nobody.  So it
  // misses somebody exactly when coroutines wait behind a spent front node, and the next drain does
  // not.
  lemma {:induction false} DrainWakesAll(q: Queue)
    ensures var (q', woken) := Drained(q);
            && woken == (if q.spent then [] else q.vals)
            && (woken == q.vals <==> !(q.spent && q.vals != []))
            && q'.vals == (if q.spent then q.vals else [])
            && (q.vals != [] ==> q'.spent == !q.spent)
    decreases |q.vals|
  {
    if q.vals != [] && !q.spent { DrainWakesAll(QueueSpec.Pop(q).0); }
  }

  // What happens to the queue of waiting coroutines over time.
  datatype Event = Suspends(h: Handle) | Drains

  function Do(q: Queue, e: Event): (Queue, seq<Handle>) {
    match e
    case Suspends(h) => (QueueSpec.Push(q, h), [])
    case Drains => Drained(q)
  }

  function After(q: Queue, es: seq<Event>): (Queue, seq<Handle>)
    decreases |es|
  {
    if es == [] then (q, [])
    else
      var (q1, woken) := Do(q, es[0]);
      var (q2, more) := After(q1, es[1..]);
      (q2, woken + more)
  }

  function Suspended(es: seq<Event>): seq<Handle> {
    if es == [] then []
    else (match es[0] case Suspends(h) => [h] case Drains => []) + Suspended(es[1..])
  }

  // Over every history, coroutines are woken in the order in which they suspended, each at most once,
  // and those not woken are still waiting.
  lemma {:induction false} WokenInOrder(q: Queue, es: seq<Event>)
    ensures var (q', woken) := After(q, es);
            q.vals + Suspended(es) == woken + q'.vals
    decreases |es|
  {
    if es != [] {
      var (q1, woken) := Do(q, es[0]);
      WokenInOrder(q1, es[1..]);
      var (q', more) := After(q1, es[1..]);
      var s := Suspended(es[1..]);
      match es[0]
      case Suspends(h) =>
        assert q.vals + ([h] + s) == (q.vals + [h]) + s;
      case Drains =>
        DrainWakesAll(q);
        assert q.vals + ([] + s) == woken + (q1.vals + s);
        assert woken + (more + q'.vals) == (woken + more) + q'.vals;
    }
  }

  // It does happen: one coroutine comes and is woken, then a second one waits and is not, until the
  // drain after that.
  lemma DrainCanMiss()
    ensures var es := [Suspends(1), Drains, Suspends(2), Drains];
            && After(QueueSpec.Fresh(0), es).1 == [1]
            && After(QueueSpec.Fresh(0), es + [Drains]).1 == [1, 2]
  {
    var es := [Suspends(1), Drains, Suspends(2), Drains];
    FirstFour(es, []);
    FirstFour(es + [Drains], [Drains]);
    var q2: Queue := QueueSpec.QState(false, [2], 1);
    DrainWakesAll(q2);
    assert After(q2, []) == (q2, []) && After(q2, [Drains]).1 == Drained(q2).1 + [];
  }

  // The first four events, and then the rest.
  lemma FirstFour(es: seq<Event>, rest: seq<Event>)
    requires es == [Suspends(1), Drains, Suspends(2), Drains] + rest
    ensures After(QueueSpec.Fresh(0), es).1 == [1] + After(QueueSpec.QState(false, [2], 1), rest).1
  {
    var q0: Queue := QueueSpec.QState(false, [1], 0);
    var q1: Queue := QueueSpec.QState(true, [2], 0);
    var e1, e2, e3 := es[1..], es[1..][1..], es[1..][1..][1..];
    assert e1[0] == Drains && e2[0] == Suspends(2) && e3 == [Drains] + rest && e3[1..] == rest;
    var q': Queue := QueueSpec.QState(true, [], 0);
    assert QueueSpec.Pop(q0) == (q', Some(1)) && Drained(q') == (q', []);
    assert Drained(q0) == (q', [1]) by {
      assert [1] + Drained(q').1 == [1];
      assert Drained(q0) == (Drained(q').0, [1] + Drained(q').1);
    }
    assert Drained(q1) == (QueueSpec.QState(false, [2], 1), []);
    var end := After(QueueSpec.QState(false, [2], 1), rest).1;
    assert After(q1, e3).1 == end by { assert [] + end == end; }
    assert QueueSpec.Push(q', 2) == q1;
    assert After(q', e2).1 == end by { assert [] + end == end; }
    assert After(q0, e1).1 == [1] + end;
  }

  // The loop has scheduled `woken` and q is left to drain.
  ghost predicate Draining(q0: Queue, q: Queue, woken: seq<Handle>) {
    Drained(q0) == (Drained(q).0, woken + Drained(q).1)
  }

  lemma DrainTurn(q0: Queue, q: Queue, woken: seq<Handle>)
    requires Draining(q0, q, woken)
    ensures var (q1, h) := QueueSpec.Pop(q);
            if h.None? then Drained(q0) == (q1, woken)
            else Draining(q0, q1, woken + [h.value]) && |q1.vals| < |q.vals|
  {
    var (q1, h) := QueueSpec.Pop(q);
    assert woken + [] == woken;
    if h.Some? { assert woken + ([h.value] + Drained(q1).1) == (woken + [h.value]) + Drained(q1).1; }
  }

  class Mutex {
    var state: nat
    const suspended: LfQueue.Queue<Handle>

    ghost predicate Valid()
      reads this, suspended, suspended.nodes, suspended.recycled, suspended.recycled.nodes
    {
      state < SIZE && suspended.Valid()
    }

    constructor ()
      ensures Valid() && state == 0 && suspended.Abs() == QueueSpec.Fresh(0)
    {
      state := 0;
      suspended := new LfQueue.Queue<Handle>(0);
    }

    method TryLock() returns (ok: bool)
      requires state < SIZE
      modifies `state
      ensures var s := S.Step(S.State(old(state), [S.Idle]), S.TryLock(0));
              state == s.word && ok == s.tasks[0].Owning?
    {
      ok := state == 0;
      if ok { state := S.EX; }
    }

    // A refused reader takes its 1 back and leaves the word as it was.
    method TryLockShared() returns (ok: bool)
      requires state < SIZE
      modifies `state
      ensures var s1 := S.Step(S.State(old(state), [S.Idle]), S.TryShared(0)); var s2 := S.Step(s1, S.Retreat(0));
              state == s2.word && ok == s2.tasks[0].Reading? && (!ok ==> s1.tasks[0].Retreating? && s2.tasks[0].Idle?)
      ensures ok <==> old(state) < 0x8000_0000_0000_0000
      ensures state == if ok then S.FetchAdd(old(state), 1) else old(state)
    {
      S.AddSub(state);
      S.TopBit(state);
      var tmp := state;
      state := S.FetchAdd(state, 1);
      if !S.HasEx(tmp) {
        return true;
      }
      state := S.FetchSub(state, 1);
      return false;
    }

    // Pops and schedules until `pop` returns nothing.
    method Drain() returns (woken: seq<Handle>)
      requires suspended.Valid()
      modifies suspended, suspended.recycled, suspended.All()
      ensures suspended.Valid() && suspended.All() == old(suspended.All())
      ensures (suspended.Abs(), woken) == Drained(old(suspended.Abs()))
    {
      woken := [];
      ghost var q0 := suspended.Abs();
      assert [] + Drained(q0).1 == Drained(q0).1;
      while true
        invariant suspended.Valid() && suspended.All() == old(suspended.All())
        invariant Draining(q0, suspended.Abs(), woken)
        decreases |suspended.Abs().vals|
      {
        DrainTurn(q0, suspended.Abs(), woken);
        var h := suspended.Pop();
        if h.None? {
          break;
        }
        woken := woken + [h.value];
      }
    }

    // Every suspended coroutine is woken, except as `DrainWakesAll` says.
    method Unlock() returns (woken: seq<Handle>)
      requires Valid()
      modifies this, suspended, suspended.recycled, suspended.All()
      ensures Valid() && state == S.FetchSub(old(state), S.EX)
      ensures S.Step(S.State(old(state), [S.Owning]), S.Unlock(0)) == S.State(state, [S.Idle])
      ensures (suspended.Abs(), woken) == Drained(old(suspended.Abs()))
    {
      state := S.FetchSub(state, S.EX);
      woken := Drain();
    }

    // Only the last one out drains; with a writer pending its bit is ignored.
    method UnlockShared() returns (woken: seq<Handle>)
      requires Valid()
      modifies this, suspended, suspended.recycled, suspended.All()
      ensures Valid() && state == S.FetchSub(old(state), 1)
      ensures S.Step(S.State(old(state), [S.Reading]), S.UnlockShared(0)) == S.State(state, [S.Idle])
      ensures S.Low(old(state)) == 1 ==> (suspended.Abs(), woken) == Drained(old(suspended.Abs()))
      ensures S.Low(old(state)) != 1 ==> woken == [] && suspended.Abs() == old(suspended.Abs())
    {
      var before := state;
      state := S.FetchSub(state, 1);
      woken := [];
      if S.Low(before) == 1 {
        woken := Drain();
      }
    }
  }

  // The future of `shared_mutex::lock`.
  class LockFuture {
    const mtx: Mutex
    var requested: bool

    constructor (mtx: Mutex)
      ensures this.mtx == mtx && !requested
    {
      this.mtx, requested := mtx, false;
    }

    // The first call claims the writer bit unless another writer has it, and never returns true;
    // once claimed, a call returns true exactly when the word is the writer bit alone.
    method AwaitReady() returns (ready: bool)
      requires mtx.state < SIZE
      modifies `requested, mtx`state
      ensures ready <==> old(requested) && old(mtx.state) == S.EX
      ensures requested == (old(requested) || !S.HasEx(old(mtx.state)))
      ensures mtx.state == if old(requested) then old(mtx.state) else S.WithEx(old(mtx.state))
      ensures var s := if old(requested) then S.Step(S.State(old(mtx.state), [S.Pending]), S.Poll(0))
                       else S.Step(S.Step(S.State(old(mtx.state), [S.Idle]), S.Ask(0)), S.Claim(0));
              && mtx.state == s.word && ready == s.tasks[0].Owning?
              && requested == (s.tasks[0].Pending? || s.tasks[0].Owning?)
    {
      if requested {
        return mtx.state == S.EX;
      }
      var state := mtx.state;
      if !S.HasEx(state) {
        // Nothing intervenes here, so the compare-exchange succeeds; `SharedMutexSystem.Claim` retries.
        mtx.state := S.WithEx(state);
        requested := true;
        return state == S.EX;
      }
      return false;
    }
  }
}
