/** Operations of `QueueMachine` that do not overlap are the operations of `QueueSpec`, whichever
    tasks perform them. */
module QueueRefines {
  import opened Options
  import opened Sequences
  import opened QueueMachine
  import opened QueueSolo
  import QueueSpec

  // Between operations, the nodes reached from tail_ and free_ represent the abstract queue.
  ghost predicate Represents<T>(s: State<T>, live: seq<nat>, spare: seq<nat>, q: QueueSpec.QState<T>) {
    && Path(s.heap, s.tail, live) && Path(s.heap, s.free, spare) && Apart(live, spare)
    && s.head == (if live == [] then None else Some(live[|live| - 1]))
    && |live| == q.Live() && |spare| == q.spare
    && (forall k :: 0 <= k < |live| ==> Carries(s, live, q, k))
    && (forall k :: 0 <= k < |spare| ==> Empty(s, spare[k]))
  }

  ghost predicate Carries<T>(s: State<T>, live: seq<nat>, q: QueueSpec.QState<T>, k: nat)
    requires k < |live| == q.Live() && live[k] < |s.heap|
  {
    var d := |live| - |q.vals|;
    s.heap[live[k]] == if k < d then Node(s.heap[live[k]].next, false, None)
                       else Node(s.heap[live[k]].next, true, Some(q.vals[k - d]))
  }

  ghost predicate Empty<T>(s: State<T>, n: nat) {
    n < |s.heap| && !s.heap[n].hasValue && s.heap[n].data == None
  }

  lemma PushRefines<T>(s: State<T>, live: seq<nat>, spare: seq<nat>, q: QueueSpec.QState<T>, i: nat, v: T)
    returns (live': seq<nat>, spare': seq<nat>)
    requires Represents(s, live, spare, q) && s.recycle && i < |s.prods|
    ensures Represents(Pushed(s, i, v), live', spare', QueueSpec.Push(q, v))
    ensures live' == live + [if spare == [] then |s.heap| else spare[0]]
    ensures spare' == if spare == [] then [] else spare[1..]
  {
    var e := if spare == [] then |s.heap| else spare[0];
    live', spare' := live + [e], if spare == [] then [] else spare[1..];
    if spare != [] { assert NextIs(s.heap, spare, 0); }
    PushedPaths(s, live, spare, e, Pushed(s, i, v), v);
    PushedValues(s, live, spare, q, e, Pushed(s, i, v), v);
  }

  // What `Pushed` does to the queue, by the name of the node it uses.
  ghost predicate PushedWith<T>(s: State<T>, live: seq<nat>, spare: seq<nat>, e: nat, s': State<T>, v: T) {
    && s'.free == (if |spare| <= 1 then None else Some(spare[1]))
    && e == (if spare == [] then |s.heap| else spare[0])
    && |s'.heap| == (if spare == [] then |s.heap| + 1 else |s.heap|) && e < |s'.heap|
    && s'.heap[e] == Node(None, true, Some(v))
    && s'.head == Some(e) && s'.tail == (if live == [] then Some(e) else s.tail)
    && (forall n :: 0 <= n < |s.heap| && n != e ==>
          s'.heap[n] == if live != [] && n == live[|live| - 1] then s.heap[n].(next := Some(e)) else s.heap[n])
  }

  lemma PushedPaths<T>(s: State<T>, live: seq<nat>, spare: seq<nat>, e: nat, s': State<T>, v: T)
    requires Path(s.heap, s.tail, live) && Path(s.heap, s.free, spare) && Apart(live, spare)
    requires PushedWith(s, live, spare, e, s', v)
    ensures var live', spare' := live + [e], if spare == [] then [] else spare[1..];
            Path(s'.heap, s'.tail, live') && Path(s'.heap, s'.free, spare') && Apart(live', spare')
  {
    var live', spare' := live + [e], if spare == [] then [] else spare[1..];
    forall k | 0 <= k < |live'| ensures NextIs(s'.heap, live', k) {
      if k < |live| { assert NextIs(s.heap, live, k); }
    }
    forall k | 0 <= k < |spare'| ensures NextIs(s'.heap, spare', k) {
      assert NextIs(s.heap, spare, k + 1);
    }
  }

  lemma PushedValues<T>(s: State<T>, live: seq<nat>, spare: seq<nat>, q: QueueSpec.QState<T>, e: nat,
                        s': State<T>, v: T)
    requires Represents(s, live, spare, q) && PushedWith(s, live, spare, e, s', v)
    ensures var live', spare', q' := live + [e], if spare == [] then [] else spare[1..], QueueSpec.Push(q, v);
            && (forall k :: 0 <= k < |live'| ==> live'[k] < |s'.heap| && Carries(s', live', q', k))
            && (forall k :: 0 <= k < |spare'| ==> Empty(s', spare'[k]))
  {
    var live', spare', q' := live + [e], if spare == [] then [] else spare[1..], QueueSpec.Push(q, v);
    forall k | 0 <= k < |live'| ensures live'[k] < |s'.heap| && Carries(s', live', q', k) {
      if k < |live| { assert Carries(s, live, q, k); }
    }
    forall k | 0 <= k < |spare'| ensures Empty(s', spare'[k]) {
      assert Empty(s, spare[k + 1]);
    }
  }

  lemma PopRefines<T>(s: State<T>, live: seq<nat>, spare: seq<nat>, q: QueueSpec.QState<T>, j: nat)
    returns (live': seq<nat>, spare': seq<nat>)
    requires Represents(s, live, spare, q) && j < |s.cons| && live != []
    ensures var s' := Popped(s, j, live[0]);
            && Represents(s', live', spare', QueueSpec.Pop(q).0)
            && s'.results == s.results + [QueueSpec.Pop(q).1]
    ensures live' == (if |live| == 1 then live else live[1..])
    ensures spare' == if |live| == 1 then spare else [live[0]] + spare
  {
    assert NextIs(s.heap, live, 0) && Carries(s, live, q, 0);
    if |live| == 1 {
      live', spare' := live, spare;
      PoppedOnly(s, live, spare, q, Popped(s, j, live[0]));
    } else {
      live', spare' := live[1..], [live[0]] + spare;
      PoppedPaths(s, live, spare, Popped(s, j, live[0]));
      PoppedValues(s, live, spare, q, Popped(s, j, live[0]));
    }
  }

  lemma PoppedOnly<T>(s: State<T>, live: seq<nat>, spare: seq<nat>, q: QueueSpec.QState<T>, s': State<T>)
    requires Represents(s, live, spare, q) && |live| == 1
    requires s'.head == s.head && s'.tail == s.tail && s'.free == s.free
    requires s'.heap == s.heap[live[0] := Node(None, false, None)]
    ensures Represents(s', live, spare, QueueSpec.Pop(q).0)
  {
    assert NextIs(s'.heap, live, 0);
    forall k | 0 <= k < |spare| ensures NextIs(s'.heap, spare, k) && Empty(s', spare[k]) {
      assert NextIs(s.heap, spare, k) && Empty(s, spare[k]);
    }
  }

  // What `Popped` does when the front node has a successor.
  ghost predicate PoppedFront<T>(s: State<T>, live: seq<nat>, s': State<T>) {
    && |live| > 1 && live[0] < |s.heap|
    && s'.head == s.head && s'.tail == Some(live[1]) && s'.free == Some(live[0])
    && s'.heap == s.heap[live[0] := Node(s.free, false, None)]
  }

  lemma PoppedPaths<T>(s: State<T>, live: seq<nat>, spare: seq<nat>, s': State<T>)
    requires Path(s.heap, s.tail, live) && Path(s.heap, s.free, spare) && Apart(live, spare)
    requires PoppedFront(s, live, s')
    ensures var live', spare' := live[1..], [live[0]] + spare;
            Path(s'.heap, s'.tail, live') && Path(s'.heap, s'.free, spare') && Apart(live', spare')
  {
    var live', spare' := live[1..], [live[0]] + spare;
    forall k | 0 <= k < |live'| ensures NextIs(s'.heap, live', k) {
      assert NextIs(s.heap, live, k + 1);
    }
    forall k | 0 <= k < |spare'| ensures NextIs(s'.heap, spare', k) {
      if k > 0 { assert NextIs(s.heap, spare, k - 1); }
    }
  }

  lemma PoppedValues<T>(s: State<T>, live: seq<nat>, spare: seq<nat>, q: QueueSpec.QState<T>, s': State<T>)
    requires Represents(s, live, spare, q) && PoppedFront(s, live, s')
    ensures var live', spare', q' := live[1..], [live[0]] + spare, QueueSpec.Pop(q).0;
            && (forall k :: 0 <= k < |live'| ==> live'[k] < |s'.heap| && Carries(s', live', q', k))
            && (forall k :: 0 <= k < |spare'| ==> Empty(s', spare'[k]))
  {
    var live', spare', q' := live[1..], [live[0]] + spare, QueueSpec.Pop(q).0;
    forall k | 0 <= k < |live'| ensures live'[k] < |s'.heap| && Carries(s', live', q', k) {
      assert Carries(s, live, q, k + 1);
    }
    forall k | 0 <= k < |spare'| ensures Empty(s', spare'[k]) {
      if k > 0 { assert Empty(s, spare[k - 1]); }
    }
  }

  lemma SameQueue<T>(s: State<T>, s': State<T>, live: seq<nat>, spare: seq<nat>, q: QueueSpec.QState<T>)
    requires Represents(s, live, spare, q)
    requires s'.heap == s.heap && s'.head == s.head && s'.tail == s.tail && s'.free == s.free
    ensures Represents(s', live, spare, q)
  {
    assert forall k :: 0 <= k < |live| ==> Carries(s, live, q, k) ==> Carries(s', live, q, k);
    assert forall k :: 0 <= k < |spare| ==> Empty(s, spare[k]) ==> Empty(s', spare[k]);
  }

  // One operation: what it is, the task that performs it, and how many turns that task gets before
  // the next operation starts; 9 are enough for any operation.
  datatype Call<T> = Call(op: QueueSpec.Op<T>, who: nat, turns: nat)

  predicate Fits<T>(c: Call<T>, prods: nat, cons: nat) {
    c.turns >= 9 && if c.op.PushOp? then c.who < prods else c.who < cons
  }

  function ActsOf<T>(c: Call<T>): seq<Act<T>> {
    match c.op
    case PushOp(v) => PushActs(c.who, v, c.turns)
    case PopOp => PopActs(c.who, c.turns)
  }

  // The schedule that performs the calls one after the other.
  function Schedule<T>(cs: seq<Call<T>>): seq<Act<T>> {
    if cs == [] then [] else ActsOf(cs[0]) + Schedule(cs[1..])
  }

  function Ops<T>(cs: seq<Call<T>>): seq<QueueSpec.Op<T>> {
    seq(|cs|, k requires 0 <= k < |cs| => cs[k].op)
  }

  lemma OneOperation<T>(s: State<T>, live: seq<nat>, spare: seq<nat>, q: QueueSpec.QState<T>, c: Call<T>)
    returns (live': seq<nat>, spare': seq<nat>)
    requires Represents(s, live, spare, q) && AllIdle(s) && s.recycle && Fits(c, |s.prods|, |s.cons|)
    ensures var s' := Run(s, ActsOf(c)); var (q', rs) := QueueSpec.Do(q, c.op);
            && Represents(s', live', spare', q') && s'.results == s.results + rs
            && AllIdle(s') && s'.recycle && |s'.prods| == |s.prods| && |s'.cons| == |s.cons|
  {
    match c.op
    case PushOp(v) =>
      SoloPush(s, c.who, v, c.turns);
      live', spare' := PushRefines(s, live, spare, q, c.who, v);
      assert s.results + [] == s.results;
    case PopOp =>
      live', spare' := OnePop(s, live, spare, q, c.who, c.turns);
  }

  lemma OnePop<T>(s: State<T>, live: seq<nat>, spare: seq<nat>, q: QueueSpec.QState<T>, j: nat, turns: nat)
    returns (live': seq<nat>, spare': seq<nat>)
    requires Represents(s, live, spare, q) && AllIdle(s) && s.recycle && j < |s.cons| && turns >= 9
    ensures var s' := Run(s, PopActs(j, turns));
            && Represents(s', live', spare', QueueSpec.Pop(q).0) && s'.results == s.results + [QueueSpec.Pop(q).1]
            && AllIdle(s') && s'.recycle && |s'.prods| == |s.prods| && |s'.cons| == |s.cons|
  {
    if live == [] {
      SoloPopEmpty(s, j, turns);
      live', spare' := live, spare;
      SameQueue(s, s.(results := s.results + [None]), live, spare, q);
    } else {
      SoloPop(s, j, live[0], turns);
      live', spare' := PopRefines(s, live, spare, q, j);
    }
  }

  lemma {:induction false} Performed<T>(s: State<T>, live: seq<nat>, spare: seq<nat>, q: QueueSpec.QState<T>,
                                        cs: seq<Call<T>>)
    returns (live': seq<nat>, spare': seq<nat>)
    requires Represents(s, live, spare, q) && AllIdle(s) && s.recycle
    requires forall k :: 0 <= k < |cs| ==> Fits(cs[k], |s.prods|, |s.cons|)
    ensures var s' := Run(s, Schedule(cs)); var (q', rs) := QueueSpec.Run(q, Ops(cs));
            Represents(s', live', spare', q') && s'.results == s.results + rs && AllIdle(s')
    decreases |cs|
  {
    if cs == [] {
      live', spare' := live, spare;
    } else {
      var rest := cs[1..];
      var s1, q1 := Run(s, ActsOf(cs[0])), QueueSpec.Do(q, cs[0].op).0;
      var l, f := OneOperation(s, live, spare, q, cs[0]);
      assert forall k :: 0 <= k < |rest| ==> Fits(rest[k], |s1.prods|, |s1.cons|);
      live', spare' := Performed(s1, l, f, q1, rest);
      FirstCall(s, q, cs);
    }
  }

  // The first call, and then the others.
  lemma FirstCall<T>(s: State<T>, q: QueueSpec.QState<T>, cs: seq<Call<T>>)
    requires cs != []
    requires var s1, (q1, r) := Run(s, ActsOf(cs[0])), QueueSpec.Do(q, cs[0].op);
             && s1.results == s.results + r
             && Run(s1, Schedule(cs[1..])).results == s1.results + QueueSpec.Run(q1, Ops(cs[1..])).1
    ensures Run(s, Schedule(cs)) == Run(Run(s, ActsOf(cs[0])), Schedule(cs[1..]))
    ensures Run(s, Schedule(cs)).results == s.results + QueueSpec.Run(q, Ops(cs)).1
    ensures QueueSpec.Run(q, Ops(cs)).0 == QueueSpec.Run(QueueSpec.Do(q, cs[0].op).0, Ops(cs[1..])).0
  {
    var (q1, r) := QueueSpec.Do(q, cs[0].op);
    FirstOp(q, cs);
    Then(s, ActsOf(cs[0]), Schedule(cs[1..]));
    Associate(s.results, r, QueueSpec.Run(q1, Ops(cs[1..])).1);
  }

  lemma FirstOp<T>(q: QueueSpec.QState<T>, cs: seq<Call<T>>)
    requires cs != []
    ensures var (q1, r) := QueueSpec.Do(q, cs[0].op); var (q2, rs) := QueueSpec.Run(q1, Ops(cs[1..]));
            QueueSpec.Run(q, Ops(cs)) == (q2, r + rs)
  {
    assert Ops(cs)[1..] == Ops(cs[1..]) && Ops(cs)[0] == cs[0].op;
  }

  lemma StartRepresents<T>(capacity: nat, prods: nat, cons: nat) returns (spare: seq<nat>)
    ensures Represents(Start<T>(true, capacity, prods, cons), [], spare, QueueSpec.Fresh(capacity))
    ensures AllIdle(Start<T>(true, capacity, prods, cons))
  {
    var s := Start<T>(true, capacity, prods, cons);
    spare := seq(capacity, k requires 0 <= k < capacity => capacity - 1 - k);
    forall k | 0 <= k < |spare| ensures spare[k] < |s.heap| && NextIs(s.heap, spare, k) && Empty(s, spare[k]) {
      assert s.heap[spare[k]] == Node(if spare[k] > 0 then Some(spare[k] - 1) else None, false, None);
    }
  }

  // From a new queue, any calls that do not overlap, by whichever tasks, return what the abstract
  // queue returns, and leave a queue that represents the abstract result.
  lemma OneAtATime<T>(capacity: nat, prods: nat, cons: nat, cs: seq<Call<T>>)
    returns (live: seq<nat>, spare: seq<nat>)
    requires forall k :: 0 <= k < |cs| ==> Fits(cs[k], prods, cons)
    ensures var s := Run(Start(true, capacity, prods, cons), Schedule(cs));
            var (q, rs) := QueueSpec.Run(QueueSpec.Fresh(capacity), Ops(cs));
            s.results == rs && Represents(s, live, spare, q) && AllIdle(s)
  {
    var f := StartRepresents<T>(capacity, prods, cons);
    live, spare := Performed(Start<T>(true, capacity, prods, cons), [], f, QueueSpec.Fresh<T>(capacity), cs);
  }

  lemma Associate<X>(a: seq<X>, b: seq<X>, c: seq<X>)
    ensures (a + b) + c == a + (b + c)
  {
  }
}
