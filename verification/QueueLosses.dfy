/** Runs of `QueueMachine` that go wrong, from a queue of any capacity. */
module QueueLosses {
  import opened Options
  import opened Sequences
  import opened QueueMachine
  import opened QueueSolo
  import opened QueueRefines
  import QueueSpec

  // ---- whole operations, while other tasks stand still ----

  lemma ThenPush<T>(s0: State<T>, acts: seq<Act<T>>, s: State<T>, i: nat, v: T)
    returns (acts': seq<Act<T>>, s': State<T>)
    requires Run(s0, acts) == s
    requires i < |s.prods| && s.prods[i] == PIdle && (s.free.Some? ==> s.free.value < |s.heap|)
    ensures s' == Pushed(s, i, v) == Run(s0, acts')
  {
    acts', s' := acts + PushActs(i, v, 9), Pushed(s, i, v);
    SoloPush(s, i, v, 9);
    Then(s0, acts, PushActs(i, v, 9));
  }

  lemma ThenPop<T>(s0: State<T>, acts: seq<Act<T>>, s: State<T>, j: nat, t: nat)
    returns (acts': seq<Act<T>>, s': State<T>)
    requires Run(s0, acts) == s
    requires j < |s.cons| && s.cons[j] == CIdle && s.tail == Some(t) && t < |s.heap|
    ensures s' == Popped(s, j, t) == Run(s0, acts')
  {
    acts', s' := acts + PopActs(j, 8), Popped(s, j, t);
    SoloPop(s, j, t, 8);
    Then(s0, acts, PopActs(j, 8));
  }

  // What s1 and s2 agree on, whatever was pushed and popped in between.
  ghost predicate SameTasks<T>(s1: State<T>, s2: State<T>) {
    s2.prods == s1.prods && s2.cons == s1.cons && s2.recycle == s1.recycle
  }

  // A `push`, by the nodes of the two chains.
  lemma RepPush<T>(s0: State<T>, acts: seq<Act<T>>, s: State<T>, live: seq<nat>, spare: seq<nat>,
                   q: QueueSpec.QState<T>, i: nat, v: T)
    returns (acts': seq<Act<T>>, s': State<T>, live': seq<nat>, spare': seq<nat>)
    requires Run(s0, acts) == s && s.recycle && Represents(s, live, spare, q)
    requires i < |s.prods| && s.prods[i] == PIdle
    ensures Run(s0, acts') == s' && SameTasks(s, s') && s'.order == s.order + [v] && s'.results == s.results
    ensures Represents(s', live', spare', QueueSpec.Push(q, v)) && |live'| == |live| + 1 && live'[..|live|] == live
    ensures if spare == [] then spare' == [] else live'[|live|] == spare[0] && spare' == spare[1..]
  {
    assert s.free.Some? ==> s.free.value < |s.heap|;
    acts', s' := ThenPush(s0, acts, s, i, v);
    PushedFrame(s, i, v);
    live', spare' := PushRefines(s, live, spare, q, i, v);
  }

  lemma PushedFrame<T>(s: State<T>, i: nat, v: T)
    requires i < |s.prods| && s.prods[i] == PIdle
    ensures var s' := Pushed(s, i, v);
            SameTasks(s, s') && s'.order == s.order + [v] && s'.results == s.results
  {
    assert Pushed(s, i, v).prods == s.prods;
  }

  // A `pop` that returns a value.
  lemma RepPop<T>(s0: State<T>, acts: seq<Act<T>>, s: State<T>, live: seq<nat>, spare: seq<nat>,
                  q: QueueSpec.QState<T>, j: nat)
    returns (acts': seq<Act<T>>, s': State<T>)
    requires Run(s0, acts) == s && s.recycle && Represents(s, live, spare, q)
    requires j < |s.cons| && s.cons[j] == CIdle && |live| > 1 && !q.spent
    ensures Run(s0, acts') == s' && SameTasks(s, s') && s'.order == s.order
    ensures s'.results == s.results + [Some(q.vals[0])]
    ensures Represents(s', live[1..], [live[0]] + spare, QueueSpec.QState(false, q.vals[1..], q.spare + 1))
  {
    acts', s' := ThenPop(s0, acts, s, j, live[0]);
    var live', spare' := PopRefines(s, live, spare, q, j);
    PoppedFrame(s, j, live[0]);
    assert QueueSpec.Pop(q) == (QueueSpec.QState(false, q.vals[1..], q.spare + 1), Some(q.vals[0]));
  }

  lemma PoppedFrame<T>(s: State<T>, j: nat, t: nat)
    requires j < |s.cons| && s.cons[j] == CIdle
    ensures SameTasks(s, Popped(s, j, t)) && Popped(s, j, t).order == s.order
  {
    assert Popped(s, j, t).cons == s.cons;
  }

  lemma {:induction false} PushMany<T>(s0: State<T>, acts: seq<Act<T>>, s: State<T>, live: seq<nat>, spare: seq<nat>,
                                       q: QueueSpec.QState<T>, i: nat, v: T, n: nat)
    returns (acts': seq<Act<T>>, s': State<T>, live': seq<nat>, spare': seq<nat>, q': QueueSpec.QState<T>)
    requires Run(s0, acts) == s && s.recycle && Represents(s, live, spare, q)
    requires i < |s.prods| && s.prods[i] == PIdle
    ensures Run(s0, acts') == s' && SameTasks(s, s') && s'.order == s.order + Repeat(v, n) && s'.results == s.results
    ensures Represents(s', live', spare', q')
    ensures q' == QueueSpec.QState(q.spent, q.vals + Repeat(v, n), if n < q.spare then q.spare - n else 0)
    decreases n
  {
    acts', s', live', spare', q' := acts, s, live, spare, q;
    if n > 0 {
      acts', s', live', spare', q' := PushMany(s0, acts, s, live, spare, q, i, v, n - 1);
      acts', s', live', spare' := RepPush(s0, acts', s', live', spare', q', i, v);
      q' := QueueSpec.Push(q', v);
      assert Repeat(v, n) == Repeat(v, n - 1) + [v];
    }
  }

  function Wrapped<T>(vs: seq<T>): seq<Option<T>> { seq(|vs|, k requires 0 <= k < |vs| => Some(vs[k])) }

  // The nodes popped come to lie on the free list in reverse.
  lemma {:induction false} PopMany<T>(s0: State<T>, acts: seq<Act<T>>, s: State<T>, live: seq<nat>, spare: seq<nat>,
                                      q: QueueSpec.QState<T>, j: nat, n: nat)
    returns (acts': seq<Act<T>>, s': State<T>)
    requires Run(s0, acts) == s && s.recycle && Represents(s, live, spare, q)
    requires j < |s.cons| && s.cons[j] == CIdle && !q.spent && n < |live|
    ensures Run(s0, acts') == s' && SameTasks(s, s') && s'.order == s.order
    ensures s'.results == s.results + Wrapped(q.vals[..n])
    ensures Represents(s', live[n..], Reversed(live[..n]) + spare, QueueSpec.QState(false, q.vals[n..], q.spare + n))
    decreases n
  {
    if n == 0 {
      acts', s' := acts, s;
      assert live[0..] == live && Reversed(live[..0]) + spare == spare && q.vals[0..] == q.vals;
      assert Wrapped(q.vals[..0]) == [];
    } else {
      acts', s' := PopMany(s0, acts, s, live, spare, q, j, n - 1);
      acts', s' := PopNext(s0, acts', s', live, spare, q, j, n);
      assert (s.results + Wrapped(q.vals[..n - 1])) + [Some(q.vals[n - 1])] == s.results + Wrapped(q.vals[..n]);
    }
  }

  // The n-th pop.
  lemma PopNext<T>(s0: State<T>, acts: seq<Act<T>>, s: State<T>, live: seq<nat>, spare: seq<nat>,
                   q: QueueSpec.QState<T>, j: nat, n: nat)
    returns (acts': seq<Act<T>>, s': State<T>)
    requires Run(s0, acts) == s && s.recycle && 0 < n < |live| == |q.vals|
    requires Represents(s, live[n - 1..], Reversed(live[..n - 1]) + spare,
                        QueueSpec.QState(false, q.vals[n - 1..], q.spare + n - 1))
    requires j < |s.cons| && s.cons[j] == CIdle
    ensures Run(s0, acts') == s' && SameTasks(s, s') && s'.order == s.order
    ensures s'.results == s.results + [Some(q.vals[n - 1])]
    ensures Represents(s', live[n..], Reversed(live[..n]) + spare, QueueSpec.QState(false, q.vals[n..], q.spare + n))
  {
    acts', s' := RepPop(s0, acts, s, live[n - 1..], Reversed(live[..n - 1]) + spare,
                        QueueSpec.QState(false, q.vals[n - 1..], q.spare + n - 1), j);
    OneMorePopped(live, spare, q.vals, n);
  }

  lemma OneMorePopped<T>(live: seq<nat>, spare: seq<nat>, vals: seq<T>, n: nat)
    requires 0 < n < |live| == |vals|
    ensures live[n - 1..][1..] == live[n..] && vals[n - 1..][1..] == vals[n..]
    ensures [live[n - 1..][0]] + (Reversed(live[..n - 1]) + spare) == Reversed(live[..n]) + spare
    ensures Wrapped(vals[..n - 1]) + [Some(vals[n - 1..][0])] == Wrapped(vals[..n])
  {
  }

  // Two nodes and what they contain.
  ghost predicate Pair<T>(s: State<T>, a: nat, x: Node<T>, b: nat, y: Node<T>) {
    a != b && a < |s.heap| && b < |s.heap| && s.heap[a] == x && s.heap[b] == y
  }

  // ---- two producers ----

  // The queue has nodes to spare.  Producer 0 reads the top of the free list and its successor, then
  // stalls; meanwhile both nodes are pushed, and the first is popped and recycled.  The stalled
  // compare-exchange still succeeds and puts the last node of the live chain on top of the free list.
  // The next push overwrites the value in it and cuts off the node behind it.
  lemma TwoProducers<T>(capacity: nat, prods: nat, cons: nat, u: T, v: T, w: T, x: T)
    returns (acts: seq<Act<T>>, a: nat, b: nat)
    requires prods >= 2 && cons >= 1
    ensures var s := Run(Start(true, capacity, prods, cons), acts);
            && AllIdle(s)
            && Pair(s, a, Node(Some(b), true, Some(w)), b, Node(None, false, None))
            && s.head == s.tail == Some(b) && s.free == Some(a)
            && s.order == Repeat(u, capacity + 4) + [v, w, x]
            && s.results == Wrapped(Repeat(u, capacity + 4)) + [Some(x)]
  {
    var s0 := Start<T>(true, capacity, prods, cons);
    var s;
    acts, s, a, b := TopRecycled(capacity, prods, cons, u, v, w);
    acts, s := StalledPush(s0, acts, s, a, b, v, w);
    assert s.prods == s0.prods;
    acts, s := Overwrite(s0, acts, s, a, b, v, w, x);
    assert (Repeat(u, capacity + 4) + [v]) + [w] + [x] == Repeat(u, capacity + 4) + [v, w, x];
  }

  lemma SpareNodes<T>(capacity: nat, prods: nat, cons: nat, u: T)
    returns (acts: seq<Act<T>>, s: State<T>, live: seq<nat>, spare: seq<nat>)
    requires prods >= 1 && cons >= 1
    ensures var s0 := Start<T>(true, capacity, prods, cons);
            && Run(s0, acts) == s && SameTasks(s0, s) && |live| == 1 && |spare| == capacity + 2
            && Represents(s, live, spare, QueueSpec.QState(false, [u], capacity + 2))
            && s.order == Repeat(u, capacity + 3) && s.results == Wrapped(Repeat(u, capacity + 2))
  {
    var s0 := Start<T>(true, capacity, prods, cons);
    spare := StartRepresents<T>(capacity, prods, cons);
    var q;
    acts, s, live, spare, q := PushMany(s0, [], s0, [], spare, QueueSpec.Fresh(capacity), 0, u, capacity + 3);
    acts, s := PopMany(s0, acts, s, live, spare, q, 0, capacity + 2);
    live, spare := live[capacity + 2..], Reversed(live[..capacity + 2]) + spare;
    assert q.vals == Repeat(u, capacity + 3);
    assert q.vals[..capacity + 2] == Repeat(u, capacity + 2) && q.vals[capacity + 2..] == [u];
  }

  lemma TopRecycled<T>(capacity: nat, prods: nat, cons: nat, u: T, v: T, w: T)
    returns (acts: seq<Act<T>>, s: State<T>, a: nat, b: nat)
    requires prods >= 2 && cons >= 1
    ensures var s0 := Start<T>(true, capacity, prods, cons);
            && Run(s0, acts) == s && s.recycle
            && s.prods == s0.prods[0 := PCas(w, a, Some(b))] && s.cons == s0.cons
            && Pair(s, a, Node(if a < |s.heap| then s.heap[a].next else None, false, None),
                    b, Node(None, true, Some(v)))
            && s.head == s.tail == Some(b) && s.free == Some(a)
            && s.order == Repeat(u, capacity + 4) + [v] && s.results == Wrapped(Repeat(u, capacity + 4))
  {
    var s0 := Start<T>(true, capacity, prods, cons);
    var live, spare;
    acts, s, live, spare := SpareNodes(capacity, prods, cons, u);
    a, b := spare[0], spare[1];
    var q := QueueSpec.QState(false, [u], capacity + 2);
    acts, s := StallProducer(s0, acts, s, live, spare, q, w);
    assert spare[1..][0] == b;
    acts, s, live, spare := RepPush(s0, acts, s, live, spare, q, 1, u);
    acts, s, live, spare := RepPush(s0, acts, s, live, spare, QueueSpec.Push(q, u), 1, v);
    q := QueueSpec.QState(false, [u, u, v], capacity);
    assert QueueSpec.Push(QueueSpec.Push(QueueSpec.QState(false, [u], capacity + 2), u), v) == q;
    acts, s := PopMany(s0, acts, s, live, spare, q, 0, 2);
    assert live[1] == a && live[2] == b && live[2..] == [b] && [u, u, v][2..] == [v];
    LastLeft(s, [b], Reversed(live[..2]) + spare, QueueSpec.QState(false, [v], capacity + 2), v);
    assert Wrapped([u, u, v][..2]) == [Some(u), Some(u)];
    assert Repeat(u, capacity + 3) + [u] == Repeat(u, capacity + 4);
    assert Wrapped(Repeat(u, capacity + 2)) + [Some(u), Some(u)] == Wrapped(Repeat(u, capacity + 4));
  }

  lemma ThenLookFree<T>(s0: State<T>, acts: seq<Act<T>>, s: State<T>, e: nat, w: T)
    returns (acts': seq<Act<T>>, s': State<T>)
    requires Run(s0, acts) == s && s.recycle && |s.prods| >= 1 && s.prods[0] == PIdle && s.free == Some(e)
    ensures Run(s0, acts') == s'
    ensures s' == s.(prods := s.prods[0 := PCas(w, e, At(s.heap, e).next)], submitted := s.submitted + [w])
  {
    LookFree(s, 0, w, e);
    acts', s' := More(s0, acts, s, Push(0, w));
    Then(s0, acts', Turns(Prod(0), 2));
    acts' := acts' + Turns(Prod(0), 2);
    s' := Run(s0, acts');
  }

  lemma StallProducer<T>(s0: State<T>, acts: seq<Act<T>>, s: State<T>, live: seq<nat>, spare: seq<nat>,
                         q: QueueSpec.QState<T>, w: T)
    returns (acts': seq<Act<T>>, s': State<T>)
    requires Run(s0, acts) == s && s.recycle && Represents(s, live, spare, q) && |spare| >= 2
    requires |s.prods| >= 1 && s.prods[0] == PIdle
    ensures Run(s0, acts') == s' && Represents(s', live, spare, q)
    ensures s' == s.(prods := s.prods[0 := PCas(w, spare[0], Some(spare[1]))], submitted := s.submitted + [w])
  {
    assert NextIs(s.heap, spare, 0);
    acts', s' := ThenLookFree(s0, acts, s, spare[0], w);
    SameQueue(s, s', live, spare, q);
  }

  // A queue with one node left, unspent.
  lemma LastLeft<T>(s: State<T>, live: seq<nat>, spare: seq<nat>, q: QueueSpec.QState<T>, v: T)
    requires Represents(s, live, spare, q) && q.vals == [v] && !q.spent && |live| == 1 && spare != []
    ensures s.head == s.tail == Some(live[0]) && s.free == Some(spare[0])
    ensures Pair(s, spare[0], Node(if spare[0] < |s.heap| then s.heap[spare[0]].next else None, false, None),
                 live[0], Node(None, true, Some(v)))
  {
    assert NextIs(s.heap, live, 0) && Carries(s, live, q, 0) && Empty(s, spare[0]);
  }

  lemma StalledPush<T>(s0: State<T>, acts: seq<Act<T>>, s: State<T>, a: nat, b: nat, v: T, w: T)
    returns (acts': seq<Act<T>>, s': State<T>)
    requires Run(s0, acts) == s && s.recycle && |s.prods| >= 1 && s.prods[0] == PCas(w, a, Some(b))
    requires Pair(s, a, Node(if a < |s.heap| then s.heap[a].next else None, false, None), b, Node(None, true, Some(v)))
    requires s.head == s.tail == Some(b) && s.free == Some(a)
    ensures Run(s0, acts') == s' && s'.prods == s.prods[0 := PIdle] && s'.cons == s.cons && s'.recycle
    ensures Pair(s', a, Node(None, true, Some(w)), b, Node(Some(a), true, Some(v)))
    ensures s'.head == Some(a) && s'.tail == Some(b) && s'.free == Some(b)
    ensures s'.order == s.order + [w] && s'.results == s.results
  {
    var t;
    acts', t := More(s0, acts, s, Prod(0));
    acts', t := More(s0, acts', t, Prod(0));
    assert t.prods == s.prods[0 := PCheck(w, a)];
    Fill(t, 0, w, a);
    var t1 := Run(t, Turns(Prod(0), 3));
    assert t1.prods == s.prods[0 := PSwap(w, a)];
    Then(s0, acts', Turns(Prod(0), 3));
    Publish(t1, 0, w, a);
    Then(s0, acts' + Turns(Prod(0), 3), Turns(Prod(0), 2));
    acts', s' := acts' + Turns(Prod(0), 3) + Turns(Prod(0), 2), Published(t1, 0, w, a);
    assert s'.prods == s.prods[0 := PIdle];
  }

  lemma Overwrite<T>(s0: State<T>, acts: seq<Act<T>>, s: State<T>, a: nat, b: nat, v: T, w: T, x: T)
    returns (acts': seq<Act<T>>, s': State<T>)
    requires Run(s0, acts) == s && s.recycle && |s.prods| >= 2 && s.prods[1] == PIdle
    requires |s.cons| >= 1 && s.cons[0] == CIdle
    requires Pair(s, a, Node(None, true, Some(w)), b, Node(Some(a), true, Some(v)))
    requires s.head == Some(a) && s.tail == Some(b) && s.free == Some(b)
    ensures Run(s0, acts') == s' && SameTasks(s, s')
    ensures Pair(s', a, Node(Some(b), true, Some(w)), b, Node(None, false, None))
    ensures s'.head == s'.tail == Some(b) && s'.free == Some(a)
    ensures s'.order == s.order + [x] && s'.results == s.results + [Some(x)]
  {
    acts', s' := ThenPush(s0, acts, s, 1, x);
    assert SameTasks(s, s');
    assert Pair(s', a, Node(Some(b), true, Some(w)), b, Node(None, true, Some(x)));
    acts', s' := ThenPop(s0, acts', s', 0, b);
    assert s'.cons == s.cons;
  }

  // ---- two consumers ----

  // w follows `next` from the pointer `first`.
  ghost predicate Walk<T>(heap: seq<Node<T>>, first: Ptr, w: seq<nat>) {
    && w != [] && first == Some(w[0])
    && (forall k :: 0 <= k < |w| - 1 ==> w[k] < |heap| && heap[w[k]].next == Some(w[k + 1]))
  }

  // Consumer 0 reads tail_ and its successor, then stalls; meanwhile the node is popped, recycled,
  // pushed again and reaches the front.  The stalled compare-exchange still succeeds and makes the
  // recycled successor, the bottom of the free list, the front of the live chain, from which the next
  // value is out of reach.
  lemma TwoConsumers<T>(capacity: nat, prods: nat, cons: nat, u: T, w: T, x: T)
    returns (acts: seq<Act<T>>, b: nat, way: seq<nat>)
    requires prods >= 1 && cons >= 2
    ensures var s := Run(Start(true, capacity, prods, cons), acts);
            && AllIdle(s)
            && s.tail == Some(b) && b < |s.heap| && s.heap[b] == Node(None, false, None) && s.head != s.tail
            && Walk(s.heap, s.free, way) && way[|way| - 1] == b
            && s.order == Repeat(u, capacity + 2) + [w, x]
            && s.results == Wrapped(Repeat(u, capacity + 2)) + [Some(w)]
  {
    var s0 := Start<T>(true, capacity, prods, cons);
    var s, a;
    acts, s, a, b, way := FrontRecycled(capacity, prods, cons, u, w);
    acts, s := StalledPop(s0, acts, s, a, b, w, x, way);
    assert s.cons == s0.cons;
    assert (Repeat(u, capacity + 2) + [w]) + [x] == Repeat(u, capacity + 2) + [w, x];
  }

  lemma FrontRecycled<T>(capacity: nat, prods: nat, cons: nat, u: T, w: T)
    returns (acts: seq<Act<T>>, s: State<T>, a: nat, b: nat, way: seq<nat>)
    requires prods >= 1 && cons >= 2
    ensures var s0 := Start<T>(true, capacity, prods, cons);
            && Run(s0, acts) == s && s.recycle && s.prods == s0.prods && s.cons == s0.cons[0 := CCas(a, Some(b))]
            && Pair(s, a, Node(None, true, Some(w)), b, Node(None, false, None))
            && s.head == s.tail == Some(a)
            && Walk(s.heap, s.free, way) && way[|way| - 1] == b && a !in way
            && s.order == Repeat(u, capacity + 2) + [w] && s.results == Wrapped(Repeat(u, capacity + 2))
  {
    var s0 := Start<T>(true, capacity, prods, cons);
    var spare := StartRepresents<T>(capacity, prods, cons);
    var live, q;
    acts, s, live, spare, q := PushMany(s0, [], s0, [], spare, QueueSpec.Fresh(capacity), 0, u, capacity + 2);
    assert q.vals == Repeat(u, capacity + 2);
    a, b := live[0], live[1];
    acts, s := StallConsumer(s0, acts, s, live, spare, q);
    acts, s, way := Circle(s0, acts, s, live, q, capacity + 2, u, w);
  }

  // The front node goes once around: popped, recycled, pushed and popped up to.
  lemma Circle<T>(s0: State<T>, acts: seq<Act<T>>, s: State<T>, live: seq<nat>, q: QueueSpec.QState<T>,
                  n: nat, u: T, w: T)
    returns (acts': seq<Act<T>>, s': State<T>, way: seq<nat>)
    requires Run(s0, acts) == s && s.recycle && Represents(s, live, [], q)
    requires n >= 2 && q == QueueSpec.QState(false, Repeat(u, n), 0) && |live| == n
    requires |s.prods| >= 1 && s.prods[0] == PIdle && |s.cons| >= 2 && s.cons[1] == CIdle
    ensures Run(s0, acts') == s' && SameTasks(s, s')
    ensures Pair(s', live[0], Node(None, true, Some(w)), live[1], Node(None, false, None))
    ensures s'.head == s'.tail == Some(live[0])
    ensures Walk(s'.heap, s'.free, way) && way[|way| - 1] == live[1] && live[0] !in way
    ensures s'.order == s.order + [w] && s'.results == s.results + Wrapped(Repeat(u, n))
  {
    var a, l, m := live[0], live[1..], n - 1;
    acts', s' := PopPush(s0, acts, s, live, q, n, u, w);
    acts', s', way := PopUpTo(s0, acts', s', l, a, m, u, w);
    assert Wrapped(Repeat(u, n)) == [Some(u)] + Wrapped(Repeat(u, m));
  }

  // The front node is popped and pushed again.
  lemma PopPush<T>(s0: State<T>, acts: seq<Act<T>>, s: State<T>, live: seq<nat>, q: QueueSpec.QState<T>,
                   n: nat, u: T, w: T)
    returns (acts': seq<Act<T>>, s': State<T>)
    requires Run(s0, acts) == s && s.recycle && Represents(s, live, [], q)
    requires n >= 2 && q == QueueSpec.QState(false, Repeat(u, n), 0) && |live| == n
    requires |s.prods| >= 1 && s.prods[0] == PIdle && |s.cons| >= 2 && s.cons[1] == CIdle
    ensures Run(s0, acts') == s' && SameTasks(s, s')
    ensures Represents(s', live[1..] + [live[0]], [], QueueSpec.QState(false, Repeat(u, n - 1) + [w], 0))
    ensures s'.order == s.order + [w] && s'.results == s.results + [Some(u)]
  {
    var a, l, m := live[0], live[1..], n - 1;
    acts', s' := RepPop(s0, acts, s, live, [], q, 1);
    assert q.vals[1..] == Repeat(u, m) && [a] + [] == [a];
    var q1 := QueueSpec.QState(false, Repeat(u, m), 1);
    var live', spare';
    acts', s', live', spare' := RepPush(s0, acts', s', l, [a], q1, 0, w);
    assert live' == l + [a] && QueueSpec.Push(q1, w) == QueueSpec.QState(false, Repeat(u, m) + [w], 0);
  }

  // All nodes before a are popped; the first of them ends at the bottom of the free list.
  lemma PopUpTo<T>(s0: State<T>, acts: seq<Act<T>>, s: State<T>, l: seq<nat>, a: nat, m: nat, u: T, w: T)
    returns (acts': seq<Act<T>>, s': State<T>, way: seq<nat>)
    requires Run(s0, acts) == s && s.recycle && |l| == m >= 1 && |s.cons| >= 2 && s.cons[1] == CIdle
    requires Represents(s, l + [a], [], QueueSpec.QState(false, Repeat(u, m) + [w], 0))
    ensures Run(s0, acts') == s' && SameTasks(s, s')
    ensures Pair(s', a, Node(None, true, Some(w)), l[0], Node(None, false, None)) && s'.head == s'.tail == Some(a)
    ensures Walk(s'.heap, s'.free, way) && way[|way| - 1] == l[0] && a !in way
    ensures s'.order == s.order && s'.results == s.results + Wrapped(Repeat(u, m))
  {
    var live, vals := l + [a], Repeat(u, m) + [w];
    assert live[..m] == l && live[m..] == [a] && vals[..m] == Repeat(u, m) && vals[m..] == [w];
    acts', s' := PopMany(s0, acts, s, live, [], QueueSpec.QState(false, vals, 0), 1, m);
    way := Reversed(l);
    assert way + [] == way && way[|way| - 1] == l[0];
    Bottom(s', [a], way, QueueSpec.QState(false, [w], m), w);
  }

  lemma ThenLook<T>(s0: State<T>, acts: seq<Act<T>>, s: State<T>, t: nat)
    returns (acts': seq<Act<T>>, s': State<T>)
    requires Run(s0, acts) == s && |s.cons| >= 1 && s.cons[0] == CIdle && s.tail == Some(t)
    ensures Run(s0, acts') == s' && s' == Read(s, 0, t)
  {
    Look(s, 0, t);
    acts', s' := More(s0, acts, s, Pop(0));
    Then(s0, acts', Turns(Cons(0), 2));
    acts', s' := acts' + Turns(Cons(0), 2), Read(s, 0, t);
  }

  lemma StallConsumer<T>(s0: State<T>, acts: seq<Act<T>>, s: State<T>, live: seq<nat>, spare: seq<nat>,
                         q: QueueSpec.QState<T>)
    returns (acts': seq<Act<T>>, s': State<T>)
    requires Run(s0, acts) == s && Represents(s, live, spare, q) && |live| >= 2
    requires |s.cons| >= 1 && s.cons[0] == CIdle
    ensures Run(s0, acts') == s' && Represents(s', live, spare, q)
    ensures s' == s.(cons := s.cons[0 := CCas(live[0], Some(live[1]))])
  {
    assert NextIs(s.heap, live, 0);
    acts', s' := ThenLook(s0, acts, s, live[0]);
    SameQueue(s, s', live, spare, q);
  }

  // A queue with one node left, unspent, and a free list with a bottom.
  lemma Bottom<T>(s: State<T>, live: seq<nat>, spare: seq<nat>, q: QueueSpec.QState<T>, w: T)
    requires Represents(s, live, spare, q) && q.vals == [w] && !q.spent && |live| == 1 && spare != []
    ensures var b := spare[|spare| - 1];
            && s.head == s.tail == Some(live[0]) && live[0] !in spare
            && Pair(s, live[0], Node(None, true, Some(w)), b, Node(None, false, None))
            && Walk(s.heap, s.free, spare)
  {
    var n := |spare| - 1;
    assert NextIs(s.heap, live, 0) && Carries(s, live, q, 0) && NextIs(s.heap, spare, n) && Empty(s, spare[n]);
    forall k | 0 <= k < n ensures spare[k] < |s.heap| && s.heap[spare[k]].next == Some(spare[k + 1]) {
      assert NextIs(s.heap, spare, k);
    }
  }

  lemma StalledPop<T>(s0: State<T>, acts: seq<Act<T>>, s: State<T>, a: nat, b: nat, w: T, x: T, way: seq<nat>)
    returns (acts': seq<Act<T>>, s': State<T>)
    requires Run(s0, acts) == s && s.recycle && |s.cons| >= 1 && s.cons[0] == CCas(a, Some(b))
    requires |s.prods| >= 1 && s.prods[0] == PIdle
    requires Pair(s, a, Node(None, true, Some(w)), b, Node(None, false, None)) && s.head == s.tail == Some(a)
    requires Walk(s.heap, s.free, way) && a !in way
    ensures Run(s0, acts') == s' && s'.prods == s.prods && s'.cons == s.cons[0 := CIdle]
    ensures Pair(s', a, Node(Some(a), true, Some(x)), b, Node(None, false, None))
    ensures s'.tail == Some(b) && s'.head == Some(a) && Walk(s'.heap, s'.free, way)
    ensures s'.order == s.order + [x] && s'.results == s.results + [Some(w)]
  {
    acts', s' := StalledTake(s0, acts, s, a, b, w);
    acts', s' := ThenPush(s0, acts', s', 0, x);
    assert s'.prods == s.prods;
    assert s'.heap == s.heap[a := Node(Some(a), true, Some(x))];
  }

  lemma StalledTake<T>(s0: State<T>, acts: seq<Act<T>>, s: State<T>, a: nat, b: nat, w: T)
    returns (acts': seq<Act<T>>, s': State<T>)
    requires Run(s0, acts) == s && |s.cons| >= 1 && s.cons[0] == CCas(a, Some(b)) && s.tail == Some(a)
    requires Pair(s, a, Node(None, true, Some(w)), b, Node(None, false, None))
    ensures Run(s0, acts') == s'
    ensures s' == s.(heap := s.heap[a := Node(s.free, false, None)], tail := Some(b), free := Some(a),
                     cons := s.cons[0 := CIdle], results := s.results + [Some(w)])
  {
    var t := s.(tail := Some(b), cons := s.cons[0 := CTake(a, Some(b))]);
    acts', s' := More(s0, acts, s, Cons(0));
    assert s' == t;
    acts', s' := StalledMove(s0, acts', t, a, b, w);
    var n := Settle(s', 0, a, Some(b), Some(w));
    Then(s0, acts', Turns(Cons(0), n));
    acts', s' := acts' + Turns(Cons(0), n), Settled(s', 0, a, Some(b), Some(w));
    assert s'.cons == s.cons[0 := CIdle];
    assert s'.heap == s.heap[a := Node(s.free, false, None)];
  }

  lemma StalledMove<T>(s0: State<T>, acts: seq<Act<T>>, s: State<T>, a: nat, b: nat, w: T)
    returns (acts': seq<Act<T>>, s': State<T>)
    requires Run(s0, acts) == s && |s.cons| >= 1 && s.cons[0] == CTake(a, Some(b))
    requires a < |s.heap| && s.heap[a] == Node(None, true, Some(w))
    ensures Run(s0, acts') == s'
    ensures s' == s.(heap := s.heap[a := Node(None, false, None)], cons := s.cons[0 := CDone(a, Some(b), Some(w))])
  {
    acts', s' := More(s0, acts, s, Cons(0));
    assert s'.cons == s.cons[0 := CMove(a, Some(b))];
    acts', s' := More(s0, acts', s', Cons(0));
    assert s'.cons == s.cons[0 := CDone(a, Some(b), Some(w))];
    assert s'.heap == s.heap[a := Node(None, false, None)];
  }

  // ---- order ----

  // Two pushes by producer 0 on a new queue: the front node and the one behind it.
  lemma TwoQueued<T>(recycle: bool, capacity: nat, prods: nat, cons: nat, u: T, v: T)
    returns (acts: seq<Act<T>>, s: State<T>, t: nat, m: nat)
    requires prods >= 1
    ensures var s0 := Start<T>(recycle, capacity, prods, cons);
            && Run(s0, acts) == s && SameTasks(s0, s) && s.order == [u, v] && s.results == []
            && s.tail == Some(t) && Pair(s, t, Node(Some(m), true, Some(u)), m, Node(None, true, Some(v)))
  {
    var s0 := Start<T>(recycle, capacity, prods, cons);
    if recycle {
      var spare := StartRepresents<T>(capacity, prods, cons);
      var live, q := [], QueueSpec.Fresh<T>(capacity);
      acts, s, live, spare := RepPush(s0, [], s0, live, spare, q, 0, u);
      acts, s, live, spare := RepPush(s0, acts, s, live, spare, QueueSpec.Push(q, u), 0, v);
      q := QueueSpec.Push(QueueSpec.Push(q, u), v);
      t, m := live[0], live[1];
      assert NextIs(s.heap, live, 0) && NextIs(s.heap, live, 1) && Carries(s, live, q, 0) && Carries(s, live, q, 1);
    } else {
      t, m := capacity, capacity + 1;
      acts, s := ThenPush(s0, [], s0, 0, u);
      assert s.prods == s0.prods && s.heap[t] == Node(None, true, Some(u)) && |s.heap| == m;
      acts, s := ThenPush(s0, acts, s, 0, v);
      assert s.prods == s0.prods;
    }
  }

  // With or without recycling, values can be returned out of order once there are two consumers: one
  // wins tail_ first but takes its value later.
  lemma OutOfOrder<T>(recycle: bool, capacity: nat, prods: nat, cons: nat, u: T, v: T) returns (acts: seq<Act<T>>)
    requires prods >= 1 && cons >= 2
    ensures var s := Run(Start(recycle, capacity, prods, cons), acts);
            s.order == [u, v] && s.results == [Some(v)]
  {
    var s0 := Start<T>(recycle, capacity, prods, cons);
    var s, t, m;
    acts, s, t, m := TwoQueued(recycle, capacity, prods, cons, u, v);
    acts, s := WinAndStall(s0, acts, s, t);
    acts, s := ThenPop(s0, acts, s, 1, m);
  }

  lemma WinAndStall<T>(s0: State<T>, acts: seq<Act<T>>, s: State<T>, t: nat)
    returns (acts': seq<Act<T>>, s': State<T>)
    requires Run(s0, acts) == s && |s.cons| >= 1 && s.cons[0] == CIdle && s.tail == Some(t)
    ensures Run(s0, acts') == s' && s' == Won(s, 0, t)
  {
    Win(s, 0, t);
    acts', s' := More(s0, acts, s, Pop(0));
    Then(s0, acts', Turns(Cons(0), 3));
    acts', s' := acts' + Turns(Cons(0), 3), Won(s, 0, t);
  }
}
