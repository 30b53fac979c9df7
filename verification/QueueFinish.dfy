/** Operations of `QueueMachine` that have begun end: from every state, wherever a task is inside `push`
    or `pop` and whatever the others have done meanwhile, ten turns of its own in a row are enough, and
    these are the states they lead to.  Stale readings are thrown away by the retries. */
module QueueFinish {
  import opened Options
  import opened QueueMachine
  import opened QueueSolo

  // ---- pop ----

  // Consumer j has moved tail_ from t to next: it takes the value of t and settles.
  function TakeAll<T>(s: State<T>, j: nat, t: nat, next: Ptr): State<T>
    requires j < |s.cons|
  {
    var n := At(s.heap, t);
    Settled(s.(heap := Put(s.heap, t, Node(n.next, false, if n.hasValue then None else n.data))), j, t, next,
            if n.hasValue then n.data else None)
  }

  // A `pop` from the reading of tail_ on.
  function PopNow<T>(s: State<T>, j: nat): State<T>
    requires j < |s.cons|
  {
    if s.tail.None? then s.(cons := s.cons[j := CIdle], results := s.results + [None])
    else
      var next := At(s.heap, s.tail.value).next;
      TakeAll(s.(tail := next), j, s.tail.value, next)
  }

  // The state consumer j leaves when it alone goes on.
  function FinishedPop<T>(s: State<T>, j: nat): State<T>
    requires j < |s.cons|
  {
    match s.cons[j]
    case CIdle => s
    case CTail => PopNow(s, j)
    case CNext(_) => PopNow(s, j)
    case CCas(t, next) => if s.tail == Some(t) then TakeAll(s.(tail := next), j, t, next) else PopNow(s, j)
    case CTake(t, next) => TakeAll(s, j, t, next)
    case CMove(t, next) =>
      Settled(s.(heap := Put(s.heap, t, At(s.heap, t).(data := None))), j, t, next, At(s.heap, t).data)
    case CDone(t, next, ret) => Settled(s, j, t, next, ret)
    case CStore(t, _, ret) => Settled(s, j, t, Some(t), ret)
    case CPush(t, f, ret) =>
      if s.free == f then s.(cons := s.cons[j := CIdle], results := s.results + [ret], free := Some(t))
      else Settled(s, j, t, Some(t), ret)
  }

  // How many turns that takes.
  function PopRank<T>(s: State<T>, j: nat): nat
    requires j < |s.cons|
  {
    var afresh := if s.tail.None? then 1 else 8;
    match s.cons[j]
    case CIdle => 0
    case CTail => afresh
    case CNext(t) => if s.tail == Some(t) then 7 else afresh + 2
    case CCas(t, _) => if s.tail == Some(t) then 6 else afresh + 1
    case CTake(_, _) => 5
    case CMove(_, _) => 4
    case CDone(_, next, _) => if next.None? then 1 else 3
    case CStore(_, f, _) => if s.free == f then 2 else 4
    case CPush(_, f, _) => if s.free == f then 1 else 3
  }

  lemma PopTurn<T>(s: State<T>, j: nat)
    requires j < |s.cons| && !s.cons[j].CIdle?
    ensures var s' := StepConsumer(s, j);
            |s'.cons| == |s.cons| && FinishedPop(s', j) == FinishedPop(s, j) && PopRank(s', j) < PopRank(s, j)
  {
    match s.cons[j]
    case CTail => SearchTurn(s, j);
    case CNext(_) => SearchTurn(s, j);
    case CCas(_, _) => SearchTurn(s, j);
    case CTake(_, _) => TakeTurn(s, j);
    case CMove(_, _) => TakeTurn(s, j);
    case CDone(_, _, _) => SettleTurn(s, j);
    case CStore(_, _, _) => SettleTurn(s, j);
    case CPush(_, _, _) => SettleTurn(s, j);
  }

  lemma SearchTurn<T>(s: State<T>, j: nat)
    requires j < |s.cons| && (s.cons[j].CTail? || s.cons[j].CNext? || s.cons[j].CCas?)
    ensures var s' := StepConsumer(s, j);
            |s'.cons| == |s.cons| && FinishedPop(s', j) == FinishedPop(s, j) && PopRank(s', j) < PopRank(s, j)
  {
    var s' := StepConsumer(s, j);
    assert s'.cons[j := CIdle] == s.cons[j := CIdle];
  }

  lemma TakeTurn<T>(s: State<T>, j: nat)
    requires j < |s.cons| && (s.cons[j].CTake? || s.cons[j].CMove?)
    ensures var s' := StepConsumer(s, j);
            |s'.cons| == |s.cons| && FinishedPop(s', j) == FinishedPop(s, j) && PopRank(s', j) < PopRank(s, j)
  {
    var s', t := StepConsumer(s, j), s.cons[j].t;
    assert s'.cons[j := CIdle] == s.cons[j := CIdle];
    PutTwice(s.heap, t, At(s.heap, t).(hasValue := false), At(s.heap, t).(hasValue := false, data := None));
  }

  lemma PutTwice<T>(h: seq<Node<T>>, n: nat, x: Node<T>, y: Node<T>)
    ensures Put(Put(h, n, x), n, y) == Put(h, n, y) && (n < |h| ==> At(Put(h, n, x), n) == x)
    ensures n >= |h| ==> Put(h, n, x) == h
  {
  }

  lemma SettleTurn<T>(s: State<T>, j: nat)
    requires j < |s.cons| && (s.cons[j].CDone? || s.cons[j].CStore? || s.cons[j].CPush?)
    ensures var s' := StepConsumer(s, j);
            |s'.cons| == |s.cons| && FinishedPop(s', j) == FinishedPop(s, j) && PopRank(s', j) < PopRank(s, j)
  {
    var s', t := StepConsumer(s, j), s.cons[j].t;
    assert s'.cons[j := CIdle] == s.cons[j := CIdle];
    if s.cons[j].CStore? {
      PutTwice(s.heap, t, At(s.heap, t).(next := s.cons[j].f), At(s.heap, t).(next := s.free));
    }
  }

  // One turn, and then the others.
  lemma FirstTurn<T>(s: State<T>, a: Act<T>, n: nat)
    requires n > 0
    ensures Run(s, Turns(a, n)) == Run(Step(s, a), Turns(a, n - 1))
  {
    assert Turns(a, n) == [a] + Turns(a, n - 1);
    Then(s, [a], Turns(a, n - 1));
    One(s, a);
  }

  lemma {:induction false} PopFinishes<T>(s: State<T>, j: nat, n: nat)
    requires j < |s.cons| && n >= PopRank(s, j)
    ensures Run(s, Turns(Cons(j), n)) == FinishedPop(s, j)
    decreases n
  {
    if s.cons[j].CIdle? {
      IdleTurns(s, Cons(j), n);
    } else {
      PopTurn(s, j);
      FirstTurn(s, Cons(j), n);
      PopFinishes(StepConsumer(s, j), j, n - 1);
    }
  }

  // Ten turns are enough from anywhere, and the task is then out of `pop`.
  lemma PopEnds<T>(s: State<T>, j: nat, n: nat)
    requires j < |s.cons| && n >= 10
    ensures var s' := Run(s, Turns(Cons(j), n));
            s' == FinishedPop(s, j) && |s'.cons| == |s.cons| && s'.cons[j].CIdle?
  {
    PopFinishes(s, j, n);
  }

  // ---- push ----

  // Producer i fills node e with x and publishes it.
  function FillAll<T>(s: State<T>, i: nat, v: T, e: nat, x: Node<T>): State<T>
    requires i < |s.prods|
  {
    Published(s.(heap := Put(s.heap, e, x)), i, v, e)
  }

  // A `push` that allocates, and one from the reading of free_ on.
  function PushNew<T>(s: State<T>, i: nat, v: T): State<T>
    requires i < |s.prods|
  {
    Published(s.(heap := s.heap + [Node(None, true, Some(v))]), i, v, |s.heap|)
  }

  function PushNow<T>(s: State<T>, i: nat, v: T): State<T>
    requires i < |s.prods|
  {
    if s.free.None? then PushNew(s, i, v)
    else FillAll(s.(free := At(s.heap, s.free.value).next), i, v, s.free.value, Node(None, true, Some(v)))
  }

  // The state producer i leaves when it alone goes on.
  function FinishedPush<T>(s: State<T>, i: nat): State<T>
    requires i < |s.prods|
  {
    match s.prods[i]
    case PIdle => s
    case PFree(v) => if s.recycle then PushNow(s, i, v) else PushNew(s, i, v)
    case PNext(v, entry) => if entry.None? then PushNew(s, i, v) else PushNow(s, i, v)
    case PCas(v, e, next) =>
      if s.free == Some(e) then FillAll(s.(free := next), i, v, e, Node(None, true, Some(v))) else PushNow(s, i, v)
    case PClear(v, e) => FillAll(s, i, v, e, Node(None, true, Some(v)))
    case PCheck(v, e) => FillAll(s, i, v, e, Node(At(s.heap, e).next, true, Some(v)))
    case PWrite(v, e) => FillAll(s, i, v, e, Node(At(s.heap, e).next, true, Some(v)))
    case PFlag(v, e) => FillAll(s, i, v, e, At(s.heap, e).(hasValue := true))
    case PSwap(v, e) => Published(s, i, v, e)
    case PLink(e, None) => s.(tail := Some(e), prods := s.prods[i := PIdle])
    case PLink(e, Some(p)) =>
      s.(heap := Put(s.heap, p, At(s.heap, p).(next := Some(e))), prods := s.prods[i := PIdle])
  }

  function PushRank<T>(s: State<T>, i: nat): nat
    requires i < |s.prods|
  {
    var afresh := if s.free.None? then 6 else 8;
    match s.prods[i]
    case PIdle => 0
    case PFree(_) => if s.recycle then afresh + 1 else 7
    case PNext(_, None) => 6
    case PNext(_, Some(e)) => if s.free == Some(e) then 8 else afresh + 2
    case PCas(_, e, _) => if s.free == Some(e) then 7 else afresh + 1
    case PClear(_, _) => 6
    case PCheck(_, _) => 5
    case PWrite(_, _) => 4
    case PFlag(_, _) => 3
    case PSwap(_, _) => 2
    case PLink(_, _) => 1
  }

  lemma PushTurn<T>(s: State<T>, i: nat)
    requires i < |s.prods| && !s.prods[i].PIdle?
    ensures var s' := StepProducer(s, i);
            |s'.prods| == |s.prods| && FinishedPush(s', i) == FinishedPush(s, i) && PushRank(s', i) < PushRank(s, i)
  {
    match s.prods[i]
    case PFree(_) => ObtainTurn(s, i);
    case PNext(_, _) => ObtainTurn(s, i);
    case PCas(_, _, _) => ObtainTurn(s, i);
    case PSwap(_, _) => PublishTurn(s, i);
    case PLink(_, _) => PublishTurn(s, i);
    case _ => FillingTurn(s, i);
  }

  lemma ObtainTurn<T>(s: State<T>, i: nat)
    requires i < |s.prods| && (s.prods[i].PFree? || s.prods[i].PNext? || s.prods[i].PCas?)
    ensures var s' := StepProducer(s, i);
            |s'.prods| == |s.prods| && FinishedPush(s', i) == FinishedPush(s, i) && PushRank(s', i) < PushRank(s, i)
  {
    var s' := StepProducer(s, i);
    assert s'.prods[i := PIdle] == s.prods[i := PIdle];
    if s.prods[i].PNext? && s.prods[i].entry.None? {
      var v := s.prods[i].v;
      assert Put(s'.heap, |s.heap|, Node(None, true, Some(v))) == s.heap + [Node(None, true, Some(v))];
    }
  }

  lemma FillingTurn<T>(s: State<T>, i: nat)
    requires i < |s.prods|
    requires s.prods[i].PClear? || s.prods[i].PCheck? || s.prods[i].PWrite? || s.prods[i].PFlag?
    ensures var s' := StepProducer(s, i);
            |s'.prods| == |s.prods| && FinishedPush(s', i) == FinishedPush(s, i) && PushRank(s', i) < PushRank(s, i)
  {
    var s', e := StepProducer(s, i), s.prods[i].e;
    assert s'.prods[i := PIdle] == s.prods[i := PIdle];
    FilledLater(s.heap, s'.heap, e);
  }

  // Writing a node again leaves no trace of the first writing.
  lemma FilledLater<T>(h: seq<Node<T>>, h': seq<Node<T>>, e: nat)
    requires exists y :: h' == Put(h, e, y)
    ensures forall x :: Put(h', e, x) == Put(h, e, x)
    ensures e >= |h| ==> h' == h
  {
    forall x ensures Put(h', e, x) == Put(h, e, x) {}
  }

  lemma PublishTurn<T>(s: State<T>, i: nat)
    requires i < |s.prods| && (s.prods[i].PSwap? || s.prods[i].PLink?)
    ensures var s' := StepProducer(s, i);
            |s'.prods| == |s.prods| && FinishedPush(s', i) == FinishedPush(s, i) && PushRank(s', i) < PushRank(s, i)
  {
    var s' := StepProducer(s, i);
    assert s'.prods[i := PIdle] == s.prods[i := PIdle];
  }

  lemma {:induction false} PushFinishes<T>(s: State<T>, i: nat, n: nat)
    requires i < |s.prods| && n >= PushRank(s, i)
    ensures Run(s, Turns(Prod(i), n)) == FinishedPush(s, i)
    decreases n
  {
    if s.prods[i].PIdle? {
      IdleTurns(s, Prod(i), n);
    } else {
      PushTurn(s, i);
      FirstTurn(s, Prod(i), n);
      PushFinishes(StepProducer(s, i), i, n - 1);
    }
  }

  // Ten turns are enough from anywhere, and the task is then out of `push`.
  lemma PushEnds<T>(s: State<T>, i: nat, n: nat)
    requires i < |s.prods| && n >= 10
    ensures var s' := Run(s, Turns(Prod(i), n));
            s' == FinishedPush(s, i) && |s'.prods| == |s.prods| && s'.prods[i].PIdle?
  {
    PushFinishes(s, i, n);
  }
}
