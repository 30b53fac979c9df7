/** One whole `push` or `pop` of `QueueMachine`, run without interruption: the call, and then turns of
    the same task only. */
module QueueSolo {
  import opened Options
  import opened QueueMachine

  // One more step of a run.
  lemma More<T>(s: State<T>, acts: seq<Act<T>>, t: State<T>, a: Act<T>) returns (acts': seq<Act<T>>, t': State<T>)
    requires Run(s, acts) == t
    ensures acts' == acts + [a] && t' == Step(t, a) && Run(s, acts') == t'
  {
    acts', t' := acts + [a], Step(t, a);
    assert acts'[..|acts' | - 1] == acts;
  }

  lemma {:induction false} Then<T>(s: State<T>, a: seq<Act<T>>, b: seq<Act<T>>)
    ensures Run(s, a + b) == Run(Run(s, a), b)
    decreases |b|
  {
    if b == [] {
      assert a + b == a;
    } else {
      var n, c := |b| - 1, a + b;
      Then(s, a, b[..n]);
      assert c[..|c| - 1] == a + b[..n] && c[|c| - 1] == b[n];
      Last(s, c);
      Last(Run(s, a), b);
    }
  }

  lemma Last<T>(s: State<T>, c: seq<Act<T>>)
    requires c != []
    ensures Run(s, c) == Step(Run(s, c[..|c| - 1]), c[|c| - 1])
  {
  }

  lemma One<T>(s: State<T>, a: Act<T>)
    ensures Run(s, [a]) == Step(s, a)
  {
    assert [a][..0] == [] && Run(s, []) == s;
  }

  // The same choice n times.
  function Turns<T>(a: Act<T>, n: nat): seq<Act<T>> { seq(n, _ => a) }

  lemma NextTurn<T>(s: State<T>, a: Act<T>, n: nat, t: State<T>) returns (n': nat, t': State<T>)
    requires Run(s, Turns(a, n)) == t
    ensures n' == n + 1 && t' == Step(t, a) && Run(s, Turns(a, n')) == t'
  {
    n', t' := n + 1, Step(t, a);
    assert Turns(a, n')[..n] == Turns(a, n);
  }

  lemma MoreTurns<T>(s: State<T>, a: Act<T>, m: nat, n: nat)
    ensures Run(s, Turns(a, m + n)) == Run(Run(s, Turns(a, m)), Turns(a, n))
  {
    Then(s, Turns(a, m), Turns(a, n));
    assert Turns(a, m) + Turns(a, n) == Turns(a, m + n);
  }

  lemma {:induction false} IdleTurns<T>(s: State<T>, a: Act<T>, n: nat)
    requires Step(s, a) == s
    ensures Run(s, Turns(a, n)) == s
  {
    if n > 0 {
      IdleTurns(s, a, n - 1);
      var m, t := NextTurn(s, a, n - 1, s);
    }
  }

  // A call, and then `turns` turns of the task that made it: 9 are enough for a `push`, 8 for a `pop`.
  function PushActs<T>(i: nat, v: T, turns: nat): seq<Act<T>> { [Push(i, v)] + Turns(Prod(i), turns) }

  function PopActs<T>(j: nat, turns: nat): seq<Act<T>> { [Pop(j)] + Turns(Cons(j), turns) }

  lemma AfterCall<T>(s: State<T>, call: Act<T>, a: Act<T>, n: nat, t: State<T>, turns: nat)
    requires n <= turns && Run(Step(s, call), Turns(a, n)) == t && Step(t, a) == t
    ensures Run(s, [call] + Turns(a, turns)) == t
  {
    One(s, call);
    Then(s, [call], Turns(a, turns));
    MoreTurns(Step(s, call), a, n, turns - n);
    IdleTurns(t, a, turns - n);
  }

  // The same when the turns come in two stretches.
  lemma AfterCallTwice<T>(s: State<T>, call: Act<T>, a: Act<T>, m: nat, u: State<T>, n: nat, t: State<T>, turns: nat)
    requires m + n <= turns && Run(Step(s, call), Turns(a, m)) == u && Run(u, Turns(a, n)) == t && Step(t, a) == t
    ensures Run(s, [call] + Turns(a, turns)) == t
  {
    MoreTurns(Step(s, call), a, m, n);
    AfterCall(s, call, a, m + n, t, turns);
  }

  // `new_entry` and `put_data`: up to the head_ exchange.
  function Prepared<T>(s: State<T>, i: nat, v: T): State<T>
    requires i < |s.prods|
  {
    if s.recycle && s.free.Some? then
      var e := s.free.value;
      s.(heap := Put(s.heap, e, Node(None, true, Some(v))), free := At(s.heap, e).next,
         prods := s.prods[i := PSwap(v, e)], submitted := s.submitted + [v])
    else
      s.(heap := s.heap + [Node(None, true, Some(v))],
         prods := s.prods[i := PSwap(v, |s.heap|)], submitted := s.submitted + [v])
  }

  // The head_ exchange and the store that links the node.
  function Published<T>(s: State<T>, i: nat, v: T, e: nat): State<T>
    requires i < |s.prods|
  {
    s.(head := Some(e), prods := s.prods[i := PIdle], order := s.order + [v],
       tail := if s.head.None? then Some(e) else s.tail,
       heap := if s.head.None? then s.heap
               else Put(s.heap, s.head.value, At(s.heap, s.head.value).(next := Some(e))))
  }

  // The compare-exchange on tail_ and `take_data`.
  function Taken<T>(s: State<T>, j: nat, t: nat): State<T>
    requires j < |s.cons|
  {
    var n := At(s.heap, t);
    s.(tail := n.next, heap := Put(s.heap, t, Node(n.next, false, if n.hasValue then None else n.data)),
       cons := s.cons[j := CDone(t, n.next, if n.hasValue then n.data else None)])
  }

  // The rest of `pop`: restore tail_, or recycle the node.
  function Settled<T>(s: State<T>, j: nat, t: nat, next: Ptr, ret: Option<T>): State<T>
    requires j < |s.cons|
  {
    var s1 := s.(cons := s.cons[j := CIdle], results := s.results + [ret]);
    if next.None? then s1.(tail := Some(t))
    else s1.(heap := Put(s.heap, t, At(s.heap, t).(next := s.free)), free := Some(t))
  }

  // Up to the test of has_value in `put_data`.
  function Entered<T>(s: State<T>, i: nat, v: T): State<T>
    requires i < |s.prods|
  {
    if s.recycle && s.free.Some? then
      var e := s.free.value;
      s.(heap := Put(s.heap, e, At(s.heap, e).(next := None)), free := At(s.heap, e).next,
         prods := s.prods[i := PCheck(v, e)], submitted := s.submitted + [v])
    else
      s.(heap := s.heap + [Node(None, false, None)],
         prods := s.prods[i := PCheck(v, |s.heap|)], submitted := s.submitted + [v])
  }

  lemma Enter<T>(s: State<T>, i: nat, v: T) returns (n: nat)
    requires i < |s.prods| && s.prods[i] == PIdle
    ensures n <= 4 && Run(Step(s, Push(i, v)), Turns(Prod(i), n)) == Entered(s, i, v)
  {
    if s.recycle && s.free.Some? {
      EnterSpare(s, i, v);
      n := 4;
    } else {
      EnterNew(s, i, v);
      n := 2;
    }
  }

  lemma EnterNew<T>(s: State<T>, i: nat, v: T)
    requires i < |s.prods| && s.prods[i] == PIdle && !(s.recycle && s.free.Some?)
    ensures Run(Step(s, Push(i, v)), Turns(Prod(i), 2)) == Entered(s, i, v)
  {
    var s1, a := Step(s, Push(i, v)), Prod(i);
    var n, t := NextTurn(s1, a, 0, s1);
    n, t := NextTurn(s1, a, n, t);
    assert t.prods == Entered(s, i, v).prods;
  }

  lemma EnterSpare<T>(s: State<T>, i: nat, v: T)
    requires i < |s.prods| && s.prods[i] == PIdle && s.recycle && s.free.Some?
    ensures Run(Step(s, Push(i, v)), Turns(Prod(i), 4)) == Entered(s, i, v)
  {
    var s1, a, e := Step(s, Push(i, v)), Prod(i), s.free.value;
    var n, t := NextTurn(s1, a, 0, s1);
    n, t := NextTurn(s1, a, n, t);
    assert t.prods[i] == PCas(v, e, At(s.heap, e).next);
    n, t := NextTurn(s1, a, n, t);
    assert t.prods[i] == PClear(v, e) && t.free == At(s.heap, e).next;
    n, t := NextTurn(s1, a, n, t);
    assert t.prods == Entered(s, i, v).prods;
  }

  // Up to the reading of the successor of the top of the free list.
  lemma LookFree<T>(s: State<T>, i: nat, v: T, e: nat)
    requires i < |s.prods| && s.prods[i] == PIdle && s.recycle && s.free == Some(e)
    ensures Run(Step(s, Push(i, v)), Turns(Prod(i), 2)) ==
            s.(prods := s.prods[i := PCas(v, e, At(s.heap, e).next)], submitted := s.submitted + [v])
  {
    var s1, a := Step(s, Push(i, v)), Prod(i);
    var n, t := NextTurn(s1, a, 0, s1);
    assert t.prods == s.prods[i := PNext(v, Some(e))];
    n, t := NextTurn(s1, a, n, t);
    assert t.prods == s.prods[i := PCas(v, e, At(s.heap, e).next)];
  }

  lemma Prepare<T>(s: State<T>, i: nat, v: T) returns (n: nat)
    requires i < |s.prods| && s.prods[i] == PIdle && (s.free.Some? ==> s.free.value < |s.heap|)
    ensures n <= 7 && Run(Step(s, Push(i, v)), Turns(Prod(i), n)) == Prepared(s, i, v)
  {
    var k := Enter(s, i, v);
    var t := Entered(s, i, v);
    Fill(t, i, v, t.prods[i].e);
    MoreTurns(Step(s, Push(i, v)), Prod(i), k, 3);
    n := k + 3;
    assert Run(t, Turns(Prod(i), 3)).prods == Prepared(s, i, v).prods;
    assert Run(t, Turns(Prod(i), 3)).heap == Prepared(s, i, v).heap;
  }

  // Producer i has moved on to p and changed node e to x.
  function Touched<T>(s: State<T>, i: nat, p: Producer<T>, e: nat, x: Node<T>): State<T>
    requires i < |s.prods| && e < |s.heap|
  {
    s.(heap := s.heap[e := x], prods := s.prods[i := p])
  }

  lemma TouchedTwice<T>(s: State<T>, i: nat, p: Producer<T>, e: nat, x: Node<T>, p': Producer<T>, x': Node<T>)
    requires i < |s.prods| && e < |s.heap|
    ensures Touched(Touched(s, i, p, e, x), i, p', e, x') == Touched(s, i, p', e, x')
  {
    assert s.heap[e := x][e := x'] == s.heap[e := x'];
    assert s.prods[i := p][i := p'] == s.prods[i := p'];
  }

  lemma FillTurn<T>(s: State<T>, i: nat, p: Producer<T>, e: nat, x: Node<T>)
    requires i < |s.prods| && e < |s.heap|
    requires (p.PCheck? || p.PWrite? || p.PFlag?) && p.e == e
    ensures Step(Touched(s, i, p, e, x), Prod(i)) ==
            match p
            case PCheck(v, _) =>
              Touched(s, i, PWrite(v, e), e, x.(data := if x.hasValue then None else x.data))
            case PWrite(v, _) => Touched(s, i, PFlag(v, e), e, x.(data := Some(v)))
            case PFlag(v, _) => Touched(s, i, PSwap(v, e), e, x.(hasValue := true))
            case _ => s
  {
    var t := Touched(s, i, p, e, x);
    match p
    case PCheck(v, _) =>
      TouchedTwice(s, i, p, e, x, PWrite(v, e), x.(data := if x.hasValue then None else x.data));
    case PWrite(v, _) => TouchedTwice(s, i, p, e, x, PFlag(v, e), x.(data := Some(v)));
    case PFlag(v, _) => TouchedTwice(s, i, p, e, x, PSwap(v, e), x.(hasValue := true));
    case _ =>
  }

  lemma Fill<T>(s: State<T>, i: nat, v: T, e: nat)
    requires i < |s.prods| && s.prods[i] == PCheck(v, e) && e < |s.heap|
    ensures Run(s, Turns(Prod(i), 3)) == Touched(s, i, PSwap(v, e), e, Node(s.heap[e].next, true, Some(v)))
  {
    var x := s.heap[e];
    assert Touched(s, i, PCheck(v, e), e, x) == s;
    var k, t := NextTurn(s, Prod(i), 0, s);
    FillTurn(s, i, PCheck(v, e), e, x);
    x := x.(data := if x.hasValue then None else x.data);
    k, t := NextTurn(s, Prod(i), k, t);
    FillTurn(s, i, PWrite(v, e), e, x);
    x := x.(data := Some(v));
    k, t := NextTurn(s, Prod(i), k, t);
    FillTurn(s, i, PFlag(v, e), e, x);
  }

  // The head_ exchange.
  function Swapped<T>(s: State<T>, i: nat, v: T, e: nat): State<T>
    requires i < |s.prods|
  {
    s.(head := Some(e), prods := s.prods[i := PLink(e, s.head)], order := s.order + [v])
  }

  lemma LinkTurn<T>(s: State<T>, i: nat, v: T, e: nat)
    requires i < |s.prods|
    ensures Step(Swapped(s, i, v, e), Prod(i)) == Published(s, i, v, e)
  {
    assert s.prods[i := PLink(e, s.head)][i := PIdle] == s.prods[i := PIdle];
  }

  lemma Publish<T>(s: State<T>, i: nat, v: T, e: nat)
    requires i < |s.prods| && s.prods[i] == PSwap(v, e)
    ensures Run(s, Turns(Prod(i), 2)) == Published(s, i, v, e)
  {
    var k, t := NextTurn(s, Prod(i), 0, s);
    assert t == Swapped(s, i, v, e);
    LinkTurn(s, i, v, e);
    k, t := NextTurn(s, Prod(i), k, t);
  }

  // Up to the reading of the successor of the front node.
  function Read<T>(s: State<T>, j: nat, t: nat): State<T>
    requires j < |s.cons|
  {
    s.(cons := s.cons[j := CCas(t, At(s.heap, t).next)])
  }

  lemma Look<T>(s: State<T>, j: nat, t: nat)
    requires j < |s.cons| && s.cons[j] == CIdle && s.tail == Some(t)
    ensures Run(Step(s, Pop(j)), Turns(Cons(j), 2)) == Read(s, j, t)
  {
    var s1, a := Step(s, Pop(j)), Cons(j);
    var n, u := NextTurn(s1, a, 0, s1);
    assert u.cons == s.cons[j := CNext(t)];
    n, u := NextTurn(s1, a, n, u);
    assert u.cons == Read(s, j, t).cons;
  }

  // Up to the compare-exchange on tail_.
  function Won<T>(s: State<T>, j: nat, t: nat): State<T>
    requires j < |s.cons|
  {
    s.(tail := At(s.heap, t).next, cons := s.cons[j := CTake(t, At(s.heap, t).next)])
  }

  lemma Win<T>(s: State<T>, j: nat, t: nat)
    requires j < |s.cons| && s.cons[j] == CIdle && s.tail == Some(t)
    ensures Run(Step(s, Pop(j)), Turns(Cons(j), 3)) == Won(s, j, t)
  {
    Look(s, j, t);
    var n, u := NextTurn(Step(s, Pop(j)), Cons(j), 2, Read(s, j, t));
    assert u.cons == Won(s, j, t).cons;
  }

  lemma Take<T>(s: State<T>, j: nat, t: nat) returns (n: nat)
    requires j < |s.cons| && s.cons[j] == CIdle && s.tail == Some(t) && t < |s.heap|
    ensures n <= 5 && Run(Step(s, Pop(j)), Turns(Cons(j), n)) == Taken(s, j, t)
  {
    Win(s, j, t);
    var u;
    n, u := NextTurn(Step(s, Pop(j)), Cons(j), 3, Won(s, j, t));
    if s.heap[t].hasValue {
      n, u := NextTurn(Step(s, Pop(j)), Cons(j), n, u);
    }
    assert u.cons == Taken(s, j, t).cons;
    assert u.heap == Taken(s, j, t).heap;
  }

  lemma Settle<T>(s: State<T>, j: nat, t: nat, next: Ptr, ret: Option<T>) returns (n: nat)
    requires j < |s.cons| && s.cons[j] == CDone(t, next, ret) && t < |s.heap|
    ensures n <= 3 && Run(s, Turns(Cons(j), n)) == Settled(s, j, t, next, ret)
  {
    var u;
    n, u := NextTurn(s, Cons(j), 0, s);
    if next.Some? {
      assert u == s.(cons := s.cons[j := CStore(t, s.free, ret)]);
      n, u := NextTurn(s, Cons(j), n, u);
      n, u := NextTurn(s, Cons(j), n, u);
    }
    assert u.cons == s.cons[j := CIdle];
  }

  // A whole `push`, and a whole `pop` that finds a node.
  function Pushed<T>(s: State<T>, i: nat, v: T): State<T>
    requires i < |s.prods|
  {
    var e := if s.recycle && s.free.Some? then s.free.value else |s.heap|;
    Published(Prepared(s, i, v), i, v, e)
  }

  function Popped<T>(s: State<T>, j: nat, t: nat): State<T>
    requires j < |s.cons|
  {
    var n := At(s.heap, t);
    Settled(Taken(s, j, t), j, t, n.next, if n.hasValue then n.data else None)
  }

  lemma SoloPush<T>(s: State<T>, i: nat, v: T, turns: nat)
    requires i < |s.prods| && s.prods[i] == PIdle && (s.free.Some? ==> s.free.value < |s.heap|)
    requires turns >= 9
    ensures Run(s, PushActs(i, v, turns)) == Pushed(s, i, v)
  {
    var e := if s.recycle && s.free.Some? then s.free.value else |s.heap|;
    var n := Prepare(s, i, v);
    Publish(Prepared(s, i, v), i, v, e);
    PushedStops(s, i, v);
    AfterCallTwice(s, Push(i, v), Prod(i), n, Prepared(s, i, v), 2, Pushed(s, i, v), turns);
  }

  lemma PushedStops<T>(s: State<T>, i: nat, v: T)
    requires i < |s.prods|
    ensures Step(Pushed(s, i, v), Prod(i)) == Pushed(s, i, v)
  {
  }

  lemma SoloPop<T>(s: State<T>, j: nat, t: nat, turns: nat)
    requires j < |s.cons| && s.cons[j] == CIdle && s.tail == Some(t) && t < |s.heap|
    requires turns >= 8
    ensures Run(s, PopActs(j, turns)) == Popped(s, j, t)
  {
    var m := Take(s, j, t);
    var n := SettleTaken(s, j, t);
    PoppedStops(s, j, t);
    AfterCallTwice(s, Pop(j), Cons(j), m, Taken(s, j, t), n, Popped(s, j, t), turns);
  }

  lemma SettleTaken<T>(s: State<T>, j: nat, t: nat) returns (n: nat)
    requires j < |s.cons| && t < |s.heap|
    ensures n <= 3 && Run(Taken(s, j, t), Turns(Cons(j), n)) == Popped(s, j, t)
  {
    var x := s.heap[t];
    n := Settle(Taken(s, j, t), j, t, x.next, if x.hasValue then x.data else None);
  }

  lemma PoppedStops<T>(s: State<T>, j: nat, t: nat)
    requires j < |s.cons|
    ensures Step(Popped(s, j, t), Cons(j)) == Popped(s, j, t)
  {
  }

  lemma SoloPopEmpty<T>(s: State<T>, j: nat, turns: nat)
    requires j < |s.cons| && s.cons[j] == CIdle && s.tail == None && turns >= 8
    ensures Run(s, PopActs(j, turns)) == s.(results := s.results + [None])
  {
    var n, u := NextTurn(Step(s, Pop(j)), Cons(j), 0, Step(s, Pop(j)));
    assert u.cons == s.cons;
    AfterCall(s, Pop(j), Cons(j), n, u, turns);
  }
}
