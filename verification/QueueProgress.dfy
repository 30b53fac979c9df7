/** What an operation of `QueueMachine` that has begun comes back with when its task gets ten turns in a
    row, in every reachable state. */
module QueueProgress {
  import opened Options
  import opened Sequences
  import opened QueueMachine
  import opened QueueInvariant
  import opened QueueSolo
  import opened QueueFinish
  import opened QueueTheorems

  // The consumer has not won tail_ yet.
  predicate Searching<T>(c: Consumer<T>) { c.CTail? || c.CNext? || c.CCas? }

  // There is nothing to win: tail_ is null or the front node is spent.
  predicate NothingInFront<T>(s: State<T>) { s.tail.None? || !At(s.heap, s.tail.value).hasValue }

  function PopResult<T>(s: State<T>, j: nat): Option<T>
    requires j < |s.cons|
  {
    if !Searching(s.cons[j]) then Hand(s, j)
    else if NothingInFront(s) then None
    else At(s.heap, s.tail.value).data
  }

  lemma FinishedResult<T>(s: State<T>, j: nat)
    requires j < |s.cons| && !s.cons[j].CIdle?
    ensures FinishedPop(s, j).results == s.results + [PopResult(s, j)]
  {
  }

  // ---- a consumer alone ----

  // What consecutive turns of consumer j do to a queue with empty pops: the oldest value may have moved
  // into its hand, and what was in its hand may have been returned.
  ghost predicate SoloMove<T>(s: State<T>, q: seq<T>, j: nat, s': State<T>, q': seq<T>)
    requires j < |s.cons| == |s'.cons|
  {
    && s'.order == s.order
    && (|| Moved(q, Hand(s, j), q', Hand(s', j), s.results, s'.results)
        || (s'.cons[j].CIdle? && s'.results != [] &&
            Moved(q, Hand(s, j), q', s'.results[|s'.results| - 1], s.results, s'.results[..|s'.results| - 1])))
  }

  predicate Moved<T(==)>(q: seq<T>, h: Option<T>, q': seq<T>, h': Option<T>, rs: seq<Option<T>>, rs': seq<Option<T>>) {
    rs' == rs && ((q' == q && h' == h) || (h == None && q != [] && q' == q[1..] && h' == Some(q[0])))
  }

  lemma SoloMoves<T>(s: State<T>, q: seq<T>, j: nat, s1: State<T>, q1: seq<T>, s2: State<T>, q2: seq<T>)
    requires j < |s.cons| == |s1.cons| && SoloMove(s, q, j, s1, q1)
    requires FifoMove(s1, q1, Cons(j), s2, q2)
    ensures SoloMove(s, q, j, s2, q2)
  {
    if !s1.cons[j].CIdle? {
      assert Hands(s1)[j] == Hand(s1, j) && Hands(s2)[j] == Hand(s2, j);
      if s2.cons[j].CIdle? {
        assert s2.results[..|s2.results| - 1] == s1.results;
      }
    }
  }

  lemma {:induction false} SoloTurns<T>(s: State<T>, g: View, j: nat, n: nat) returns (g': View)
    requires Good(s, g) && j < |s.cons|
    ensures var s' := Run(s, Turns(Cons(j), n));
            && Good(s', g') && |s'.cons| == |s.cons|
            && SoloMove(s, Waiting(s, g.taken), j, s', Waiting(s', g'.taken))
    decreases n
  {
    if n == 0 {
      g' := g;
    } else {
      var g1 := SoloTurns(s, g, j, n - 1);
      var s1 := Run(s, Turns(Cons(j), n - 1));
      g' := SoloTurn(s, g, j, s1, g1);
      var k, s2 := NextTurn(s, Cons(j), n - 1, s1);
    }
  }

  lemma SoloTurn<T>(s: State<T>, g: View, j: nat, s1: State<T>, g1: View) returns (g2: View)
    requires Good(s1, g1) && j < |s.cons| == |s1.cons|
    requires SoloMove(s, Waiting(s, g.taken), j, s1, Waiting(s1, g1.taken))
    ensures var s2 := Step(s1, Cons(j));
            && Good(s2, g2) && |s2.cons| == |s.cons|
            && SoloMove(s, Waiting(s, g.taken), j, s2, Waiting(s2, g2.taken))
  {
    g2 := Track(s1, g1, Cons(j));
    StepGood(s1, g1, Cons(j));
    FifoStep(s1, g1, Cons(j));
    var s2 := Step(s1, Cons(j));
    SoloMoves(s, Waiting(s, g.taken), j, s1, Waiting(s1, g1.taken), s2, Waiting(s2, g2.taken));
  }

  // The front node carries the oldest value waiting, unless it is spent.
  lemma FrontIsOldest<T>(s: State<T>, g: View)
    requires Sizes(s, g) && Roles(s, g) && Values(s, g) && Ends(s, g) && !NothingInFront(s)
    ensures Waiting(s, g.taken) != [] && At(s.heap, s.tail.value).data == Some(Waiting(s, g.taken)[0])
  {
    assert s.tail == Some(g.chain[g.base]);
  }

  // A consumer inside `pop`, in any reachable state, after ten turns of its own in a row: it has
  // returned what was in its hand, if it had won tail_ before; otherwise the oldest value waiting, or
  // nothing exactly when tail_ was null or the front node spent.
  lemma PopReturns<T>(recycle: bool, capacity: nat, prods: nat, cons: nat, acts: seq<Act<T>>, j: nat, n: nat)
    returns (taken: nat, live: seq<nat>, taken': nat, live': seq<nat>)
    requires Safe(recycle, prods, cons) && n >= 10
    requires var s := Reached(recycle, capacity, prods, cons, acts); j < |s.cons| && !s.cons[j].CIdle?
    ensures var s := Reached(recycle, capacity, prods, cons, acts);
            var s' := Reached(recycle, capacity, prods, cons, acts + Turns(Cons(j), n));
            && Queued(s, taken, live) && Queued(s', taken', live')
            && Comeback(s, Waiting(s, taken), j, s', Waiting(s', taken'))
  {
    var s := Reached(recycle, capacity, prods, cons, acts);
    var g := Reachable(recycle, capacity, prods, cons, acts);
    var g' := PopAlone(s, g, j, n);
    Then(Start<T>(recycle, capacity, prods, cons), acts, Turns(Cons(j), n));
    taken, taken' := g.taken, g'.taken;
    live := GoodQueued(s, g);
    live' := GoodQueued(Run(s, Turns(Cons(j), n)), g');
  }

  lemma GoodQueued<T>(s: State<T>, g: View) returns (live: seq<nat>)
    requires Good(s, g)
    ensures Queued(s, g.taken, live)
  {
    live := g.chain[g.base..];
    ViewQueued(s, g);
  }

  // Consumer j has come back: it has returned what was in its hand, if it had won tail_ before; otherwise
  // the oldest value of q, or nothing exactly when nothing was in front.
  ghost predicate Comeback<T>(s: State<T>, q: seq<T>, j: nat, s': State<T>, q': seq<T>)
    requires j < |s.cons|
  {
    && |s'.cons| == |s.cons| && s'.cons[j].CIdle? && s'.order == s.order
    && (if Searching(s.cons[j]) && !NothingInFront(s)
        then q != [] && s'.results == s.results + [Some(q[0])] && q' == q[1..]
        else s'.results == s.results + [if Searching(s.cons[j]) then None else Hand(s, j)] && q' == q)
  }

  lemma PopAlone<T>(s: State<T>, g: View, j: nat, n: nat) returns (g': View)
    requires Good(s, g) && j < |s.cons| && !s.cons[j].CIdle? && n >= 10
    ensures var s' := Run(s, Turns(Cons(j), n));
            Good(s', g') && Comeback(s, Waiting(s, g.taken), j, s', Waiting(s', g'.taken))
  {
    g' := SoloTurns(s, g, j, n);
    PopEnds(s, j, n);
    FinishedResult(s, j);
    if Searching(s.cons[j]) && !NothingInFront(s) { FrontIsOldest(s, g); }
    Concluded(s, Waiting(s, g.taken), j, Run(s, Turns(Cons(j), n)), Waiting(Run(s, Turns(Cons(j), n)), g'.taken));
  }

  lemma Concluded<T>(s: State<T>, q: seq<T>, j: nat, s': State<T>, q': seq<T>)
    requires j < |s.cons| == |s'.cons| && SoloMove(s, q, j, s', q') && s'.cons[j].CIdle?
    requires s'.results == s.results + [PopResult(s, j)] && (Searching(s.cons[j]) ==> Hand(s, j) == None)
    requires Searching(s.cons[j]) && !NothingInFront(s) ==> q != [] && At(s.heap, s.tail.value).data == Some(q[0])
    ensures Comeback(s, q, j, s', q')
  {
    assert s'.results[|s'.results| - 1] == PopResult(s, j) && s'.results[..|s'.results| - 1] == s.results;
  }

  // ---- a producer alone ----

  lemma ProducerTurn<T>(s: State<T>, g: View, i: nat) returns (g': View)
    requires Good(s, g)
    ensures Good(Step(s, Prod(i)), g') && g'.taken == g.taken
  {
    g' := Track(s, g, Prod(i));
    SameTaken(s, g, i);
    StepGood(s, g, Prod(i));
  }

  lemma SameTaken<T>(s: State<T>, g: View, i: nat)
    ensures Track(s, g, Prod(i)).taken == g.taken
  {
  }

  lemma {:induction false} ProducerTurns<T>(s: State<T>, g: View, i: nat, n: nat) returns (g': View)
    requires Good(s, g)
    ensures Good(Run(s, Turns(Prod(i), n)), g') && g'.taken == g.taken
    decreases n
  {
    if n == 0 {
      g' := g;
    } else {
      var g1 := ProducerTurns(s, g, i, n - 1);
      var s1 := Run(s, Turns(Prod(i), n - 1));
      g' := ProducerTurn(s1, g1, i);
      var k, s2 := NextTurn(s, Prod(i), n - 1, s1);
    }
  }

  // What a push leaves alone, and the value it may have added to the order.
  ghost predicate OnlyAdds<T>(s: State<T>, vs: seq<T>, s': State<T>) {
    s'.order == s.order + vs && s'.results == s.results && s'.submitted == s.submitted && s'.cons == s.cons
  }

  lemma FinishedOrder<T>(s: State<T>, i: nat)
    requires i < |s.prods|
    ensures OnlyAdds(s, OnItsWay(s.prods[i]), FinishedPush(s, i))
  {
    match s.prods[i]
    case PFree(v) => NowOrder(s, i, v);
    case PNext(v, _) => NowOrder(s, i, v);
    case PCas(v, _, _) => NowOrder(s, i, v);
    case _ => assert s.order + [] == s.order;
  }

  lemma NowOrder<T>(s: State<T>, i: nat, v: T)
    requires i < |s.prods|
    ensures OnlyAdds(s, [v], PushNew(s, i, v)) && OnlyAdds(s, [v], PushNow(s, i, v))
  {
  }

  // A producer inside `push`, in any reachable state, after ten turns of its own in a row: its value, if
  // it was still on its way, is the last one waiting; nothing else has changed for anybody, and a node
  // was allocated only if there was none to reuse.
  lemma PushReturns<T>(recycle: bool, capacity: nat, prods: nat, cons: nat, acts: seq<Act<T>>, i: nat, n: nat)
    returns (taken: nat, live: seq<nat>, live': seq<nat>)
    requires Safe(recycle, prods, cons) && n >= 10
    requires var s := Reached(recycle, capacity, prods, cons, acts); i < |s.prods|
    ensures var s := Reached(recycle, capacity, prods, cons, acts);
            var s' := Reached(recycle, capacity, prods, cons, acts + Turns(Prod(i), n));
            && Queued(s, taken, live) && Queued(s', taken, live') && |s'.prods| == |s.prods| && s'.prods[i].PIdle?
            && s'.order == s.order + OnItsWay(s.prods[i])
            && Waiting(s', taken) == Waiting(s, taken) + OnItsWay(s.prods[i])
            && s'.results == s.results && s'.submitted == s.submitted && s'.cons == s.cons
            && |s'.heap| == |s.heap| + if Allocates(s, i) then 1 else 0
  {
    var s := Reached(recycle, capacity, prods, cons, acts);
    var g := Reachable(recycle, capacity, prods, cons, acts);
    var g' := ProducerTurns(s, g, i, n);
    Then(Start<T>(recycle, capacity, prods, cons), acts, Turns(Prod(i), n));
    taken, live, live' := g.taken, g.chain[g.base..], g'.chain[g'.base..];
    ViewQueued(s, g);
    ViewQueued(Run(s, Turns(Prod(i), n)), g');
    PushDone(s, i, n, taken);
  }

  lemma PushDone<T>(s: State<T>, i: nat, n: nat, taken: nat)
    requires i < |s.prods| && n >= 10 && taken <= |s.order|
    ensures var s' := Run(s, Turns(Prod(i), n));
            && |s'.prods| == |s.prods| && s'.prods[i].PIdle?
            && s'.order == s.order + OnItsWay(s.prods[i])
            && Waiting(s', taken) == Waiting(s, taken) + OnItsWay(s.prods[i])
            && s'.results == s.results && s'.submitted == s.submitted && s'.cons == s.cons
            && |s'.heap| == |s.heap| + if Allocates(s, i) then 1 else 0
  {
    PushEnds(s, i, n);
    FinishedOrder(s, i);
    FinishedHeap(s, i);
  }

  // The producer has no node yet, and will find none on the free list.
  predicate Allocates<T>(s: State<T>, i: nat)
    requires i < |s.prods|
  {
    match s.prods[i]
    case PFree(_) => !s.recycle || s.free.None?
    case PNext(_, entry) => entry.None? || s.free.None?
    case PCas(_, _, _) => s.free.None?
    case _ => false
  }

  lemma FinishedHeap<T>(s: State<T>, i: nat)
    requires i < |s.prods|
    ensures |FinishedPush(s, i).heap| == |s.heap| + if Allocates(s, i) then 1 else 0
  {
    match s.prods[i]
    case PFree(v) => NewHeap(s, i, v);
    case PNext(v, _) => NewHeap(s, i, v);
    case PCas(v, _, _) => NewHeap(s, i, v);
    case _ =>
  }

  lemma NewHeap<T>(s: State<T>, i: nat, v: T)
    requires i < |s.prods|
    ensures |PushNew(s, i, v).heap| == |s.heap| + 1
    ensures |PushNow(s, i, v).heap| == |s.heap| + if s.free.None? then 1 else 0
  {
  }
}
