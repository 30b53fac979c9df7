/** What `QueueMachine` guarantees on every run. */
module QueueTheorems {
  import opened Options
  import opened Sequences
  import opened QueueMachine
  import opened QueueInvariant
  import QueueSteps

  // Recycled nodes are safe with one producer and one consumer; without recycling any number is.
  predicate Safe(recycle: bool, prods: nat, cons: nat) {
    recycle ==> prods <= 1 && cons <= 1
  }

  function StartView(capacity: nat, cons: nat): View {
    View([], [], 0, 0, false, None, seq(capacity, k requires 0 <= k => k),
         seq(capacity, k requires 0 <= k => Spare(k)), seq(cons, _ => None), [], [])
  }

  lemma StartInv<T>(recycle: bool, capacity: nat, prods: nat, cons: nat)
    requires Safe(recycle, prods, cons)
    ensures Inv(Start<T>(recycle, capacity, prods, cons), StartView(capacity, cons))
  {
    var s: State<T>, g := Start(recycle, capacity, prods, cons), StartView(capacity, cons);
    assert forall k :: 0 <= k < |g.stack| ==> StackedAt(s, g, k);
    assert Sizes(s, g) && Roles(s, g) && Ends(s, g);
    assert forall i :: 0 <= i < |s.prods| ==> ProducerOk(s, g, i);
    assert forall j :: 0 <= j < |s.cons| ==> ConsumerOk(s, g, j);
  }

  // Every scheduling choice keeps the invariant.
  lemma StepInv<T>(s: State<T>, g: View, a: Act<T>)
    requires Inv(s, g)
    ensures Inv(Step(s, a), Track(s, g, a))
  {
    match a
    case Push(i, v) => PushInv(s, g, a);
    case Prod(i) => ProdInv(s, g, a);
    case Pop(j) => PopInv(s, g, a);
    case Cons(j) => ConsInv(s, g, a);
  }

  lemma PushInv<T>(s: State<T>, g: View, a: Act<T>)
    requires Inv(s, g) && a.Push?
    ensures Inv(Step(s, a), Track(s, g, a))
  {
    if a.i < |s.prods| && s.prods[a.i].PIdle? { StartPush(s, g, a.i, a.v); }
  }

  lemma ProdInv<T>(s: State<T>, g: View, a: Act<T>)
    requires Inv(s, g) && a.Prod?
    ensures Inv(Step(s, a), Track(s, g, a))
  {
    if a.i < |s.prods| {
      assert Step(s, a) == StepProducer(s, a.i) && Track(s, g, a) == TrackProducer(s, g, a.i);
      QueueSteps.ProducerStep(s, g, a.i);
    }
  }

  lemma PopInv<T>(s: State<T>, g: View, a: Act<T>)
    requires Inv(s, g) && a.Pop?
    ensures Inv(Step(s, a), Track(s, g, a))
  {
    if a.j < |s.cons| && s.cons[a.j].CIdle? { StartPop(s, g, a.j); }
  }

  lemma ConsInv<T>(s: State<T>, g: View, a: Act<T>)
    requires Inv(s, g) && a.Cons?
    ensures Inv(Step(s, a), Track(s, g, a))
  {
    if a.j < |s.cons| {
      assert Step(s, a) == StepConsumer(s, a.j) && Track(s, g, a) == TrackConsumer(s, g, a.j);
      QueueSteps.ConsumerStep(s, g, a.j);
    }
  }

  lemma StartPush<T>(s: State<T>, g: View, i: nat, v: T)
    requires Inv(s, g) && i < |s.prods| && s.prods[i].PIdle?
    ensures Inv(s.(prods := s.prods[i := PFree(v)], submitted := s.submitted + [v]), g)
  {
    KeepQuietProducer(s, g, i, s.(prods := s.prods[i := PFree(v)], submitted := s.submitted + [v]));
  }

  lemma StartPop<T>(s: State<T>, g: View, j: nat)
    requires Inv(s, g) && j < |s.cons| && s.cons[j].CIdle?
    ensures Inv(s.(cons := s.cons[j := CTail]), g)
  {
    assert ConsumerOk(s, g, j);
    KeepQuietConsumer(s, g, j, s.(cons := s.cons[j := CTail]));
  }

  // With one producer, what was submitted is what was exchanged and what is on its way.
  ghost predicate OneProducer<T>(s: State<T>) {
    |s.prods| == 1 ==> s.submitted == s.order + OnItsWay(s.prods[0])
  }

  function OnItsWay<T>(p: Producer<T>): seq<T> {
    if p.PIdle? || p.PLink? then [] else [p.v]
  }

  lemma OneProducerStep<T>(s: State<T>, a: Act<T>)
    requires OneProducer(s)
    ensures OneProducer(Step(s, a))
  {
    if a.Push? && |s.prods| == 1 {
      assert s.order + [] == s.order;
    }
    if a.Prod? && |s.prods| == 1 && a.i == 0 && s.prods[0].PSwap? {
      assert (s.order + [s.prods[0].v]) + [] == s.order + [s.prods[0].v];
    }
  }

  // The value a consumer has taken, or is about to take, out of the node it claimed.
  function Hand<T>(s: State<T>, j: nat): Option<T>
    requires j < |s.cons|
  {
    match s.cons[j]
    case CTake(t, _) => if At(s.heap, t).hasValue then At(s.heap, t).data else None
    case CMove(t, _) => At(s.heap, t).data
    case CDone(_, _, ret) => ret
    case CStore(_, _, ret) => ret
    case CPush(_, _, ret) => ret
    case _ => None
  }

  function Hands<T>(s: State<T>): seq<Option<T>> {
    seq(|s.cons|, j requires 0 <= j < |s.cons| => Hand(s, j))
  }

  function Value<T>(order: seq<T>, p: Option<nat>): Option<T> {
    if p.Some? && p.value < |order| then Some(order[p.value]) else None
  }

  ghost predicate HandIsClaim<T>(s: State<T>, g: View, j: nat)
    requires Sizes(s, g) && j < |s.cons|
  {
    && Hand(s, j) == Value(s.order, g.claim[j])
    && (g.claim[j].Some? ==> g.claim[j].value < g.taken && g.got[g.claim[j].value] == InHand(j))
  }

  lemma HandClaim<T>(s: State<T>, g: View, j: nat)
    requires Sizes(s, g) && j < |s.cons| && ConsumerOk(s, g, j)
    ensures HandIsClaim(s, g, j)
  {
  }

  lemma HandClaims<T>(s: State<T>, g: View)
    requires Inv(s, g)
    ensures forall j :: 0 <= j < |s.cons| ==> HandIsClaim(s, g, j)
  {
    forall j | 0 <= j < |s.cons| ensures HandIsClaim(s, g, j) {
      assert ConsumerOk(s, g, j);
      HandClaim(s, g, j);
    }
  }

  // The values exchanged and not yet claimed.
  function Waiting<T>(s: State<T>, taken: nat): seq<T> {
    if taken <= |s.order| then s.order[taken..] else []
  }

  // What a step does to a first-in-first-out queue whose pops may come back empty: the exchange of a
  // producer appends its value; a step of a consumer moves the oldest value into that consumer's
  // empty hand, or returns what is in its hand, or changes nothing; no other step changes anything.
  ghost predicate FifoMove<T>(s: State<T>, q: seq<T>, a: Act<T>, s': State<T>, q': seq<T>) {
    && |s'.cons| == |s.cons|
    && match a
    case Prod(i) =>
      && s'.results == s.results && Hands(s') == Hands(s)
      && (if i < |s.prods| && s.prods[i].PSwap?
          then q' == q + [s.prods[i].v] && s'.order == s.order + [s.prods[i].v]
          else q' == q && s'.order == s.order)
    case Cons(j) =>
      && s'.order == s.order
      && if j >= |s.cons| || s.cons[j].CIdle? then s' == s && q' == q
         else if s'.cons[j].CIdle? then
           q' == q && Hands(s') == Hands(s)[j := None] && s'.results == s.results + [Hand(s, j)]
         else
           && s'.results == s.results
           && (|| (q' == q && Hands(s') == Hands(s))
               || (Hand(s, j).None? && q != [] && q' == q[1..] && Hands(s') == Hands(s)[j := Some(q[0])]))
    case _ => q' == q && s'.order == s.order && s'.results == s.results && Hands(s') == Hands(s)
  }

  // The same for a step of the machine and its view.
  ghost predicate StepsFifo<T>(s: State<T>, g: View, a: Act<T>) {
    FifoMove(s, Waiting(s, g.taken), a, Step(s, a), Waiting(Step(s, a), Track(s, g, a).taken))
  }

  // Every step of the machine is such a move.
  lemma FifoStep<T>(s: State<T>, g: View, a: Act<T>)
    requires Inv(s, g)
    ensures StepsFifo(s, g, a)
  {
    StepInv(s, g, a);
    match a
    case Prod(i) => FifoProd(s, g, a);
    case Cons(j) => FifoCons(s, g, a);
    case _ => FifoCall(s, g, a);
  }

  lemma FifoCall<T>(s: State<T>, g: View, a: Act<T>)
    requires a.Push? || a.Pop?
    ensures StepsFifo(s, g, a)
  {
    assert Hands(Step(s, a)) == Hands(s);
  }

  lemma FifoProd<T>(s: State<T>, g: View, a: Act<T>)
    requires Inv(s, g) && Inv(Step(s, a), Track(s, g, a)) && a.Prod?
    ensures StepsFifo(s, g, a)
  {
    HandClaims(s, g);
    HandClaims(Step(s, a), Track(s, g, a));
    if a.i < |s.prods| { FifoProducer(s, g, a.i, StepProducer(s, a.i), TrackProducer(s, g, a.i)); }
  }

  lemma FifoCons<T>(s: State<T>, g: View, a: Act<T>)
    requires Inv(s, g) && Inv(Step(s, a), Track(s, g, a)) && a.Cons?
    ensures StepsFifo(s, g, a)
  {
    HandClaims(s, g);
    HandClaims(Step(s, a), Track(s, g, a));
    if a.j < |s.cons| {
      assert ConsumerOk(s, g, a.j);
      FifoConsumer(s, g, a.j, StepConsumer(s, a.j), TrackConsumer(s, g, a.j));
    }
  }

  lemma FifoProducer<T>(s: State<T>, g: View, i: nat, s': State<T>, g': View)
    requires Sizes(s, g) && Sizes(s', g') && i < |s.prods|
    requires s' == StepProducer(s, i) && g' == TrackProducer(s, g, i)
    requires forall j :: 0 <= j < |s.cons| ==> HandIsClaim(s, g, j)
    requires forall j :: 0 <= j < |s'.cons| ==> HandIsClaim(s', g', j)
    ensures FifoMove(s, Waiting(s, g.taken), Prod(i), s', Waiting(s', g'.taken))
  {
    ProducerKeeps(s, g, i, s', g');
    assert Hands(s') == Hands(s) by {
      forall j | 0 <= j < |s.cons| ensures Hand(s', j) == Hand(s, j) {
        assert HandIsClaim(s, g, j) && HandIsClaim(s', g', j);
      }
    }
  }

  lemma ProducerKeeps<T>(s: State<T>, g: View, i: nat, s': State<T>, g': View)
    requires i < |s.prods| && s' == StepProducer(s, i) && g' == TrackProducer(s, g, i)
    ensures s'.cons == s.cons && s'.results == s.results && g'.claim == g.claim && g'.taken == g.taken
    ensures s'.order == if s.prods[i].PSwap? then s.order + [s.prods[i].v] else s.order
  {
  }

  lemma FifoConsumer<T>(s: State<T>, g: View, j: nat, s': State<T>, g': View)
    requires Sizes(s, g) && Sizes(s', g') && j < |s.cons|
    requires s' == StepConsumer(s, j) && g' == TrackConsumer(s, g, j)
    requires forall k :: 0 <= k < |s.cons| ==> HandIsClaim(s, g, k)
    requires forall k :: 0 <= k < |s'.cons| ==> HandIsClaim(s', g', k)
    requires ConsumerOk(s, g, j)
    ensures FifoMove(s, Waiting(s, g.taken), Cons(j), s', Waiting(s', g'.taken))
  {
    assert |s'.cons| == |s.cons| && s'.order == s.order;
    forall k | 0 <= k < |s.cons| && k != j ensures Hand(s', k) == Hand(s, k) {
      assert HandIsClaim(s, g, k) && HandIsClaim(s', g', k) && g'.claim[k] == g.claim[k];
    }
    assert HandIsClaim(s, g, j) && HandIsClaim(s', g', j);
    FifoOwn(s, g, j, s', g');
    assert Hands(s') == Hands(s)[j := Hand(s', j)];
  }

  // The acting consumer's own part.
  ghost predicate OwnMove<T>(s: State<T>, q: seq<T>, j: nat, s': State<T>, q': seq<T>)
    requires j < |s.cons| == |s'.cons|
  {
    if s.cons[j].CIdle? then s' == s && q' == q
    else if s'.cons[j].CIdle? then
      q' == q && Hand(s', j) == None && s'.results == s.results + [Hand(s, j)]
    else
      && s'.results == s.results
      && (|| (q' == q && Hand(s', j) == Hand(s, j))
          || (Hand(s, j).None? && q != [] && q' == q[1..] && Hand(s', j) == Some(q[0])))
  }

  lemma FifoOwn<T>(s: State<T>, g: View, j: nat, s': State<T>, g': View)
    requires Sizes(s, g) && Sizes(s', g') && j < |s.cons| && ConsumerOk(s, g, j)
    requires s' == StepConsumer(s, j) && g' == TrackConsumer(s, g, j)
    requires HandIsClaim(s, g, j) && HandIsClaim(s', g', j)
    ensures OwnMove(s, Waiting(s, g.taken), j, s', Waiting(s', g'.taken))
  {
    if s.cons[j].CCas? {
      FifoCas(s, g, j, s', g');
    } else {
      FifoElse(s, g, j, s', g');
    }
  }

  lemma FifoCas<T>(s: State<T>, g: View, j: nat, s': State<T>, g': View)
    requires Sizes(s, g) && Sizes(s', g') && j < |s.cons| && s.cons[j].CCas? && g.claim[j].None?
    requires s' == StepConsumer(s, j) && g' == TrackConsumer(s, g, j)
    requires HandIsClaim(s, g, j) && HandIsClaim(s', g', j)
    ensures OwnMove(s, Waiting(s, g.taken), j, s', Waiting(s', g'.taken))
  {
    CasClaims(s, g, j, s', g');
    if g'.taken != g.taken { assert s.order[g.taken..][0] == s.order[g.taken]; }
  }

  // A successful compare-exchange claims the front value, if it is still there.
  lemma CasClaims<T>(s: State<T>, g: View, j: nat, s': State<T>, g': View)
    requires Sizes(s, g) && Sizes(s', g') && j < |s.cons| && s.cons[j].CCas? && g.claim[j].None?
    requires s' == StepConsumer(s, j) && g' == TrackConsumer(s, g, j)
    ensures |s'.cons| == |s.cons| && !s'.cons[j].CIdle? && s'.results == s.results && s'.order == s.order
    ensures || (g'.taken == g.taken && g'.claim[j] == g.claim[j])
            || (g'.taken == g.taken + 1 && g'.claim[j] == Some(g.taken))
  {
  }

  lemma FifoElse<T>(s: State<T>, g: View, j: nat, s': State<T>, g': View)
    requires Sizes(s, g) && Sizes(s', g') && j < |s.cons| && !s.cons[j].CCas? && ConsumerOk(s, g, j)
    requires s' == StepConsumer(s, j) && g' == TrackConsumer(s, g, j)
    requires HandIsClaim(s, g, j) && HandIsClaim(s', g', j)
    ensures OwnMove(s, Waiting(s, g.taken), j, s', Waiting(s', g'.taken))
  {
    assert g'.taken == g.taken && s'.order == s.order;
  }

  // With one consumer, the values returned, then the one in its hand, then those waiting, are the
  // values exchanged, in that order.
  ghost predicate OneConsumer<T>(s: State<T>, g: View) {
    |s.cons| == 1 ==> s.order == Somes(s.results) + Somes(Hands(s)) + Waiting(s, g.taken)
  }

  lemma OneConsumerStep<T>(s: State<T>, q: seq<T>, a: Act<T>, s': State<T>, q': seq<T>)
    requires |s.cons| == 1 && FifoMove(s, q, a, s', q')
    requires s.order == Somes(s.results) + Somes(Hands(s)) + q
    ensures s'.order == Somes(s'.results) + Somes(Hands(s')) + q'
  {
    match a
    case Cons(j) =>
      if j == 0 && !s.cons[0].CIdle? {
        assert Hands(s) == [Hand(s, 0)] && Hands(s') == [Hand(s', 0)] && Hands(s')[0] == Hand(s', 0);
        OneConsumerMoves(s.results, Hand(s, 0), q, s'.results, Hand(s', 0), q');
      }
    case _ =>
      assert Hands(s') == Hands(s);
  }

  lemma OneConsumerMoves<T>(rs: seq<Option<T>>, h: Option<T>, q: seq<T>,
                            rs': seq<Option<T>>, h': Option<T>, q': seq<T>)
    requires || (q' == q && h' == None && rs' == rs + [h])
             || (q' == q && h' == h && rs' == rs)
             || (h.None? && q != [] && q' == q[1..] && h' == Some(q[0]) && rs' == rs)
    ensures Somes(rs) + Somes([h]) + q == Somes(rs') + Somes([h']) + q'
  {
    assert Somes([h]) == if h.Some? then [h.value] else [];
    assert Somes([h']) == if h'.Some? then [h'.value] else [];
    if q' == q && h' == None && rs' == rs + [h] {
      SomesAppend(rs, [h]);
    } else if q' != q || h' != h {
      assert q == [q[0]] + q[1..];
    }
  }

  ghost predicate Good<T>(s: State<T>, g: View) {
    Inv(s, g) && OneProducer(s) && OneConsumer(s, g)
  }

  lemma StepGood<T>(s: State<T>, g: View, a: Act<T>)
    requires Good(s, g)
    ensures Good(Step(s, a), Track(s, g, a))
  {
    StepInv(s, g, a);
    FifoStep(s, g, a);
    OneProducerStep(s, a);
    if |s.cons| == 1 {
      OneConsumerStep(s, Waiting(s, g.taken), a, Step(s, a), Waiting(Step(s, a), Track(s, g, a).taken));
    }
  }

  lemma StepSizes<T>(s: State<T>, a: Act<T>)
    ensures var s' := Step(s, a);
            |s'.prods| == |s.prods| && |s'.cons| == |s.cons| && s'.recycle == s.recycle
  {
  }

  lemma {:induction false} RunSizes<T>(s: State<T>, acts: seq<Act<T>>)
    ensures var s' := Run(s, acts);
            |s'.prods| == |s.prods| && |s'.cons| == |s.cons| && s'.recycle == s.recycle
    decreases |acts|
  {
    if acts != [] {
      RunSizes(s, acts[..|acts| - 1]);
      StepSizes(Run(s, acts[..|acts| - 1]), acts[|acts| - 1]);
    }
  }

  lemma {:induction false} RunGood<T>(s: State<T>, g: View, acts: seq<Act<T>>) returns (g': View)
    requires Good(s, g)
    ensures Good(Run(s, acts), g')
    decreases |acts|
  {
    if acts == [] {
      g' := g;
    } else {
      var g1 := RunGood(s, g, acts[..|acts| - 1]);
      StepGood(Run(s, acts[..|acts| - 1]), g1, acts[|acts| - 1]);
      g' := Track(Run(s, acts[..|acts| - 1]), g1, acts[|acts| - 1]);
    }
  }

  // The state reached from the start by any sequence of scheduling choices.
  function Reached<T>(recycle: bool, capacity: nat, prods: nat, cons: nat, acts: seq<Act<T>>): State<T> {
    Run(Start(recycle, capacity, prods, cons), acts)
  }

  lemma StartGood<T>(recycle: bool, capacity: nat, prods: nat, cons: nat) returns (g: View)
    requires Safe(recycle, prods, cons)
    ensures Good(Start<T>(recycle, capacity, prods, cons), g) && g == StartView(capacity, cons)
  {
    g := StartView(capacity, cons);
    StartInv<T>(recycle, capacity, prods, cons);
    if cons == 1 { assert Hands(Start<T>(recycle, capacity, prods, cons)) == [None]; }
  }

  // Every reachable state satisfies the invariant, for some view of it.
  lemma Reachable<T>(recycle: bool, capacity: nat, prods: nat, cons: nat, acts: seq<Act<T>>) returns (g: View)
    requires Safe(recycle, prods, cons)
    ensures var s := Reached(recycle, capacity, prods, cons, acts);
            Good(s, g) && |s.prods| == prods && |s.cons| == cons && s.recycle == recycle
  {
    g := StartGood<T>(recycle, capacity, prods, cons);
    g := RunGood(Start<T>(recycle, capacity, prods, cons), g, acts);
    RunSizes(Start<T>(recycle, capacity, prods, cons), acts);
  }

  // One producer and one consumer, nodes recycled or not, every interleaving: the values `pop` has
  // returned are the first of the values exchanged, which are the first of the values pushed.
  lemma SingleProducerSingleConsumer<T>(recycle: bool, capacity: nat, acts: seq<Act<T>>)
    ensures var s := Reached(recycle, capacity, 1, 1, acts);
            Somes(s.results) <= s.order <= s.submitted
  {
    var g := Reachable(recycle, capacity, 1, 1, acts);
    InOrder(Reached(recycle, capacity, 1, 1, acts), g);
  }

  lemma InOrder<T>(s: State<T>, g: View)
    requires Good(s, g) && |s.cons| == 1
    ensures Somes(s.results) <= s.order
  {
    assert s.order == Somes(s.results) + (Somes(Hands(s)) + Waiting(s, g.taken));
  }

  ghost predicate Once<X>(s: seq<Option<X>>, x: X) {
    exists k :: 0 <= k < |s| && s[k] == Some(x) && forall m :: 0 <= m < |s| && m != k ==> s[m] != Some(x)
  }

  // The values exchanged first, `taken` of them, have left the queue: src and hold say which of them
  // each result of `pop` and each consumer's hand is, every one of them is named exactly once, and
  // nothing else was returned or is held.
  ghost predicate Accounted<T>(s: State<T>, taken: nat, src: seq<Option<nat>>, hold: seq<Option<nat>>) {
    && |src| == |s.results| && |hold| == |s.cons| && taken <= |s.order|
    && (forall r :: 0 <= r < |src| ==> s.results[r] == Value(s.order, src[r]))
    && (forall j :: 0 <= j < |hold| ==> Hand(s, j) == Value(s.order, hold[j]))
    && (forall k :: 0 <= k < |src + hold| && (src + hold)[k].Some? ==> (src + hold)[k].value < taken)
    && (forall p :: 0 <= p < taken ==> Once(src + hold, p))
  }

  // A producer has displaced node p from head_ and is about to link node n behind it.
  ghost predicate AboutToLink<T>(s: State<T>, n: nat, p: Ptr) {
    exists i :: 0 <= i < |s.prods| && s.prods[i] == PLink(n, p)
  }

  ghost predicate Follows<T>(s: State<T>, live: seq<nat>, k: nat)
    requires k + 1 < |live| && live[k] < |s.heap|
  {
    var next := s.heap[live[k]].next;
    next == Some(live[k + 1]) || (next == None && AboutToLink(s, live[k + 1], Some(live[k])))
  }

  // Where the chain starts: tail_, unless the first push has not stored it yet or a consumer inside
  // the window will put it back.
  ghost predicate StartsAt<T>(s: State<T>, n: nat) {
    || s.tail == Some(n)
    || (s.tail.None? && AboutToLink(s, n, None))
    || (s.tail.None? && exists j :: 0 <= j < |s.cons| && Window(s.cons[j]) && s.cons[j].t == n)
  }

  // The live chain, each link stored or about to be: behind at most one node whose value is claimed
  // (and gone, once its consumer is through), it carries exactly the values exchanged from `taken`
  // on, in order, up to head_.
  ghost predicate Queued<T>(s: State<T>, taken: nat, live: seq<nat>) {
    && taken <= |s.order| && |s.order| - taken <= |live| <= |s.order| - taken + 1
    && s.head == (if live == [] then None else Some(live[|live| - 1]))
    && (if live == [] then s.tail == None else StartsAt(s, live[0]))
    && (forall k :: 0 <= k < |live| ==> live[k] < |s.heap|)
    && (forall k :: 0 <= k < |live| - 1 ==> Follows(s, live, k))
    && (live != [] ==> s.heap[live[|live| - 1]].next == None)
    && (forall p :: taken <= p < |s.order| ==> CarriesAt(s, taken, live, p))
    && (|live| > |s.order| - taken && s.tail == Some(live[0]) ==>
          !s.heap[live[0]].hasValue && s.heap[live[0]].data == None)
  }

  ghost predicate CarriesAt<T>(s: State<T>, taken: nat, live: seq<nat>, p: nat)
    requires taken <= p < |s.order| && |s.order| - taken <= |live|
  {
    var n := live[|live| - (|s.order| - p)];
    n < |s.heap| && s.heap[n].hasValue && s.heap[n].data == Some(s.order[p])
  }

  // The free list, whole at every moment, and apart from the live chain.
  ghost predicate SpareApart<T>(s: State<T>, live: seq<nat>, spare: seq<nat>) {
    && Path(s.heap, s.free, spare) && Apart(live, spare)
    && (forall k :: 0 <= k < |spare| ==> !s.heap[spare[k]].hasValue)
  }

  // Any number of tasks, every interleaving: in the order of the head_ exchanges, the values up to
  // `taken` have left the queue, each into exactly one result or hand, and the others are all in the
  // live chain, in order.  Nothing is lost, repeated or made up.
  lemma EachValueOnce<T>(recycle: bool, capacity: nat, prods: nat, cons: nat, acts: seq<Act<T>>)
    returns (taken: nat, src: seq<Option<nat>>, hold: seq<Option<nat>>, live: seq<nat>, spare: seq<nat>)
    requires Safe(recycle, prods, cons)
    ensures var s := Reached(recycle, capacity, prods, cons, acts);
            Accounted(s, taken, src, hold) && Queued(s, taken, live) && SpareApart(s, live, spare)
  {
    var g := Reachable(recycle, capacity, prods, cons, acts);
    var s := Reached(recycle, capacity, prods, cons, acts);
    taken, src, hold, live, spare := g.taken, g.src, g.claim, g.chain[g.base..], Reversed(g.stack);
    HandClaims(s, g);
    Positions(s, g);
    ViewQueued(s, g);
    SparePath(s, g);
    ViewApart(s, g);
  }

  // The same once no push is between its two stores and no consumer is inside the window: the chain
  // from tail_ is whole, and its nodes carry nothing but the values from `taken` on.
  lemma NothingStranded<T>(s: State<T>, taken: nat, live: seq<nat>)
    requires Queued(s, taken, live)
    requires forall i :: 0 <= i < |s.prods| ==> !s.prods[i].PLink?
    requires forall j :: 0 <= j < |s.cons| ==> !Window(s.cons[j])
    ensures Path(s.heap, s.tail, live)
  {
    assert forall n, p :: !AboutToLink(s, n, p);
    forall k | 0 <= k < |live| ensures NextIs(s.heap, live, k) {
      if k < |live| - 1 { assert Follows(s, live, k); }
    }
  }

  lemma Positions<T>(s: State<T>, g: View)
    requires Sizes(s, g) && Accounts(s, g)
    requires forall j :: 0 <= j < |s.cons| ==> HandIsClaim(s, g, j)
    ensures Accounted(s, g.taken, g.src, g.claim)
  {
    var all := g.src + g.claim;
    forall k | 0 <= k < |all| && all[k].Some?
      ensures all[k].value < g.taken && k == Index(g, all[k].value)
    {
      if k >= |g.src| { assert HandIsClaim(s, g, k - |g.src|); }
    }
    forall p | 0 <= p < g.taken ensures Once(all, p) {
      assert all[Index(g, p)] == Some(p);
    }
    forall j | 0 <= j < |g.claim| ensures Hand(s, j) == Value(s.order, g.claim[j]) {
      assert HandIsClaim(s, g, j);
    }
  }

  function Index(g: View, p: nat): nat
    requires p < |g.got|
  {
    match g.got[p] case Returned(r) => r case InHand(j) => |g.src| + j
  }

  // A producer has yet to store tail_ for the first time.
  predicate Publishing<T>(p: Producer<T>) { p.PLink? && p.prev.None? }

  // While tail_ is null, exactly one task is bound to store it: the producer that displaced null from
  // head_, or the consumer inside the window.
  ghost predicate OneStore<T>(s: State<T>) {
    && (forall j, j' :: 0 <= j < |s.cons| && 0 <= j' < |s.cons| && Window(s.cons[j]) && Window(s.cons[j'])
          ==> j == j')
    && (forall i, i' :: 0 <= i < |s.prods| && 0 <= i' < |s.prods| && Publishing(s.prods[i]) && Publishing(s.prods[i'])
          ==> i == i')
    && (forall i, j :: 0 <= i < |s.prods| && 0 <= j < |s.cons| && Publishing(s.prods[i]) ==> !Window(s.cons[j]))
    && (s.tail.Some? || s.head.None? ==>
          && (forall j :: 0 <= j < |s.cons| ==> !Window(s.cons[j]))
          && (forall i :: 0 <= i < |s.prods| ==> !Publishing(s.prods[i])))
    && (s.head.None? ==> s.tail.None?)
    && (s.tail.None? && s.head.Some? ==>
          || (exists j :: 0 <= j < |s.cons| && Window(s.cons[j]))
          || (exists i :: 0 <= i < |s.prods| && Publishing(s.prods[i])))
  }

  lemma OneStoreStep<T>(s: State<T>, a: Act<T>)
    requires OneStore(s)
    ensures OneStore(Step(s, a))
  {
    match a
    case Prod(i) => if i < |s.prods| { OneStoreProducer(s, i, StepProducer(s, i)); }
    case Cons(j) => if j < |s.cons| { OneStoreConsumer(s, j, StepConsumer(s, j)); }
    case _ => OneStoreCall(s, a);
  }

  lemma OneStoreCall<T>(s: State<T>, a: Act<T>)
    requires OneStore(s) && (a.Push? || a.Pop?)
    ensures OneStore(Step(s, a))
  {
    var s' := Step(s, a);
    assert forall j :: 0 <= j < |s.cons| ==> Window(s'.cons[j]) == Window(s.cons[j]);
    assert forall i :: 0 <= i < |s.prods| ==> Publishing(s'.prods[i]) == Publishing(s.prods[i]);
  }

  lemma OneStoreProducer<T>(s: State<T>, i: nat, s': State<T>)
    requires OneStore(s) && i < |s.prods| && s' == StepProducer(s, i)
    ensures OneStore(s')
  {
    PublishingTurn(s, i, s');
    assert s'.cons == s.cons;
  }

  // What a turn of a producer changes of that.
  lemma PublishingTurn<T>(s: State<T>, i: nat, s': State<T>)
    requires i < |s.prods| && s' == StepProducer(s, i)
    ensures s'.cons == s.cons && |s'.prods| == |s.prods|
    ensures forall k :: 0 <= k < |s.prods| && k != i ==> s'.prods[k] == s.prods[k]
    ensures if s.prods[i].PSwap? then s'.head.Some? && s'.tail == s.tail && Publishing(s'.prods[i]) == s.head.None?
            else s'.head == s.head && !Publishing(s'.prods[i])
    ensures if Publishing(s.prods[i]) then s'.tail.Some? else s'.tail == s.tail
  {
  }

  lemma OneStoreConsumer<T>(s: State<T>, j: nat, s': State<T>)
    requires OneStore(s) && j < |s.cons| && s' == StepConsumer(s, j)
    ensures OneStore(s')
  {
    WindowTurn(s, j, s');
    if Window(s.cons[j]) == Window(s'.cons[j]) {
      assert forall k :: 0 <= k < |s.cons| ==> Window(s'.cons[k]) == Window(s.cons[k]);
      SameStores(s, s');
    } else if Window(s.cons[j]) {
      assert forall k :: 0 <= k < |s.cons| ==> !Window(s'.cons[k]);
    } else {
      assert forall k :: 0 <= k < |s.cons| ==> (Window(s'.cons[k]) <==> k == j);
    }
  }

  lemma SameStores<T>(s: State<T>, s': State<T>)
    requires OneStore(s) && |s'.cons| == |s.cons| && s'.prods == s.prods && s'.head == s.head
    requires s'.tail.Some? == s.tail.Some?
    requires forall k :: 0 <= k < |s.cons| ==> Window(s'.cons[k]) == Window(s.cons[k])
    ensures OneStore(s')
  {
  }

  // And a turn of a consumer.
  lemma WindowTurn<T>(s: State<T>, j: nat, s': State<T>)
    requires j < |s.cons| && s' == StepConsumer(s, j)
    ensures s'.prods == s.prods && s'.head == s.head && |s'.cons| == |s.cons|
    ensures forall k :: 0 <= k < |s.cons| && k != j ==> s'.cons[k] == s.cons[k]
    ensures if Window(s.cons[j]) == Window(s'.cons[j]) then s'.tail.Some? == s.tail.Some?
            else if Window(s.cons[j]) then s'.tail.Some?
            else s.tail.Some? && s'.tail.None?
  {
    WindowEdge(s, j, s');
  }

  lemma WindowEdge<T>(s: State<T>, j: nat, s': State<T>)
    requires j < |s.cons| == |s'.cons| && s' == StepConsumer(s, j)
    ensures if Window(s.cons[j]) == Window(s'.cons[j]) then s'.tail.Some? == s.tail.Some?
            else if Window(s.cons[j]) then s'.tail.Some?
            else s.tail.Some? && s'.tail.None?
  {
  }

  lemma {:induction false} OneStoreRun<T>(recycle: bool, capacity: nat, prods: nat, cons: nat, acts: seq<Act<T>>)
    ensures OneStore(Reached(recycle, capacity, prods, cons, acts))
    decreases |acts|
  {
    if acts != [] {
      OneStoreRun(recycle, capacity, prods, cons, acts[..|acts| - 1]);
      OneStoreStep(Reached(recycle, capacity, prods, cons, acts[..|acts| - 1]), acts[|acts| - 1]);
    }
  }

  // Any number of tasks, recycling or not: at most one consumer is ever inside the window where tail_
  // is null after it has been published, and tail_ is null only before the first publication or inside
  // a window.
  lemma AtMostOneWindow<T>(recycle: bool, capacity: nat, prods: nat, cons: nat, acts: seq<Act<T>>)
    ensures var s := Reached(recycle, capacity, prods, cons, acts);
            && (forall j, j' :: 0 <= j < |s.cons| && 0 <= j' < |s.cons| && Window(s.cons[j]) && Window(s.cons[j'])
                  ==> j == j')
            && (s.tail.Some? ==> forall j :: 0 <= j < |s.cons| ==> !Window(s.cons[j]))
            && (s.tail.None? ==>
                  || s.head.None?
                  || (exists j :: 0 <= j < |s.cons| && Window(s.cons[j]))
                  || (exists i :: 0 <= i < |s.prods| && s.prods[i].PLink? && s.prods[i].prev.None?))
  {
    OneStoreRun(recycle, capacity, prods, cons, acts);
    var s := Reached(recycle, capacity, prods, cons, acts);
    assert forall i :: 0 <= i < |s.prods| && Publishing(s.prods[i]) ==> s.prods[i].PLink? && s.prods[i].prev.None?;
  }

  lemma ViewQueued<T>(s: State<T>, g: View)
    requires Sizes(s, g) && Roles(s, g) && Linked(s, g) && Values(s, g) && Ends(s, g)
    ensures Queued(s, g.taken, g.chain[g.base..])
  {
    ViewLinks(s, g);
    ViewValues(s, g);
    if g.base < |g.chain| { ViewStart(s, g); }
  }

  lemma ViewValues<T>(s: State<T>, g: View)
    requires Sizes(s, g) && Roles(s, g) && Values(s, g)
    ensures forall p :: g.taken <= p < |s.order| ==> CarriesAt(s, g.taken, g.chain[g.base..], p)
  {
    var live := g.chain[g.base..];
    forall p | g.taken <= p < |s.order| ensures CarriesAt(s, g.taken, live, p) {
      var k := |live| - (|s.order| - p);
      assert k == p - g.base && live[k] == g.chain[p];
    }
  }

  lemma ViewStart<T>(s: State<T>, g: View)
    requires Sizes(s, g) && Ends(s, g) && g.base < |g.chain|
    ensures StartsAt(s, g.chain[g.base])
  {
    if !g.published { assert AboutToLink(s, g.chain[0], None); }
  }

  lemma ViewLinks<T>(s: State<T>, g: View)
    requires Sizes(s, g) && Roles(s, g) && Linked(s, g)
    ensures var live := g.chain[g.base..];
            && (forall k :: 0 <= k < |live| ==> live[k] < |s.heap|)
            && (forall k :: 0 <= k < |live| - 1 ==> Follows(s, live, k))
            && (live != [] ==> s.heap[live[|live| - 1]].next == None)
  {
    var live := g.chain[g.base..];
    forall k | 0 <= k < |live| - 1 ensures Follows(s, live, k) {
      assert LinkedAt(s, g, g.base + k);
    }
    if live != [] { assert LinkedAt(s, g, |g.chain| - 1); }
  }

  lemma SparePath<T>(s: State<T>, g: View)
    requires Sizes(s, g) && Roles(s, g) && FreeList(s, g)
    ensures var spare := Reversed(g.stack);
            Path(s.heap, s.free, spare) && forall k :: 0 <= k < |spare| ==> !s.heap[spare[k]].hasValue
  {
    var spare := Reversed(g.stack);
    forall k | 0 <= k < |spare| ensures NextIs(s.heap, spare, k) && !s.heap[spare[k]].hasValue {
      assert StackedAt(s, g, |spare| - 1 - k);
    }
  }

  lemma ViewApart<T>(s: State<T>, g: View)
    requires Sizes(s, g) && Roles(s, g)
    ensures Apart(g.chain[g.base..], Reversed(g.stack))
  {
    LiveRoles(s, g);
    SpareRoles(s, g);
    ByRole(g.role, g.chain[g.base..], Reversed(g.stack), g.base);
  }

  lemma LiveRoles<T>(s: State<T>, g: View)
    requires Sizes(s, g) && Roles(s, g)
    ensures var live := g.chain[g.base..];
            forall k :: 0 <= k < |live| ==> live[k] < |g.role| && g.role[live[k]] == Live(g.base + k)
  {
    var live := g.chain[g.base..];
    forall k | 0 <= k < |live| ensures live[k] < |g.role| && g.role[live[k]] == Live(g.base + k) {
      assert live[k] == g.chain[g.base + k];
    }
  }

  lemma SpareRoles<T>(s: State<T>, g: View)
    requires Sizes(s, g) && Roles(s, g)
    ensures var spare := Reversed(g.stack);
            forall k :: 0 <= k < |spare| ==> spare[k] < |g.role| && g.role[spare[k]] == Spare(|spare| - 1 - k)
  {
    var spare := Reversed(g.stack);
    forall k | 0 <= k < |spare| ensures spare[k] < |g.role| && g.role[spare[k]] == Spare(|spare| - 1 - k) {
      assert spare[k] == g.stack[|spare| - 1 - k];
    }
  }

  lemma ByRole(role: seq<Role>, live: seq<nat>, spare: seq<nat>, base: nat)
    requires forall k :: 0 <= k < |live| ==> live[k] < |role| && role[live[k]] == Live(base + k)
    requires forall k :: 0 <= k < |spare| ==> spare[k] < |role| && role[spare[k]] == Spare(|spare| - 1 - k)
    ensures Apart(live, spare)
  {
  }
}
