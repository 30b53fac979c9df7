/** Where the nodes of `QueueMachine` are: none is ever lost, and none is in two places. */
module QueueNodes {
  import opened Options
  import opened Sequences
  import opened QueueMachine
  import opened QueueInvariant
  import opened QueueTheorems

  // The producer has taken node n for its value and not exchanged head_ yet.
  predicate Fills<T>(p: Producer<T>, n: nat) {
    (p.PClear? || p.PCheck? || p.PWrite? || p.PFlag? || p.PSwap?) && p.e == n
  }

  // The consumer has moved tail_ past node n and not put it on the free list yet.
  predicate Retires<T>(c: Consumer<T>, n: nat) {
    || ((c.CTake? || c.CMove? || c.CDone?) && c.next.Some? && c.t == n)
    || ((c.CStore? || c.CPush?) && c.t == n)
  }

  ghost predicate RoleHeld<T>(s: State<T>, r: Role, n: nat) {
    match r
    case Filling(i) => i < |s.prods| && Fills(s.prods[i], n)
    case Retiring(j) => j < |s.cons| && Retires(s.cons[j], n)
    case _ => true
  }

  // Nobody forgets a node.
  ghost predicate AllHeld<T>(s: State<T>, g: View) {
    |g.role| == |s.heap| && forall n :: 0 <= n < |g.role| ==> RoleHeld(s, g.role[n], n)
  }

  lemma HeldProducer<T>(s: State<T>, g: View, i: nat, s': State<T>, g': View)
    requires Sizes(s, g) && Sizes(s', g') && i < |s.prods|
    requires s' == StepProducer(s, i) && g' == TrackProducer(s, g, i)
    requires AllHeld(s, g) && ProducerOk(s, g, i)
    requires s.prods[i].PCas? && s.free == Some(s.prods[i].e) ==> g.stack != []
    ensures AllHeld(s', g')
  {
    forall n | 0 <= n < |g'.role| ensures RoleHeld(s', g'.role[n], n) {
      if n < |g.role| {
        assert RoleHeld(s, g.role[n], n);
        HeldProducerAt(s, g, i, s', g', n);
      }
    }
  }

  lemma HeldProducerAt<T>(s: State<T>, g: View, i: nat, s': State<T>, g': View, n: nat)
    requires Sizes(s, g) && i < |s.prods| && s' == StepProducer(s, i) && g' == TrackProducer(s, g, i)
    requires ProducerOk(s, g, i) && n < |g.role| && RoleHeld(s, g.role[n], n) && n < |g'.role|
    requires s.prods[i].PCas? && s.free == Some(s.prods[i].e) ==> g.stack != []
    ensures RoleHeld(s', g'.role[n], n)
  {
    assert s'.cons == s.cons;
  }

  lemma HeldConsumer<T>(s: State<T>, g: View, j: nat, s': State<T>, g': View)
    requires Sizes(s, g) && Sizes(s', g') && j < |s.cons| && s' == StepConsumer(s, j) && g' == TrackConsumer(s, g, j)
    requires AllHeld(s, g) && ConsumerOk(s, g, j)
    ensures AllHeld(s', g')
  {
    forall n | 0 <= n < |g'.role| ensures RoleHeld(s', g'.role[n], n) {
      assert RoleHeld(s, g.role[n], n);
      HeldConsumerAt(s, g, j, s', g', n);
    }
  }

  lemma HeldConsumerAt<T>(s: State<T>, g: View, j: nat, s': State<T>, g': View, n: nat)
    requires Sizes(s, g) && j < |s.cons| && s' == StepConsumer(s, j) && g' == TrackConsumer(s, g, j)
    requires ConsumerOk(s, g, j) && n < |g.role| == |g'.role| && RoleHeld(s, g.role[n], n)
    ensures RoleHeld(s', g'.role[n], n)
  {
    assert s'.prods == s.prods;
    assert forall k :: 0 <= k < |s.cons| && k != j ==> s'.cons[k] == s.cons[k];
    RoleTurn(s, g, j, s', g', n);
  }

  // A turn of a consumer gives it the front node, or takes its node from it, or neither.
  lemma RoleTurn<T>(s: State<T>, g: View, j: nat, s': State<T>, g': View, n: nat)
    requires Sizes(s, g) && j < |s.cons| && s' == StepConsumer(s, j) && g' == TrackConsumer(s, g, j)
    requires ConsumerOk(s, g, j) && n < |g.role|
    ensures |s'.cons| == |s.cons| && |g'.role| == |g.role|
    ensures || (g'.role[n] == g.role[n] && (Retires(s.cons[j], n) ==> Retires(s'.cons[j], n)))
            || (g'.role[n] == Retiring(j) && Retires(s'.cons[j], n))
            || g'.role[n].Spare?
  {
  }

  lemma HeldStep<T>(s: State<T>, g: View, a: Act<T>)
    requires Inv(s, g) && AllHeld(s, g)
    ensures AllHeld(Step(s, a), Track(s, g, a))
  {
    StepInv(s, g, a);
    match a
    case Prod(i) =>
      if i < |s.prods| {
        assert ProducerOk(s, g, i);
        HeldProducer(s, g, i, StepProducer(s, i), TrackProducer(s, g, i));
      }
    case Cons(j) =>
      if j < |s.cons| {
        assert ConsumerOk(s, g, j);
        HeldConsumer(s, g, j, StepConsumer(s, j), TrackConsumer(s, g, j));
      }
    case _ => HeldCall(s, g, a);
  }

  lemma HeldCall<T>(s: State<T>, g: View, a: Act<T>)
    requires AllHeld(s, g) && (a.Push? || a.Pop?)
    ensures AllHeld(Step(s, a), Track(s, g, a))
  {
    var s' := Step(s, a);
    forall n | 0 <= n < |g.role| ensures RoleHeld(s', g.role[n], n) {
      assert RoleHeld(s, g.role[n], n);
    }
  }

  lemma {:induction false} HeldRun<T>(s: State<T>, g: View, acts: seq<Act<T>>) returns (g': View)
    requires Good(s, g) && AllHeld(s, g)
    ensures Good(Run(s, acts), g') && AllHeld(Run(s, acts), g')
    decreases |acts|
  {
    if acts == [] {
      g' := g;
    } else {
      var n := |acts| - 1;
      var g1 := HeldRun(s, g, acts[..n]);
      StepGood(Run(s, acts[..n]), g1, acts[n]);
      HeldStep(Run(s, acts[..n]), g1, acts[n]);
      g' := Track(Run(s, acts[..n]), g1, acts[n]);
    }
  }

  // Node n is at the place r: a position of the live chain or of the free list, or with a task.
  predicate IsAt<T>(s: State<T>, live: seq<nat>, spare: seq<nat>, n: nat, r: Role) {
    match r
    case Live(k) => k < |live| && live[k] == n
    case Spare(k) => k < |spare| && spare[k] == n
    case Filling(i) => i < |s.prods| && Fills(s.prods[i], n)
    case Retiring(j) => j < |s.cons| && Retires(s.cons[j], n)
  }

  // The places of the view, counted along the two chains.
  function PlaceOf(g: View, n: nat): Role
    requires n < |g.role|
  {
    match g.role[n]
    case Live(k) => if k >= g.base then Live(k - g.base) else Live(0)
    case Spare(k) => if k < |g.stack| then Spare(|g.stack| - 1 - k) else Spare(0)
    case r => r
  }

  lemma AtPlace<T>(s: State<T>, g: View, n: nat)
    requires Inv(s, g) && AllHeld(s, g) && n < |s.heap|
    ensures IsAt(s, g.chain[g.base..], Reversed(g.stack), n, PlaceOf(g, n))
  {
    assert RoleHeld(s, g.role[n], n);
    ChainPlace(s, g, n);
  }

  lemma ChainPlace<T>(s: State<T>, g: View, n: nat)
    requires Sizes(s, g) && Roles(s, g) && n < |s.heap| && RoleHeld(s, g.role[n], n)
    ensures IsAt(s, g.chain[g.base..], Reversed(g.stack), n, PlaceOf(g, n))
  {
  }

  lemma NoOtherPlace<T>(s: State<T>, g: View, n: nat, r: Role)
    requires Inv(s, g) && n < |s.heap| && IsAt(s, g.chain[g.base..], Reversed(g.stack), n, r)
    ensures r == PlaceOf(g, n)
  {
    match r
    case Filling(i) =>
      assert ProducerOk(s, g, i);
      OnlyFilling(s, g, n, i);
    case Retiring(j) =>
      assert ConsumerOk(s, g, j);
      OnlyRetiring(s, g, n, j);
    case _ => OnlyInChain(s, g, n, r);
  }

  lemma OnlyFilling<T>(s: State<T>, g: View, n: nat, i: nat)
    requires Sizes(s, g) && n < |s.heap| && i < |s.prods| && ProducerOk(s, g, i) && Fills(s.prods[i], n)
    ensures PlaceOf(g, n) == Filling(i)
  {
  }

  lemma OnlyRetiring<T>(s: State<T>, g: View, n: nat, j: nat)
    requires Sizes(s, g) && n < |s.heap| && j < |s.cons| && ConsumerOk(s, g, j) && Retires(s.cons[j], n)
    ensures PlaceOf(g, n) == Retiring(j)
  {
  }

  lemma OnlyInChain<T>(s: State<T>, g: View, n: nat, r: Role)
    requires Sizes(s, g) && Roles(s, g) && n < |s.heap| && (r.Live? || r.Spare?)
    requires IsAt(s, g.chain[g.base..], Reversed(g.stack), n, r)
    ensures r == PlaceOf(g, n)
  {
    match r
    case Live(k) => assert g.role[g.chain[g.base + k]] == QueueInvariant.Live(g.base + k);
    case Spare(k) => assert g.role[g.stack[|g.stack| - 1 - k]] == QueueInvariant.Spare(|g.stack| - 1 - k);
    case _ =>
  }

  // On every run: every node allocated is in exactly one place, the live chain, the free list, or the
  // hand of one task.
  lemma EachNodeOnce<T>(recycle: bool, capacity: nat, prods: nat, cons: nat, acts: seq<Act<T>>)
    returns (taken: nat, live: seq<nat>, spare: seq<nat>, place: seq<Role>)
    requires Safe(recycle, prods, cons)
    ensures var s := Reached(recycle, capacity, prods, cons, acts);
            && Queued(s, taken, live) && SpareApart(s, live, spare) && |place| == |s.heap|
            && forall n, r: Role :: 0 <= n < |s.heap| ==> (IsAt(s, live, spare, n, r) <==> r == place[n])
  {
    var s0 := Start<T>(recycle, capacity, prods, cons);
    var g := StartGood<T>(recycle, capacity, prods, cons);
    StartHeld<T>(recycle, capacity, prods, cons, g);
    g := HeldRun(s0, g, acts);
    var s := Run(s0, acts);
    taken, live, spare := g.taken, g.chain[g.base..], Reversed(g.stack);
    place := seq(|s.heap|, n requires 0 <= n < |s.heap| => PlaceOf(g, n));
    ViewQueued(s, g);
    SparePath(s, g);
    ViewApart(s, g);
    forall n, r: Role | 0 <= n < |s.heap| ensures IsAt(s, live, spare, n, r) <==> r == place[n] {
      AtPlace(s, g, n);
      if IsAt(s, live, spare, n, r) { NoOtherPlace(s, g, n, r); }
    }
  }

  lemma StartHeld<T>(recycle: bool, capacity: nat, prods: nat, cons: nat, g: View)
    requires Good(Start<T>(recycle, capacity, prods, cons), g) && g == StartView(capacity, cons)
    ensures AllHeld(Start<T>(recycle, capacity, prods, cons), g)
  {
  }
}
