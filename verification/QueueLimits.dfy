/** Exactly how far the guarantees of `QueueTheorems` reach. */
module QueueLimits {
  import opened Options
  import opened Sequences
  import opened QueueMachine
  import opened QueueInvariant
  import opened QueueTheorems
  import opened QueueLosses

  // ---- the two chains ----

  ghost predicate Leads<T>(s: State<T>, first: Ptr, n: nat) {
    exists w :: Walk(s.heap, first, w) && w[|w| - 1] == n
  }

  // Where the live chain can be entered: its two ends, a node about to be linked and the one it goes
  // behind, and the node of a consumer inside the window.
  ghost predicate Entry<T>(s: State<T>, n: nat) {
    || s.head == Some(n) || s.tail == Some(n)
    || (exists i :: 0 <= i < |s.prods| && s.prods[i].PLink? && (s.prods[i].e == n || s.prods[i].prev == Some(n)))
    || (exists j :: 0 <= j < |s.cons| && Window(s.cons[j]) && s.cons[j].t == n)
  }

  // No node is reached both from the live chain and from free_.
  ghost predicate Disjoint<T>(s: State<T>) {
    forall r, n :: Entry(s, r) && Leads(s, Some(r), n) ==> !Leads(s, s.free, n)
  }

  // Whatever the capacity, the two chains share no node on any run if and only if recycling is confined
  // to one producer and one consumer.
  lemma RecyclingExactly<T>(recycle: bool, capacity: nat, prods: nat, cons: nat, v: T)
    requires prods >= 1 && cons >= 1
    ensures (forall acts: seq<Act<T>> :: Disjoint(Reached(recycle, capacity, prods, cons, acts)))
            <==> Safe(recycle, prods, cons)
  {
    if Safe(recycle, prods, cons) {
      forall acts: seq<Act<T>> ensures Disjoint(Reached(recycle, capacity, prods, cons, acts)) {
        var g := Reachable(recycle, capacity, prods, cons, acts);
        InvDisjoint(Reached(recycle, capacity, prods, cons, acts), g);
      }
    } else {
      var acts := LosingRun(capacity, prods, cons, v);
      assert !Disjoint(Reached(true, capacity, prods, cons, acts));
    }
  }

  lemma InvDisjoint<T>(s: State<T>, g: View)
    requires Inv(s, g)
    ensures Disjoint(s)
  {
    forall r, n | Entry(s, r) && Leads(s, Some(r), n) ensures !Leads(s, s.free, n) {
      EntryLive(s, g, r);
      var w :| Walk(s.heap, Some(r), w) && w[|w| - 1] == n;
      StaysLive(s, g, w);
      forall w' | Walk(s.heap, s.free, w') ensures w'[|w'| - 1] != n {
        StaysSpare(s, g, w');
      }
    }
  }

  ghost predicate IsLive<T>(s: State<T>, g: View, n: nat)
    requires Sizes(s, g)
  {
    n < |s.heap| && g.role[n].Live?
  }

  lemma EntryLive<T>(s: State<T>, g: View, n: nat)
    requires Inv(s, g) && Entry(s, n)
    ensures IsLive(s, g, n)
  {
    if i :| 0 <= i < |s.prods| && s.prods[i].PLink? && (s.prods[i].e == n || s.prods[i].prev == Some(n)) {
      assert ProducerOk(s, g, i);
      LinkedLive(s, g, i);
    } else {
      EndLive(s, g, n);
    }
  }

  lemma LinkedLive<T>(s: State<T>, g: View, i: nat)
    requires Sizes(s, g) && Roles(s, g) && i < |s.prods| && s.prods[i].PLink? && ProducerOk(s, g, i)
    ensures IsLive(s, g, s.prods[i].e)
    ensures s.prods[i].prev.Some? ==> IsLive(s, g, s.prods[i].prev.value)
  {
  }

  lemma EndLive<T>(s: State<T>, g: View, n: nat)
    requires Sizes(s, g) && Roles(s, g) && Ends(s, g)
    requires || s.head == Some(n) || s.tail == Some(n)
             || (exists j :: 0 <= j < |s.cons| && Window(s.cons[j]) && s.cons[j].t == n)
    ensures IsLive(s, g, n)
  {
    assert g.base < |g.chain|;
  }

  lemma {:induction false} StaysLive<T>(s: State<T>, g: View, w: seq<nat>)
    requires Sizes(s, g) && Roles(s, g) && Linked(s, g)
    requires Walk(s.heap, if w == [] then None else Some(w[0]), w) && IsLive(s, g, w[0])
    ensures IsLive(s, g, w[|w| - 1])
    decreases |w|
  {
    if |w| > 1 {
      assert LinkedAt(s, g, g.role[w[0]].k);
      StaysLive(s, g, w[1..]);
    }
  }

  lemma {:induction false} StaysSpare<T>(s: State<T>, g: View, w: seq<nat>)
    requires Sizes(s, g) && Roles(s, g) && FreeList(s, g)
    requires Walk(s.heap, if w == [] then None else Some(w[0]), w)
    requires w[0] < |s.heap| && g.role[w[0]].Spare?
    ensures w[|w| - 1] < |s.heap| && g.role[w[|w| - 1]].Spare?
    decreases |w|
  {
    if |w| > 1 {
      assert StackedAt(s, g, g.role[w[0]].k);
      StaysSpare(s, g, w[1..]);
    }
  }

  // ---- the values ----

  // Every value exchanged is in exactly one result or hand, or still in the live chain, in order.
  ghost predicate KeepsValues<T>(s: State<T>) {
    exists taken, src, hold, live :: Accounted(s, taken, src, hold) && Queued(s, taken, live)
  }

  // Nothing is in progress and nothing is left to pop, but fewer values were returned than exchanged.
  ghost predicate Loses<T>(s: State<T>) {
    && AllIdle(s) && s.tail.Some? && s.tail.value < |s.heap|
    && s.heap[s.tail.value].next == None && !s.heap[s.tail.value].hasValue
    && |Somes(s.results)| < |s.order|
  }

  // Whatever the capacity, no value is lost, repeated or made up on any run if and only if recycling is
  // confined to one producer and one consumer.
  lemma ValuesExactly<T>(recycle: bool, capacity: nat, prods: nat, cons: nat, v: T)
    requires prods >= 1 && cons >= 1
    ensures (forall acts: seq<Act<T>> :: KeepsValues(Reached(recycle, capacity, prods, cons, acts)))
            <==> Safe(recycle, prods, cons)
  {
    if Safe(recycle, prods, cons) {
      forall acts: seq<Act<T>> ensures KeepsValues(Reached(recycle, capacity, prods, cons, acts)) {
        var taken, src, hold, live, spare := EachValueOnce(recycle, capacity, prods, cons, acts);
      }
    } else {
      var acts := LosingRun(capacity, prods, cons, v);
      LostForGood(Reached(true, capacity, prods, cons, acts));
    }
  }

  lemma LostForGood<T>(s: State<T>)
    requires Loses(s)
    ensures !KeepsValues(s)
  {
    if taken: nat, src: seq<Option<nat>>, hold: seq<Option<nat>>, live: seq<nat> :|
        Accounted(s, taken, src, hold) && Queued(s, taken, live) {
      NothingLeft(s, taken, live);
      forall j | 0 <= j < |hold| && hold[j].Some? ensures hold[j].value < |s.order| {
        assert hold[j] == (src + hold)[|src| + j];
      }
      forall r | 0 <= r < |src| && src[r].Some? ensures src[r].value < |s.order| {
        assert src[r] == (src + hold)[r];
      }
      NoHands(s, hold);
      AllNamed(src, hold, taken);
      SameSomes(s.results, s.order, src);
      assert false;
    }
  }

  lemma NothingLeft<T>(s: State<T>, taken: nat, live: seq<nat>)
    requires Loses(s) && Queued(s, taken, live)
    ensures taken == |s.order|
  {
    assert forall n, p :: !AboutToLink(s, n, p);
    assert |live| > 1 ==> Follows(s, live, 0);
    assert taken < |s.order| ==> CarriesAt(s, taken, live, taken);
  }

  lemma NoHands<T>(s: State<T>, hold: seq<Option<nat>>)
    requires AllIdle(s) && |hold| == |s.cons|
    requires forall j :: 0 <= j < |hold| ==> Hand(s, j) == Value(s.order, hold[j])
    requires forall j :: 0 <= j < |hold| && hold[j].Some? ==> hold[j].value < |s.order|
    ensures forall j :: 0 <= j < |hold| ==> hold[j].None?
  {
    forall j | 0 <= j < |hold| ensures hold[j].None? {
      assert s.cons[j].CIdle? && Hand(s, j) == None;
    }
  }

  // If the results alone name the first n positions, there are at least n of them.
  lemma AllNamed(src: seq<Option<nat>>, hold: seq<Option<nat>>, n: nat)
    requires forall j :: 0 <= j < |hold| ==> hold[j].None?
    requires forall p :: 0 <= p < n ==> Once(src + hold, p)
    ensures |Somes(src)| >= n
  {
    var ps := seq(n, p requires 0 <= p < n => p);
    forall p: nat | p < n ensures p in Somes(src) {
      assert Once(src + hold, p);
      var k :| 0 <= k < |src + hold| && (src + hold)[k] == Some(p);
      Named(src, k);
    }
    DistinctCount(ps);
    ElementsBound(Somes(src));
    assert Elements(ps) <= Elements(Somes(src)) by {
      forall p | p in Elements(ps) ensures p in Elements(Somes(src)) {}
    }
    SubsetSize(Elements(ps), Elements(Somes(src)));
  }

  lemma {:induction false} Named<X>(s: seq<Option<X>>, k: nat)
    requires k < |s| && s[k].Some?
    ensures s[k].value in Somes(s)
  {
    if k > 0 { Named(s[1..], k - 1); }
  }

  lemma {:induction false} SameSomes<T>(rs: seq<Option<T>>, order: seq<T>, src: seq<Option<nat>>)
    requires |src| == |rs|
    requires forall r :: 0 <= r < |src| ==> rs[r] == Value(order, src[r])
    requires forall r :: 0 <= r < |src| && src[r].Some? ==> src[r].value < |order|
    ensures |Somes(rs)| == |Somes(src)|
  {
    if rs != [] {
      assert rs[0] == Value(order, src[0]);
      SameSomes(rs[1..], order, src[1..]);
    }
  }

  // ---- the runs that fail ----

  // Whenever recycling is shared, some run ends with a live node on the free list and values gone.
  lemma LosingRun<T>(capacity: nat, prods: nat, cons: nat, v: T) returns (acts: seq<Act<T>>)
    requires prods >= 1 && cons >= 1 && (prods >= 2 || cons >= 2)
    ensures var s := Reached(true, capacity, prods, cons, acts);
            !Disjoint(s) && Loses(s) && None !in s.results && |s.order| <= capacity + 7
  {
    var s, n;
    if prods >= 2 {
      var a, b;
      n := capacity + 4;
      acts, a, b := TwoProducers(capacity, prods, cons, v, v, v, v);
      s := Reached(true, capacity, prods, cons, acts);
      assert Walk(s.heap, s.free, [a, b]);
    } else {
      var b, way;
      n := capacity + 2;
      acts, b, way := TwoConsumers(capacity, prods, cons, v, v, v);
      s := Reached(true, capacity, prods, cons, acts);
      assert Walk(s.heap, s.free, way);
    }
    assert Walk(s.heap, s.tail, [s.tail.value]);
    assert Leads(s, s.tail, s.tail.value) && Leads(s, s.free, s.tail.value) && Entry(s, s.tail.value);
    SomesWrapped(Repeat(v, n), v);
  }

  lemma {:induction false} SomesWrapped<T>(vs: seq<T>, v: T)
    ensures Somes(Wrapped(vs) + [Some(v)]) == vs + [v]
    ensures None !in Wrapped(vs) + [Some(v)]
  {
    var rs := Wrapped(vs) + [Some(v)];
    if vs == [] {
      assert rs == [Some(v)] && Somes(rs[1..]) == [];
    } else {
      SomesWrapped(vs[1..], v);
      assert rs[0] == Some(vs[0]) && rs[1..] == Wrapped(vs[1..]) + [Some(v)];
    }
  }

  // Returned values are the first of the exchanged values on every run exactly when there is one
  // consumer, and one producer if nodes are recycled; or no consumer at all.
  lemma InOrderExactly<T>(recycle: bool, capacity: nat, prods: nat, cons: nat, u: T, v: T)
    requires prods >= 1 && u != v
    ensures (forall acts: seq<Act<T>> ::
               var s := Reached(recycle, capacity, prods, cons, acts); Somes(s.results) <= s.order)
            <==> cons == 0 || (cons == 1 && Safe(recycle, prods, cons))
  {
    if cons == 0 || (cons == 1 && Safe(recycle, prods, cons)) {
      forall acts: seq<Act<T>>
        ensures var s := Reached(recycle, capacity, prods, cons, acts); Somes(s.results) <= s.order
      {
        if cons == 0 {
          NoResults(Start<T>(recycle, capacity, prods, 0), acts);
        } else {
          var g := Reachable(recycle, capacity, prods, cons, acts);
          InOrder(Reached(recycle, capacity, prods, cons, acts), g);
        }
      }
    } else {
      var acts := OrderLost(recycle, capacity, prods, cons, u, v);
      var s := Reached(recycle, capacity, prods, cons, acts);
      assert !(Somes(s.results) <= s.order);
    }
  }

  // Otherwise some run returns, without an empty pop, values that are not the first exchanged.
  lemma OrderLost<T>(recycle: bool, capacity: nat, prods: nat, cons: nat, u: T, v: T) returns (acts: seq<Act<T>>)
    requires prods >= 1 && cons >= 1 && u != v && !(cons == 1 && Safe(recycle, prods, cons))
    ensures var s := Reached(recycle, capacity, prods, cons, acts);
            !(Somes(s.results) <= s.order) && None !in s.results
  {
    if cons == 1 {
      var n, a, b := capacity + 4, 0, 0;
      acts, a, b := TwoProducers(capacity, prods, cons, u, u, u, v);
      var s := Reached(true, capacity, prods, cons, acts);
      SomesWrapped(Repeat(u, n), v);
      assert Somes(s.results)[n] == v && s.order[n] == u;
    } else {
      acts := OutOfOrder(recycle, capacity, prods, cons, u, v);
      var s := Reached(recycle, capacity, prods, cons, acts);
      assert Somes(s.results) == [v];
      assert s.order[0] == u && Somes(s.results)[0] != s.order[0];
    }
  }

  lemma {:induction false} NoResults<T>(s: State<T>, acts: seq<Act<T>>)
    requires |s.cons| == 0
    ensures Run(s, acts).results == s.results
    decreases |acts|
  {
    if acts != [] {
      NoResults(s, acts[..|acts| - 1]);
      RunSizes(s, acts[..|acts| - 1]);
      NoResult(Run(s, acts[..|acts| - 1]), acts[|acts| - 1]);
    }
  }

  lemma NoResult<T>(s: State<T>, a: Act<T>)
    requires |s.cons| == 0
    ensures Step(s, a).results == s.results
  {
  }
}
