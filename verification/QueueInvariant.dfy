/** What every step of `QueueMachine` keeps. */
module QueueInvariant {
  import opened Options
  import opened QueueMachine

  // Who a node belongs to: a position of the live chain, a position of the free list, the producer
  // filling it, or the consumer retiring it.
  datatype Role = Live(k: nat) | Spare(k: nat) | Filling(i: nat) | Retiring(j: nat)

  // Where a value that left the queue is: with the consumer that claimed it, or returned as the
  // r-th result.
  datatype Where = InHand(j: nat) | Returned(r: nat)

  // The proof's view of a state; no step of the machine reads it.
  datatype View = View(
    chain: seq<nat>,         // nodes in the order of the head_ exchanges
    link: seq<nat>,          // which producer exchanged each
    base: nat,               // chain[base..] is the live chain
    taken: nat,              // values claimed so far: order[..taken]
    published: bool,         // the first push has stored tail_
    win: Option<nat>,        // the consumer that set tail_ to null
    stack: seq<nat>,         // the free list, its top last
    role: seq<Role>,         // per node
    claim: seq<Option<nat>>, // per consumer: the position of the value it holds
    got: seq<Where>,         // per claimed position
    src: seq<Option<nat>>)   // per result: the position it came from

  ghost predicate Sizes<T>(s: State<T>, g: View) {
    && |g.chain| == |g.link| == |s.order|
    && |g.role| == |s.heap| && |g.claim| == |s.cons|
    && |g.got| == g.taken && |g.src| == |s.results|
    && g.base <= g.taken <= |g.chain| && g.taken <= g.base + 1
    && (if g.published then g.base < |g.chain| else g.taken == 0)
    && (s.recycle ==> |s.prods| <= 1 && |s.cons| <= 1)
  }

  ghost predicate Roles<T>(s: State<T>, g: View)
    requires Sizes(s, g)
  {
    && (forall k :: g.base <= k < |g.chain| ==>
          g.chain[k] < |s.heap| && g.role[g.chain[k]] == Live(k))
    && (forall k :: 0 <= k < |g.stack| ==>
          g.stack[k] < |s.heap| && g.role[g.stack[k]] == Spare(k))
    && (forall n :: 0 <= n < |s.heap| ==>
          && (g.role[n].Live? ==> g.base <= g.role[n].k < |g.chain| && g.chain[g.role[n].k] == n)
          && (g.role[n].Spare? ==> g.role[n].k < |g.stack| && g.stack[g.role[n].k] == n))
  }

  // Neighbours in the live chain are linked, or the producer that will link them is about to.
  ghost predicate Linked<T>(s: State<T>, g: View)
    requires Sizes(s, g) && Roles(s, g)
  {
    forall k :: g.base <= k < |g.chain| ==> LinkedAt(s, g, k)
  }

  ghost predicate LinkedAt<T>(s: State<T>, g: View, k: nat)
    requires Sizes(s, g) && g.base <= k < |g.chain| && g.chain[k] < |s.heap|
  {
    var next := s.heap[g.chain[k]].next;
    if k + 1 == |g.chain| then next == None
    else
      || next == Some(g.chain[k + 1])
      || (next == None && g.link[k + 1] < |s.prods|
          && s.prods[g.link[k + 1]] == PLink(g.chain[k + 1], Some(g.chain[k])))
  }

  ghost predicate Values<T>(s: State<T>, g: View)
    requires Sizes(s, g) && Roles(s, g)
  {
    && (forall k {:trigger g.chain[k]} :: g.taken <= k < |g.chain| ==>
          s.heap[g.chain[k]].hasValue && s.heap[g.chain[k]].data == Some(s.order[k]))
    && (g.base < g.taken && g.win.None? ==>
          s.heap[g.chain[g.base]] == Node(s.heap[g.chain[g.base]].next, false, None))
  }

  // The consumer has set tail_ to null and will put it back.
  predicate Window<T>(c: Consumer<T>) {
    (c.CTake? || c.CMove? || c.CDone?) && c.next.None?
  }

  ghost predicate Ends<T>(s: State<T>, g: View)
    requires Sizes(s, g)
  {
    && s.head == (if g.chain == [] then None else Some(g.chain[|g.chain| - 1]))
    && (if !g.published then
          && s.tail.None? && g.win.None?
          && (g.chain != [] ==> g.link[0] < |s.prods| && s.prods[g.link[0]] == PLink(g.chain[0], None))
        else if g.win.None? then s.tail == Some(g.chain[g.base])
        else
          && s.tail.None? && g.win.value < |s.cons| && g.base < g.taken
          && Window(s.cons[g.win.value]) && s.cons[g.win.value].t == g.chain[g.base])
    && (forall j :: 0 <= j < |s.cons| && Window(s.cons[j]) ==> g.win == Some(j))
  }

  ghost predicate FreeList<T>(s: State<T>, g: View)
    requires Sizes(s, g) && Roles(s, g)
  {
    && s.free == (if g.stack == [] then None else Some(g.stack[|g.stack| - 1]))
    && (forall k :: 0 <= k < |g.stack| ==> StackedAt(s, g, k))
  }

  ghost predicate StackedAt<T>(s: State<T>, g: View, k: nat)
    requires k < |g.stack| && g.stack[k] < |s.heap|
  {
    s.heap[g.stack[k]] == Node(if k > 0 then Some(g.stack[k - 1]) else None, false, None)
  }

  ghost predicate ProducerOk<T>(s: State<T>, g: View, i: nat)
    requires Sizes(s, g) && i < |s.prods|
  {
    match s.prods[i]
    case PIdle => true
    case PFree(v) => true
    case PNext(v, entry) =>
      entry.Some? ==> s.recycle && entry.value < |s.heap| && g.role[entry.value].Spare?
    case PCas(v, e, next) =>
      s.recycle && e < |s.heap| && g.role[e].Spare? && s.heap[e].next == next
    case PClear(v, e) => Holds(s, g, e, Filling(i)) && s.heap[e] == Node(s.heap[e].next, false, None)
    case PCheck(v, e) => Holds(s, g, e, Filling(i)) && s.heap[e] == Node(None, false, None)
    case PWrite(v, e) => Holds(s, g, e, Filling(i)) && s.heap[e] == Node(None, false, None)
    case PFlag(v, e) => Holds(s, g, e, Filling(i)) && s.heap[e] == Node(None, false, Some(v))
    case PSwap(v, e) => Holds(s, g, e, Filling(i)) && s.heap[e] == Node(None, true, Some(v))
    case PLink(e, None) => !g.published && g.chain != [] && g.chain[0] == e && g.link[0] == i
    case PLink(e, Some(p)) =>
      && p < |s.heap| && g.role[p].Live? && s.heap[p].next == None
      && var k := g.role[p].k;
         k + 1 < |g.chain| && g.chain[k + 1] == e && g.link[k + 1] == i
  }

  ghost predicate Holds<T>(s: State<T>, g: View, n: nat, r: Role)
    requires Sizes(s, g)
  {
    n < |s.heap| && g.role[n] == r
  }

  // The value a consumer's claim entitles it to.
  ghost function Claimed<T>(s: State<T>, g: View, j: nat): Option<T>
    requires Sizes(s, g) && j < |s.cons|
  {
    match g.claim[j] case None => None case Some(p) => if p < |s.order| then Some(s.order[p]) else None
  }

  // A consumer's copy of tail_ is still the front, or has left the chain for good.
  ghost predicate Seen<T>(s: State<T>, g: View, t: nat)
    requires Sizes(s, g)
  {
    && g.published && t < |s.heap|
    && (t == g.chain[g.base] || (!s.recycle && (g.role[t].Spare? || g.role[t].Retiring?)))
  }

  ghost predicate ConsumerOk<T>(s: State<T>, g: View, j: nat)
    requires Sizes(s, g) && j < |s.cons|
  {
    var c := s.cons[j];
    var mine := Claimed(s, g, j);
    && (g.claim[j].Some? ==> g.claim[j].value < g.taken && g.got[g.claim[j].value] == InHand(j))
    && match c
       case CIdle => g.claim[j].None?
       case CTail => g.claim[j].None?
       case CNext(t) => g.claim[j].None? && Seen(s, g, t)
       case CCas(t, next) =>
         && g.claim[j].None? && Seen(s, g, t)
         && (t == g.chain[g.base] && next.Some? ==>
               g.base + 1 < |g.chain| && next.value == g.chain[g.base + 1] && s.heap[t].next == next)
       case CTake(t, next) =>
         && Owns(s, g, j, t, next)
         && s.heap[t].hasValue == mine.Some? && s.heap[t].data == mine
       case CMove(t, next) =>
         Owns(s, g, j, t, next) && mine.Some? && !s.heap[t].hasValue && s.heap[t].data == mine
       case CDone(t, next, ret) =>
         Owns(s, g, j, t, next) && ret == mine && !s.heap[t].hasValue && s.heap[t].data == None
       case CStore(t, f, ret) =>
         Holds(s, g, t, Retiring(j)) && ret == mine && !s.heap[t].hasValue && s.heap[t].data == None
       case CPush(t, f, ret) =>
         Holds(s, g, t, Retiring(j)) && ret == mine && s.heap[t] == Node(f, false, None)
  }

  ghost predicate Owns<T>(s: State<T>, g: View, j: nat, t: nat, next: Ptr)
    requires Sizes(s, g)
  {
    && t < |s.heap|
    && (if next.None? then g.published && t == g.chain[g.base] && g.win == Some(j)
        else g.role[t] == Retiring(j))
  }

  // Claimed positions and their holders or results point at each other.
  ghost predicate Accounts<T>(s: State<T>, g: View)
    requires Sizes(s, g)
  {
    && (forall p :: 0 <= p < g.taken ==>
          match g.got[p]
          case InHand(j) => j < |s.cons| && g.claim[j] == Some(p)
          case Returned(r) => r < |s.results| && g.src[r] == Some(p))
    && (forall r :: 0 <= r < |s.results| ==>
          match g.src[r]
          case None => s.results[r] == None
          case Some(p) =>
            p < g.taken && g.got[p] == Returned(r) && s.results[r] == Some(s.order[p]))
  }

  ghost predicate Chains<T>(s: State<T>, g: View)
    requires Sizes(s, g)
  {
    Roles(s, g) && Linked(s, g) && Values(s, g) && Ends(s, g) && FreeList(s, g)
  }

  ghost predicate Inv<T>(s: State<T>, g: View) {
    && Sizes(s, g) && Chains(s, g)
    && (forall i :: 0 <= i < |s.prods| ==> ProducerOk(s, g, i))
    && (forall j :: 0 <= j < |s.cons| ==> ConsumerOk(s, g, j))
    && Accounts(s, g)
  }

  // How the view follows a step.
  function Track<T>(s: State<T>, g: View, a: Act<T>): View {
    match a
    case Prod(i) => if i < |s.prods| then TrackProducer(s, g, i) else g
    case Cons(j) => if j < |s.cons| then TrackConsumer(s, g, j) else g
    case _ => g
  }

  function Give(g: View, n: nat, r: Role): seq<Role> {
    if n < |g.role| then g.role[n := r] else g.role
  }

  function TrackProducer<T>(s: State<T>, g: View, i: nat): View
    requires i < |s.prods|
  {
    match s.prods[i]
    case PNext(v, None) => g.(role := g.role + [Filling(i)])
    case PCas(v, e, next) =>
      if s.free == Some(e) && g.stack != []
      then g.(stack := g.stack[..|g.stack| - 1], role := Give(g, e, Filling(i))) else g
    case PSwap(v, e) =>
      g.(chain := g.chain + [e], link := g.link + [i], role := Give(g, e, Live(|g.chain|)))
    case PLink(e, None) => g.(published := true)
    case _ => g
  }

  function TrackConsumer<T>(s: State<T>, g: View, j: nat): View
    requires j < |s.cons|
  {
    match s.cons[j]
    case CTail => if s.tail.None? then g.(src := g.src + [None]) else g
    case CCas(t, next) =>
      if s.tail == Some(t) && j < |g.claim| then
        if next.None? then ClaimFront(g, j).(win := Some(j))
        else ClaimFront(g, j).(base := g.base + 1, role := Give(g, t, Retiring(j)))
      else g
    case CDone(t, None, ret) => Finish(g, j).(win := None)
    case CPush(t, f, ret) =>
      if s.free == f
      then Finish(g, j).(stack := g.stack + [t], role := Give(g, t, Spare(|g.stack|))) else g
    case _ => g
  }

  // Consumer j has won tail_: the front value, if still there, is its own.
  function ClaimFront(g: View, j: nat): View
    requires j < |g.claim|
  {
    if g.taken != g.base then g
    else g.(taken := g.taken + 1, claim := g.claim[j := Some(g.base)], got := g.got + [InHand(j)])
  }

  // Consumer j returns: what it claimed becomes the next result.
  function Finish(g: View, j: nat): View {
    if j < |g.claim| then
      var c := g.claim[j];
      g.(claim := g.claim[j := None], src := g.src + [c],
         got := if c.Some? && c.value < |g.got| then g.got[c.value := Returned(|g.src|)] else g.got)
    else g
  }

  // A step of producer i that changes no more than its own place and the node it is filling.
  ghost predicate QuietProducer<T>(s: State<T>, g: View, i: nat, s': State<T>)
    requires Sizes(s, g) && i < |s.prods|
  {
    && |s'.prods| == |s.prods|
    && s' == s.(heap := s'.heap, prods := s.prods[i := s'.prods[i]], submitted := s'.submitted)
    && |s'.heap| == |s.heap|
    && (forall n :: 0 <= n < |s.heap| && g.role[n] != Filling(i) ==> s'.heap[n] == s.heap[n])
    && !s.prods[i].PLink? && !s'.prods[i].PLink?
  }

  lemma KeepQuietProducer<T>(s: State<T>, g: View, i: nat, s': State<T>)
    requires Inv(s, g) && i < |s.prods| && QuietProducer(s, g, i, s')
    requires Sizes(s', g) && ProducerOk(s', g, i)
    ensures Inv(s', g)
  {
    KeepQuietProducerChains(s, g, i, s');
    forall i' | 0 <= i' < |s.prods| ensures ProducerOk(s', g, i') {
      if i' != i { KeepQuietProducerOther(s, g, i, s', i'); }
    }
    forall j | 0 <= j < |s.cons| ensures ConsumerOk(s', g, j) {
      KeepQuietProducerConsumer(s, g, i, s', j);
    }
    assert Accounts(s', g);
  }

  lemma KeepQuietProducerChains<T>(s: State<T>, g: View, i: nat, s': State<T>)
    requires Sizes(s, g) && Chains(s, g)
    requires i < |s.prods| && QuietProducer(s, g, i, s') && Sizes(s', g)
    ensures Chains(s', g)
  {
    KeepQuietProducerLinks(s, g, i, s');
    KeepQuietProducerEnds(s, g, i, s');
    forall k | 0 <= k < |g.stack| ensures StackedAt(s', g, k) {
      assert StackedAt(s, g, k);
    }
  }

  lemma KeepQuietProducerLinks<T>(s: State<T>, g: View, i: nat, s': State<T>)
    requires Sizes(s, g) && Roles(s, g) && Linked(s, g)
    requires i < |s.prods| && QuietProducer(s, g, i, s') && Sizes(s', g)
    ensures Roles(s', g) && Linked(s', g)
  {
    forall k | g.base <= k < |g.chain| ensures LinkedAt(s', g, k) {
      assert LinkedAt(s, g, k);
    }
  }

  lemma KeepQuietProducerEnds<T>(s: State<T>, g: View, i: nat, s': State<T>)
    requires Sizes(s, g) && Roles(s, g) && Values(s, g) && Ends(s, g)
    requires i < |s.prods| && QuietProducer(s, g, i, s') && Sizes(s', g) && Roles(s', g)
    ensures Values(s', g) && Ends(s', g)
  {
  }

  lemma KeepQuietProducerOther<T>(s: State<T>, g: View, i: nat, s': State<T>, i': nat)
    requires Sizes(s, g) && i < |s.prods| && QuietProducer(s, g, i, s') && Sizes(s', g)
    requires i' < |s.prods| && i' != i && ProducerOk(s, g, i')
    ensures ProducerOk(s', g, i')
  {
  }

  lemma KeepQuietProducerConsumer<T>(s: State<T>, g: View, i: nat, s': State<T>, j: nat)
    requires Sizes(s, g) && Roles(s, g)
    requires i < |s.prods| && QuietProducer(s, g, i, s') && Sizes(s', g)
    requires j < |s.cons| && ConsumerOk(s, g, j)
    ensures ConsumerOk(s', g, j)
  {
  }

  // A step of consumer j that changes no more than its own place and the node it has claimed.
  ghost predicate QuietConsumer<T>(s: State<T>, g: View, j: nat, s': State<T>)
    requires Sizes(s, g) && Roles(s, g) && j < |s.cons|
  {
    && |s'.cons| == |s.cons|
    && s' == s.(heap := s'.heap, cons := s.cons[j := s'.cons[j]])
    && |s'.heap| == |s.heap|
    && (forall n :: 0 <= n < |s.heap| && g.role[n] != Retiring(j) ==>
          || s'.heap[n] == s.heap[n]
          || (g.win == Some(j) && g.role[n] == Live(g.base) && s'.heap[n].next == s.heap[n].next))
    && Window(s'.cons[j]) == Window(s.cons[j])
    && (Window(s.cons[j]) ==> s'.cons[j].t == s.cons[j].t)
  }

  lemma KeepQuietConsumer<T>(s: State<T>, g: View, j: nat, s': State<T>)
    requires Inv(s, g) && j < |s.cons| && QuietConsumer(s, g, j, s')
    requires Sizes(s', g) && ConsumerOk(s', g, j)
    ensures Inv(s', g)
  {
    KeepQuietConsumerChains(s, g, j, s');
    forall i | 0 <= i < |s.prods| ensures ProducerOk(s', g, i) {
      KeepQuietConsumerProducer(s, g, j, s', i);
    }
    forall j' | 0 <= j' < |s.cons| ensures ConsumerOk(s', g, j') {
      if j' != j { KeepQuietConsumerOther(s, g, j, s', j'); }
    }
    assert Accounts(s', g);
  }

  lemma KeepQuietConsumerChains<T>(s: State<T>, g: View, j: nat, s': State<T>)
    requires Sizes(s, g) && Chains(s, g)
    requires j < |s.cons| && QuietConsumer(s, g, j, s') && Sizes(s', g)
    ensures Chains(s', g)
  {
    assert Roles(s', g);
    KeepQuietConsumerLinks(s, g, j, s');
    KeepQuietConsumerEnds(s, g, j, s');
    forall k | 0 <= k < |g.stack| ensures StackedAt(s', g, k) {
      assert StackedAt(s, g, k);
    }
  }

  lemma KeepQuietConsumerLinks<T>(s: State<T>, g: View, j: nat, s': State<T>)
    requires Sizes(s, g) && Roles(s, g) && Linked(s, g)
    requires j < |s.cons| && QuietConsumer(s, g, j, s') && Sizes(s', g) && Roles(s', g)
    ensures Linked(s', g)
  {
    forall k | g.base <= k < |g.chain| ensures LinkedAt(s', g, k) {
      assert LinkedAt(s, g, k);
    }
  }

  lemma KeepQuietConsumerEnds<T>(s: State<T>, g: View, j: nat, s': State<T>)
    requires Sizes(s, g) && Roles(s, g) && Values(s, g) && Ends(s, g)
    requires j < |s.cons| && QuietConsumer(s, g, j, s') && Sizes(s', g) && Roles(s', g)
    ensures Values(s', g) && Ends(s', g)
  {
  }

  lemma KeepQuietConsumerProducer<T>(s: State<T>, g: View, j: nat, s': State<T>, i: nat)
    requires Sizes(s, g) && Roles(s, g) && Ends(s, g)
    requires j < |s.cons| && QuietConsumer(s, g, j, s') && Sizes(s', g)
    requires i < |s.prods| && ProducerOk(s, g, i)
    ensures ProducerOk(s', g, i)
  {
    if s.prods[i].PLink? { KeepQuietConsumerLink(s, g, j, s', i); }
  }

  lemma KeepQuietConsumerLink<T>(s: State<T>, g: View, j: nat, s': State<T>, i: nat)
    requires Sizes(s, g) && Roles(s, g)
    requires j < |s.cons| && QuietConsumer(s, g, j, s') && Sizes(s', g)
    requires i < |s.prods| && ProducerOk(s, g, i) && s.prods[i].PLink?
    ensures ProducerOk(s', g, i)
  {
  }

  lemma KeepQuietConsumerOther<T>(s: State<T>, g: View, j: nat, s': State<T>, j': nat)
    requires Sizes(s, g) && Roles(s, g) && Ends(s, g)
    requires j < |s.cons| && QuietConsumer(s, g, j, s') && Sizes(s', g)
    requires j' < |s.cons| && j' != j && ConsumerOk(s, g, j')
    ensures ConsumerOk(s', g, j')
  {
  }
}
