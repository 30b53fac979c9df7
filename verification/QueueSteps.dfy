/** The invariant of `QueueInvariant` survives each step of `push` and `pop`.

    A step that touches only its own node is covered by `KeepQuietProducer` and
    `KeepQuietConsumer`; each of the others has a lemma with three parts, for the chains, for an
    arbitrary producer and for an arbitrary consumer. */
module QueueSteps {
  import opened Options
  import opened QueueMachine
  import opened QueueInvariant

  // Nothing the free list is made of changes.
  lemma KeepFreeList<T>(s: State<T>, g: View, s': State<T>, g': View)
    requires Sizes(s, g) && Sizes(s', g') && Roles(s, g) && Roles(s', g') && FreeList(s, g)
    requires s'.free == s.free && g'.stack == g.stack
    requires forall n :: 0 <= n < |s.heap| && g.role[n].Spare? ==> n < |s'.heap| && s'.heap[n] == s.heap[n]
    ensures FreeList(s', g')
  {
    forall k | 0 <= k < |g.stack| ensures StackedAt(s', g', k) {
      assert StackedAt(s, g, k);
    }
  }

  lemma KeepAccounts<T>(s: State<T>, g: View, s': State<T>, g': View)
    requires Sizes(s, g) && Sizes(s', g') && Accounts(s, g)
    requires |s'.cons| == |s.cons| && s'.results == s.results && s'.order == s.order
    requires g'.got == g.got && g'.claim == g.claim && g'.src == g.src && g'.taken == g.taken
    ensures Accounts(s', g')
  {}

  // No link of the live chain changes; its front may leave.
  lemma KeepLinked<T>(s: State<T>, g: View, s': State<T>, g': View)
    requires Sizes(s, g) && Sizes(s', g') && Roles(s, g) && Roles(s', g') && Linked(s, g)
    requires s'.prods == s.prods && g'.chain == g.chain && g'.link == g.link && g'.base >= g.base
    requires forall n :: 0 <= n < |s.heap| && g.role[n].Live? ==> n < |s'.heap| && s'.heap[n].next == s.heap[n].next
    ensures Linked(s', g')
  {
    forall k | g'.base <= k < |g'.chain| ensures LinkedAt(s', g', k) {
      assert LinkedAt(s, g, k);
    }
  }

  // ---- push ----

  // `new entry_t`.
  ghost predicate IsAllocate<T>(s: State<T>, g: View, i: nat, v: T, s': State<T>, g': View) {
    && Sizes(s, g) && Sizes(s', g')
    && i < |s.prods| && s.prods[i] == PNext(v, None)
    && s' == s.(heap := s.heap + [Node(None, false, None)], prods := s.prods[i := PCheck(v, |s.heap|)])
    && g' == g.(role := g.role + [Filling(i)])
    && ProducerOk(s, g, i)
  }

  lemma Allocate<T>(s: State<T>, g: View, i: nat, v: T, s': State<T>, g': View)
    requires Inv(s, g) && IsAllocate(s, g, i, v, s', g')
    ensures Inv(s', g')
  {
    AllocateRoles(s, g, i, v, s', g');
    AllocateLinked(s, g, i, v, s', g');
    AllocateValues(s, g, i, v, s', g');
    AllocateEnds(s, g, i, v, s', g');
    KeepFreeList(s, g, s', g');
    forall i' | 0 <= i' < |s.prods| ensures ProducerOk(s', g', i') {
      AllocateProducer(s, g, i, v, s', g', i');
    }
    forall j' | 0 <= j' < |s.cons| ensures ConsumerOk(s', g', j') {
      AllocateConsumer(s, g, i, v, s', g', j');
    }
  }

  lemma AllocateRoles<T>(s: State<T>, g: View, i: nat, v: T, s': State<T>, g': View)
    requires Sizes(s, g) && Roles(s, g) && IsAllocate(s, g, i, v, s', g')
    ensures Roles(s', g')
  {}

  lemma AllocateLinked<T>(s: State<T>, g: View, i: nat, v: T, s': State<T>, g': View)
    requires Sizes(s, g) && Roles(s, g) && Linked(s, g) && Ends(s, g) && Sizes(s', g') && Roles(s', g')
    requires IsAllocate(s, g, i, v, s', g')
    ensures Linked(s', g')
  {
    forall k | g'.base <= k < |g'.chain| ensures LinkedAt(s', g', k) {
      assert LinkedAt(s, g, k);
    }
  }

  lemma AllocateValues<T>(s: State<T>, g: View, i: nat, v: T, s': State<T>, g': View)
    requires Sizes(s, g) && Roles(s, g) && Values(s, g) && Ends(s, g) && Sizes(s', g') && Roles(s', g')
    requires IsAllocate(s, g, i, v, s', g')
    ensures Values(s', g')
  {}

  lemma AllocateEnds<T>(s: State<T>, g: View, i: nat, v: T, s': State<T>, g': View)
    requires Sizes(s, g) && Roles(s, g) && Ends(s, g) && Sizes(s', g') && IsAllocate(s, g, i, v, s', g')
    ensures Ends(s', g')
  {}

  lemma AllocateProducer<T>(s: State<T>, g: View, i: nat, v: T, s': State<T>, g': View, i': nat)
    requires Sizes(s, g) && i' < |s.prods| && ProducerOk(s, g, i') && IsAllocate(s, g, i, v, s', g')
    ensures ProducerOk(s', g', i')
  {}

  lemma AllocateConsumer<T>(s: State<T>, g: View, i: nat, v: T, s': State<T>, g': View, j': nat)
    requires Sizes(s, g) && j' < |s.cons| && ConsumerOk(s, g, j') && IsAllocate(s, g, i, v, s', g')
    ensures ConsumerOk(s', g', j')
  {}

  // A successful compare-exchange takes the top of the free list, and `next`, read earlier, is still
  // the node below it: the top cannot have left and come back, as recycling is only ever used by a
  // single producer.
  ghost predicate IsReuse<T>(s: State<T>, g: View, i: nat, v: T, e: nat, next: Ptr, s': State<T>, g': View) {
    && Sizes(s, g) && Sizes(s', g')
    && i < |s.prods| && s.prods[i] == PCas(v, e, next) && s.free == Some(e) && g.stack != []
    && s' == s.(free := next, prods := s.prods[i := PClear(v, e)])
    && g' == g.(stack := g.stack[..|g.stack| - 1], role := Give(g, e, Filling(i)))
    && ProducerOk(s, g, i)
  }

  lemma Reuse<T>(s: State<T>, g: View, i: nat, v: T, e: nat, next: Ptr, s': State<T>, g': View)
    requires Inv(s, g) && IsReuse(s, g, i, v, e, next, s', g')
    ensures Inv(s', g')
    ensures var top := |g.stack| - 1;
            g.stack[top] == e && next == if top > 0 then Some(g.stack[top - 1]) else None
  {
    ReuseTop(s, g, i, v, e, next, s', g');
    ReuseRoles(s, g, i, v, e, next, s', g');
    ReuseLinked(s, g, i, v, e, next, s', g');
    ReuseValues(s, g, i, v, e, next, s', g');
    ReuseEnds(s, g, i, v, e, next, s', g');
    ReuseFreeList(s, g, i, v, e, next, s', g');
    forall i' | 0 <= i' < |s.prods| ensures ProducerOk(s', g', i') {
      ReuseProducer(s, g, i, v, e, next, s', g', i');
    }
    forall j' | 0 <= j' < |s.cons| ensures ConsumerOk(s', g', j') {
      ReuseConsumer(s, g, i, v, e, next, s', g', j');
    }
  }

  lemma ReuseTop<T>(s: State<T>, g: View, i: nat, v: T, e: nat, next: Ptr, s': State<T>, g': View)
    requires Sizes(s, g) && Roles(s, g) && FreeList(s, g) && IsReuse(s, g, i, v, e, next, s', g')
    ensures var top := |g.stack| - 1;
            g.stack[top] == e && next == if top > 0 then Some(g.stack[top - 1]) else None
  {
    assert StackedAt(s, g, |g.stack| - 1);
  }

  lemma ReuseRoles<T>(s: State<T>, g: View, i: nat, v: T, e: nat, next: Ptr, s': State<T>, g': View)
    requires Sizes(s, g) && Roles(s, g) && FreeList(s, g) && IsReuse(s, g, i, v, e, next, s', g')
    ensures Roles(s', g')
  {
    assert StackedAt(s, g, |g.stack| - 1);
  }

  lemma ReuseLinked<T>(s: State<T>, g: View, i: nat, v: T, e: nat, next: Ptr, s': State<T>, g': View)
    requires Sizes(s, g) && Roles(s, g) && Linked(s, g) && Ends(s, g) && Sizes(s', g') && Roles(s', g')
    requires IsReuse(s, g, i, v, e, next, s', g')
    ensures Linked(s', g')
  {
    forall k | g'.base <= k < |g'.chain| ensures LinkedAt(s', g', k) {
      assert LinkedAt(s, g, k);
    }
  }

  lemma ReuseValues<T>(s: State<T>, g: View, i: nat, v: T, e: nat, next: Ptr, s': State<T>, g': View)
    requires Sizes(s, g) && Roles(s, g) && Values(s, g) && Ends(s, g) && Sizes(s', g') && Roles(s', g')
    requires IsReuse(s, g, i, v, e, next, s', g')
    ensures Values(s', g')
  {}

  lemma ReuseEnds<T>(s: State<T>, g: View, i: nat, v: T, e: nat, next: Ptr, s': State<T>, g': View)
    requires Sizes(s, g) && Roles(s, g) && Ends(s, g) && Sizes(s', g')
    requires IsReuse(s, g, i, v, e, next, s', g')
    ensures Ends(s', g')
  {}

  lemma ReuseFreeList<T>(s: State<T>, g: View, i: nat, v: T, e: nat, next: Ptr, s': State<T>, g': View)
    requires Sizes(s, g) && Roles(s, g) && FreeList(s, g) && Sizes(s', g') && Roles(s', g')
    requires IsReuse(s, g, i, v, e, next, s', g')
    ensures FreeList(s', g')
  {
    assert StackedAt(s, g, |g.stack| - 1);
    forall k | 0 <= k < |g'.stack| ensures StackedAt(s', g', k) {
      assert StackedAt(s, g, k);
    }
  }

  lemma ReuseProducer<T>(s: State<T>, g: View, i: nat, v: T, e: nat, next: Ptr, s': State<T>, g': View, i': nat)
    requires Sizes(s, g) && i' < |s.prods| && ProducerOk(s, g, i') && Roles(s, g) && FreeList(s, g)
    requires IsReuse(s, g, i, v, e, next, s', g')
    ensures ProducerOk(s', g', i')
  {
    assert i == i' == 0 && StackedAt(s, g, |g.stack| - 1);
  }

  lemma ReuseConsumer<T>(s: State<T>, g: View, i: nat, v: T, e: nat, next: Ptr, s': State<T>, g': View, j': nat)
    requires Sizes(s, g) && j' < |s.cons| && ConsumerOk(s, g, j') && Roles(s, g) && FreeList(s, g)
    requires IsReuse(s, g, i, v, e, next, s', g')
    ensures ConsumerOk(s', g', j')
  {}

  // The head_ exchange appends the node to the live chain, linked or not.
  ghost predicate IsExchange<T>(s: State<T>, g: View, i: nat, v: T, e: nat, s': State<T>, g': View) {
    && Sizes(s, g) && Sizes(s', g')
    && i < |s.prods| && s.prods[i] == PSwap(v, e)
    && s' == s.(head := Some(e), prods := s.prods[i := PLink(e, s.head)], order := s.order + [v])
    && g' == g.(chain := g.chain + [e], link := g.link + [i], role := Give(g, e, Live(|g.chain|)))
    && ProducerOk(s, g, i)
  }

  lemma Exchange<T>(s: State<T>, g: View, i: nat, v: T, e: nat, s': State<T>, g': View)
    requires Inv(s, g) && IsExchange(s, g, i, v, e, s', g')
    ensures Inv(s', g')
  {
    ExchangeRoles(s, g, i, v, e, s', g');
    ExchangeLinked(s, g, i, v, e, s', g');
    ExchangeValues(s, g, i, v, e, s', g');
    ExchangeEnds(s, g, i, v, e, s', g');
    KeepFreeList(s, g, s', g');
    ExchangeAccounts(s, g, i, v, e, s', g');
    forall i' | 0 <= i' < |s.prods| ensures ProducerOk(s', g', i') {
      ExchangeProducer(s, g, i, v, e, s', g', i');
    }
    forall j' | 0 <= j' < |s.cons| ensures ConsumerOk(s', g', j') {
      ExchangeConsumer(s, g, i, v, e, s', g', j');
    }
  }

  lemma ExchangeRoles<T>(s: State<T>, g: View, i: nat, v: T, e: nat, s': State<T>, g': View)
    requires Sizes(s, g) && Roles(s, g) && IsExchange(s, g, i, v, e, s', g')
    ensures Roles(s', g')
  {}

  lemma ExchangeLinked<T>(s: State<T>, g: View, i: nat, v: T, e: nat, s': State<T>, g': View)
    requires Sizes(s, g) && Roles(s, g) && Linked(s, g) && Ends(s, g) && Sizes(s', g') && Roles(s', g')
    requires IsExchange(s, g, i, v, e, s', g')
    ensures Linked(s', g')
  {
    forall k | g'.base <= k < |g'.chain| ensures LinkedAt(s', g', k) {
      if k < |g.chain| {
        ExchangeLinkedAt(s, g, i, v, e, s', g', k);
      } else {
        ExchangeLinkedLast(s, g, i, v, e, s', g');
      }
    }
  }

  lemma ExchangeLinkedLast<T>(s: State<T>, g: View, i: nat, v: T, e: nat, s': State<T>, g': View)
    requires Sizes(s, g) && IsExchange(s, g, i, v, e, s', g') && e < |s'.heap| && g'.base <= |g.chain|
    ensures LinkedAt(s', g', |g.chain|)
  {}

  lemma ExchangeLinkedAt<T>(s: State<T>, g: View, i: nat, v: T, e: nat, s': State<T>, g': View, k: nat)
    requires Sizes(s, g) && Roles(s, g) && Ends(s, g) && IsExchange(s, g, i, v, e, s', g') && Roles(s', g')
    requires g.base <= k < |g.chain| && LinkedAt(s, g, k)
    ensures LinkedAt(s', g', k)
  {}

  lemma ExchangeValues<T>(s: State<T>, g: View, i: nat, v: T, e: nat, s': State<T>, g': View)
    requires Sizes(s, g) && Roles(s, g) && Values(s, g) && Ends(s, g) && Sizes(s', g') && Roles(s', g')
    requires IsExchange(s, g, i, v, e, s', g')
    ensures Values(s', g')
  {
    ExchangeNew(s, g, i, v, e, s', g');
    ExchangeOld(s, g, i, v, e, s', g');
  }

  lemma ExchangeNew<T>(s: State<T>, g: View, i: nat, v: T, e: nat, s': State<T>, g': View)
    requires IsExchange(s, g, i, v, e, s', g')
    ensures e < |s'.heap| && s'.heap[e] == Node(None, true, Some(v))
    ensures g'.chain[|g.chain|] == e && s'.order[|g.chain|] == v
  {}

  lemma ExchangeOld<T>(s: State<T>, g: View, i: nat, v: T, e: nat, s': State<T>, g': View)
    requires IsExchange(s, g, i, v, e, s', g')
    ensures s'.heap == s.heap && g'.base == g.base && g'.taken == g.taken && g'.win == g.win
    ensures |g'.chain| == |g.chain| + 1
    ensures forall k :: 0 <= k < |g.chain| ==> g'.chain[k] == g.chain[k] && s'.order[k] == s.order[k]
  {}

  lemma ExchangeEnds<T>(s: State<T>, g: View, i: nat, v: T, e: nat, s': State<T>, g': View)
    requires Sizes(s, g) && Roles(s, g) && Ends(s, g) && Sizes(s', g') && IsExchange(s, g, i, v, e, s', g')
    ensures Ends(s', g')
  {}

  lemma ExchangeAccounts<T>(s: State<T>, g: View, i: nat, v: T, e: nat, s': State<T>, g': View)
    requires Sizes(s, g) && Accounts(s, g) && IsExchange(s, g, i, v, e, s', g')
    ensures Accounts(s', g')
  {}

  lemma ExchangeProducer<T>(s: State<T>, g: View, i: nat, v: T, e: nat, s': State<T>, g': View, i': nat)
    requires Sizes(s, g) && i' < |s.prods| && ProducerOk(s, g, i') && Roles(s, g) && Linked(s, g) && Ends(s, g)
    requires IsExchange(s, g, i, v, e, s', g')
    ensures ProducerOk(s', g', i')
  {
    if i' == i {
      if g.base < |g.chain| { assert LinkedAt(s, g, |g.chain| - 1); }
      ExchangeSelf(s, g, i, v, e, s', g');
    } else {
      ExchangeOther(s, g, i, v, e, s', g', i');
    }
  }

  lemma ExchangeSelf<T>(s: State<T>, g: View, i: nat, v: T, e: nat, s': State<T>, g': View)
    requires Sizes(s, g) && Roles(s, g) && Ends(s, g) && IsExchange(s, g, i, v, e, s', g')
    requires g.base < |g.chain| ==> LinkedAt(s, g, |g.chain| - 1)
    ensures ProducerOk(s', g', i)
  {}

  lemma ExchangeOther<T>(s: State<T>, g: View, i: nat, v: T, e: nat, s': State<T>, g': View, i': nat)
    requires Sizes(s, g) && i' < |s.prods| && i' != i && ProducerOk(s, g, i') && Roles(s, g) && Ends(s, g)
    requires IsExchange(s, g, i, v, e, s', g')
    ensures ProducerOk(s', g', i')
  {}

  lemma ExchangeConsumer<T>(s: State<T>, g: View, i: nat, v: T, e: nat, s': State<T>, g': View, j': nat)
    requires Sizes(s, g) && j' < |s.cons| && ConsumerOk(s, g, j') && Roles(s, g)
    requires IsExchange(s, g, i, v, e, s', g')
    ensures ConsumerOk(s', g', j')
  {}

  // The first push stores tail_; nobody can have been inside a window before that.
  ghost predicate IsPublishFirst<T>(s: State<T>, g: View, i: nat, e: nat, s': State<T>, g': View) {
    && Sizes(s, g) && Sizes(s', g')
    && i < |s.prods| && s.prods[i] == PLink(e, None)
    && s' == s.(tail := Some(e), prods := s.prods[i := PIdle])
    && g' == g.(published := true)
    && ProducerOk(s, g, i)
  }

  lemma PublishFirst<T>(s: State<T>, g: View, i: nat, e: nat, s': State<T>, g': View)
    requires Inv(s, g) && IsPublishFirst(s, g, i, e, s', g')
    ensures Inv(s', g')
  {
    PublishFirstRoles(s, g, i, e, s', g');
    PublishFirstLinked(s, g, i, e, s', g');
    PublishFirstValues(s, g, i, e, s', g');
    PublishFirstEnds(s, g, i, e, s', g');
    KeepFreeList(s, g, s', g');
    forall i' | 0 <= i' < |s.prods| ensures ProducerOk(s', g', i') {
      PublishFirstProducer(s, g, i, e, s', g', i');
    }
    forall j' | 0 <= j' < |s.cons| ensures ConsumerOk(s', g', j') {
      PublishFirstConsumer(s, g, i, e, s', g', j');
    }
  }

  lemma PublishFirstRoles<T>(s: State<T>, g: View, i: nat, e: nat, s': State<T>, g': View)
    requires Sizes(s, g) && Roles(s, g) && IsPublishFirst(s, g, i, e, s', g')
    ensures Roles(s', g')
  {}

  lemma PublishFirstLinked<T>(s: State<T>, g: View, i: nat, e: nat, s': State<T>, g': View)
    requires Sizes(s, g) && Roles(s, g) && Linked(s, g) && Ends(s, g) && Sizes(s', g') && Roles(s', g')
    requires IsPublishFirst(s, g, i, e, s', g')
    ensures Linked(s', g')
  {
    forall k | g'.base <= k < |g'.chain| ensures LinkedAt(s', g', k) {
      assert LinkedAt(s, g, k);
    }
  }

  lemma PublishFirstValues<T>(s: State<T>, g: View, i: nat, e: nat, s': State<T>, g': View)
    requires Sizes(s, g) && Roles(s, g) && Values(s, g) && Ends(s, g) && Sizes(s', g') && Roles(s', g')
    requires IsPublishFirst(s, g, i, e, s', g')
    ensures Values(s', g')
  {}

  lemma PublishFirstEnds<T>(s: State<T>, g: View, i: nat, e: nat, s': State<T>, g': View)
    requires Sizes(s, g) && Roles(s, g) && Ends(s, g) && Sizes(s', g')
    requires IsPublishFirst(s, g, i, e, s', g')
    ensures Ends(s', g')
  {}

  lemma PublishFirstProducer<T>(s: State<T>, g: View, i: nat, e: nat, s': State<T>, g': View, i': nat)
    requires Sizes(s, g) && i' < |s.prods| && ProducerOk(s, g, i') && Ends(s, g)
    requires IsPublishFirst(s, g, i, e, s', g')
    ensures ProducerOk(s', g', i')
  {}

  lemma PublishFirstConsumer<T>(s: State<T>, g: View, i: nat, e: nat, s': State<T>, g': View, j': nat)
    requires Sizes(s, g) && j' < |s.cons| && ConsumerOk(s, g, j') && Ends(s, g)
    requires IsPublishFirst(s, g, i, e, s', g')
    ensures ConsumerOk(s', g', j')
  {}

  // A later push links its node behind the one it displaced.
  ghost predicate IsLink<T>(s: State<T>, g: View, i: nat, e: nat, p: nat, s': State<T>, g': View) {
    && Sizes(s, g) && Sizes(s', g')
    && i < |s.prods| && s.prods[i] == PLink(e, Some(p)) && p < |s.heap|
    && s' == s.(heap := s.heap[p := s.heap[p].(next := Some(e))], prods := s.prods[i := PIdle])
    && g' == g
    && ProducerOk(s, g, i)
  }

  lemma Link<T>(s: State<T>, g: View, i: nat, e: nat, p: nat, s': State<T>, g': View)
    requires Inv(s, g) && IsLink(s, g, i, e, p, s', g')
    ensures Inv(s', g')
  {
    LinkRoles(s, g, i, e, p, s', g');
    LinkLinked(s, g, i, e, p, s', g');
    LinkValues(s, g, i, e, p, s', g');
    LinkEnds(s, g, i, e, p, s', g');
    KeepFreeList(s, g, s', g');
    KeepAccounts(s, g, s', g');
    forall i' | 0 <= i' < |s.prods| ensures ProducerOk(s', g', i') {
      LinkProducer(s, g, i, e, p, s', g', i');
    }
    forall j' | 0 <= j' < |s.cons| ensures ConsumerOk(s', g', j') {
      LinkConsumer(s, g, i, e, p, s', g', j');
    }
  }

  lemma LinkRoles<T>(s: State<T>, g: View, i: nat, e: nat, p: nat, s': State<T>, g': View)
    requires Sizes(s, g) && Roles(s, g) && IsLink(s, g, i, e, p, s', g')
    ensures Roles(s', g')
  {}

  lemma LinkLinked<T>(s: State<T>, g: View, i: nat, e: nat, p: nat, s': State<T>, g': View)
    requires Sizes(s, g) && Roles(s, g) && Linked(s, g) && Ends(s, g) && Sizes(s', g') && Roles(s', g')
    requires IsLink(s, g, i, e, p, s', g')
    ensures Linked(s', g')
  {
    forall k | g'.base <= k < |g'.chain| ensures LinkedAt(s', g', k) {
      LinkLinkedAt(s, g, i, e, p, s', g', k);
    }
  }

  lemma LinkValues<T>(s: State<T>, g: View, i: nat, e: nat, p: nat, s': State<T>, g': View)
    requires Sizes(s, g) && Roles(s, g) && Values(s, g) && Ends(s, g) && Sizes(s', g') && Roles(s', g')
    requires IsLink(s, g, i, e, p, s', g')
    ensures Values(s', g')
  {}

  lemma LinkEnds<T>(s: State<T>, g: View, i: nat, e: nat, p: nat, s': State<T>, g': View)
    requires Sizes(s, g) && Roles(s, g) && Ends(s, g) && Sizes(s', g') && IsLink(s, g, i, e, p, s', g')
    ensures Ends(s', g')
  {}

  lemma LinkProducer<T>(s: State<T>, g: View, i: nat, e: nat, p: nat, s': State<T>, g': View, i': nat)
    requires Sizes(s, g) && i' < |s.prods| && ProducerOk(s, g, i') && Roles(s, g)
    requires IsLink(s, g, i, e, p, s', g')
    ensures ProducerOk(s', g', i')
  {
    if s.prods[i'].PLink? { LinkProducerLink(s, g, i, e, p, s', g', i'); }
  }

  lemma LinkProducerLink<T>(s: State<T>, g: View, i: nat, e: nat, p: nat, s': State<T>, g': View, i': nat)
    requires Sizes(s, g) && i' < |s.prods| && s.prods[i'].PLink? && ProducerOk(s, g, i') && Roles(s, g)
    requires IsLink(s, g, i, e, p, s', g')
    ensures ProducerOk(s', g', i')
  {}

  lemma LinkConsumer<T>(s: State<T>, g: View, i: nat, e: nat, p: nat, s': State<T>, g': View, j': nat)
    requires Sizes(s, g) && j' < |s.cons| && ConsumerOk(s, g, j') && Roles(s, g)
    requires IsLink(s, g, i, e, p, s', g')
    ensures ConsumerOk(s', g', j')
  {}

  lemma LinkLinkedAt<T>(s: State<T>, g: View, i: nat, e: nat, p: nat, s': State<T>, g': View, k: nat)
    requires Sizes(s, g) && Roles(s, g) && IsLink(s, g, i, e, p, s', g')
    requires g.base <= k < |g.chain| && LinkedAt(s, g, k)
    ensures LinkedAt(s', g', k)
  {
    assert g.chain[k] == p <==> k == g.role[p].k;
  }

  lemma ProducerStep<T>(s: State<T>, g: View, i: nat)
    requires Inv(s, g) && i < |s.prods|
    ensures Inv(StepProducer(s, i), TrackProducer(s, g, i))
  {
    assert ProducerOk(s, g, i);
    var s', g' := StepProducer(s, i), TrackProducer(s, g, i);
    ProducerShape(s, g, i, s', g');
    if QuietTurn(s, i) {
      QuietPush(s, g, i);
    } else {
      match s.prods[i]
      case PNext(v, None) => Allocate(s, g, i, v, s', g');
      case PCas(v, e, next) => Reuse(s, g, i, v, e, next, s', g');
      case PSwap(v, e) => Exchange(s, g, i, v, e, s', g');
      case PLink(e, None) => PublishFirst(s, g, i, e, s', g');
      case PLink(e, Some(p)) => Link(s, g, i, e, p, s', g');
    }
  }

  ghost predicate QuietTurn<T>(s: State<T>, i: nat)
    requires i < |s.prods|
  {
    match s.prods[i]
    case PNext(v, entry) => entry.Some?
    case PCas(v, e, next) => s.free != Some(e)
    case PSwap(v, e) => false
    case PLink(e, prev) => false
    case _ => true
  }

  lemma ProducerShape<T>(s: State<T>, g: View, i: nat, s': State<T>, g': View)
    requires Sizes(s, g) && Roles(s, g) && FreeList(s, g) && i < |s.prods| && ProducerOk(s, g, i)
    requires s' == StepProducer(s, i) && g' == TrackProducer(s, g, i)
    ensures if QuietTurn(s, i) then g' == g else
            match s.prods[i]
            case PNext(v, None) => IsAllocate(s, g, i, v, s', g')
            case PCas(v, e, next) => IsReuse(s, g, i, v, e, next, s', g')
            case PSwap(v, e) => IsExchange(s, g, i, v, e, s', g')
            case PLink(e, None) => IsPublishFirst(s, g, i, e, s', g')
            case PLink(e, Some(p)) => IsLink(s, g, i, e, p, s', g')
            case _ => false
  {
    match s.prods[i]
    case PSwap(_, _) => assert g'.taken == g.taken;
    case PLink(_, _) => PublishShape(s, g, i, s', g');
    case _ =>
  }

  lemma PublishShape<T>(s: State<T>, g: View, i: nat, s': State<T>, g': View)
    requires Sizes(s, g) && i < |s.prods| && ProducerOk(s, g, i) && s.prods[i].PLink?
    requires s' == StepProducer(s, i) && g' == TrackProducer(s, g, i)
    ensures match s.prods[i].prev
            case None => IsPublishFirst(s, g, i, s.prods[i].e, s', g')
            case Some(p) => IsLink(s, g, i, s.prods[i].e, p, s', g')
  {
  }

  lemma QuietPush<T>(s: State<T>, g: View, i: nat)
    requires Inv(s, g) && i < |s.prods| && QuietTurn(s, i)
    ensures Inv(StepProducer(s, i), g)
  {
    assert ProducerOk(s, g, i);
    QuietPushOwn(s, g, i, StepProducer(s, i));
    KeepQuietProducer(s, g, i, StepProducer(s, i));
  }

  lemma QuietPushOwn<T>(s: State<T>, g: View, i: nat, s': State<T>)
    requires Sizes(s, g) && Roles(s, g) && FreeList(s, g) && i < |s.prods| && ProducerOk(s, g, i)
    requires QuietTurn(s, i)
    requires s' == StepProducer(s, i)
    ensures Sizes(s', g) && QuietProducer(s, g, i, s') && ProducerOk(s', g, i)
  {
  }

  // ---- pop ----

  // tail_ is null: `pop` returns nothing.
  ghost predicate IsEmptyReturn<T>(s: State<T>, g: View, j: nat, s': State<T>, g': View) {
    && Sizes(s, g) && Sizes(s', g')
    && j < |s.cons| && s.cons[j] == CTail && s.tail == None
    && s' == s.(cons := s.cons[j := CIdle], results := s.results + [None])
    && g' == g.(src := g.src + [None])
    && ConsumerOk(s, g, j)
  }

  lemma EmptyReturn<T>(s: State<T>, g: View, j: nat, s': State<T>, g': View)
    requires Inv(s, g) && IsEmptyReturn(s, g, j, s', g')
    ensures Inv(s', g')
  {
    EmptyReturnRoles(s, g, j, s', g');
    KeepLinked(s, g, s', g');
    EmptyReturnValues(s, g, j, s', g');
    EmptyReturnEnds(s, g, j, s', g');
    KeepFreeList(s, g, s', g');
    EmptyReturnAccounts(s, g, j, s', g');
    forall i' | 0 <= i' < |s.prods| ensures ProducerOk(s', g', i') {
      EmptyReturnProducer(s, g, j, s', g', i');
    }
    forall j' | 0 <= j' < |s.cons| ensures ConsumerOk(s', g', j') {
      EmptyReturnConsumer(s, g, j, s', g', j');
    }
  }

  lemma EmptyReturnRoles<T>(s: State<T>, g: View, j: nat, s': State<T>, g': View)
    requires Sizes(s, g) && Roles(s, g) && IsEmptyReturn(s, g, j, s', g')
    ensures Roles(s', g')
  {}

  lemma EmptyReturnValues<T>(s: State<T>, g: View, j: nat, s': State<T>, g': View)
    requires Sizes(s, g) && Roles(s, g) && Values(s, g) && Ends(s, g) && Sizes(s', g') && Roles(s', g')
    requires IsEmptyReturn(s, g, j, s', g')
    ensures Values(s', g')
  {}

  lemma EmptyReturnEnds<T>(s: State<T>, g: View, j: nat, s': State<T>, g': View)
    requires Sizes(s, g) && Roles(s, g) && Ends(s, g) && Sizes(s', g') && IsEmptyReturn(s, g, j, s', g')
    ensures Ends(s', g')
  {}

  lemma EmptyReturnAccounts<T>(s: State<T>, g: View, j: nat, s': State<T>, g': View)
    requires Sizes(s, g) && Accounts(s, g) && IsEmptyReturn(s, g, j, s', g')
    ensures Accounts(s', g')
  {}

  lemma EmptyReturnProducer<T>(s: State<T>, g: View, j: nat, s': State<T>, g': View, i': nat)
    requires Sizes(s, g) && i' < |s.prods| && ProducerOk(s, g, i') && IsEmptyReturn(s, g, j, s', g')
    ensures ProducerOk(s', g', i')
  {}

  lemma EmptyReturnConsumer<T>(s: State<T>, g: View, j: nat, s': State<T>, g': View, j': nat)
    requires Sizes(s, g) && j' < |s.cons| && ConsumerOk(s, g, j') && Accounts(s, g)
    requires IsEmptyReturn(s, g, j, s', g')
    ensures ConsumerOk(s', g', j')
  {}

  // The front node has no known successor: tail_ becomes null until this consumer puts it back.
  ghost predicate IsOpenWindow<T>(s: State<T>, g: View, j: nat, t: nat, s': State<T>, g': View) {
    && Sizes(s, g) && Sizes(s', g')
    && j < |s.cons| && s.cons[j] == CCas(t, None) && s.tail == Some(t)
    && s' == s.(tail := None, cons := s.cons[j := CTake(t, None)])
    && g' == ClaimFront(g, j).(win := Some(j))
    && ConsumerOk(s, g, j)
  }

  lemma OpenWindow<T>(s: State<T>, g: View, j: nat, t: nat, s': State<T>, g': View)
    requires Inv(s, g) && IsOpenWindow(s, g, j, t, s', g')
    ensures Inv(s', g')
  {
    OpenWindowRoles(s, g, j, t, s', g');
    KeepLinked(s, g, s', g');
    OpenWindowValues(s, g, j, t, s', g');
    OpenWindowEnds(s, g, j, t, s', g');
    KeepFreeList(s, g, s', g');
    OpenWindowAccounts(s, g, j, t, s', g');
    forall i' | 0 <= i' < |s.prods| ensures ProducerOk(s', g', i') {
      OpenWindowProducer(s, g, j, t, s', g', i');
    }
    forall j' | 0 <= j' < |s.cons| ensures ConsumerOk(s', g', j') {
      OpenWindowConsumer(s, g, j, t, s', g', j');
    }
  }

  lemma OpenWindowRoles<T>(s: State<T>, g: View, j: nat, t: nat, s': State<T>, g': View)
    requires Sizes(s, g) && Roles(s, g) && IsOpenWindow(s, g, j, t, s', g')
    ensures Roles(s', g')
  {}

  lemma OpenWindowValues<T>(s: State<T>, g: View, j: nat, t: nat, s': State<T>, g': View)
    requires Sizes(s, g) && Roles(s, g) && Values(s, g) && Ends(s, g) && Sizes(s', g') && Roles(s', g')
    requires IsOpenWindow(s, g, j, t, s', g')
    ensures Values(s', g')
  {}

  lemma OpenWindowEnds<T>(s: State<T>, g: View, j: nat, t: nat, s': State<T>, g': View)
    requires Sizes(s, g) && Roles(s, g) && Ends(s, g) && Sizes(s', g') && IsOpenWindow(s, g, j, t, s', g')
    ensures Ends(s', g')
  {}

  lemma OpenWindowAccounts<T>(s: State<T>, g: View, j: nat, t: nat, s': State<T>, g': View)
    requires Sizes(s, g) && Accounts(s, g) && IsOpenWindow(s, g, j, t, s', g')
    ensures Accounts(s', g')
  {}

  lemma OpenWindowProducer<T>(s: State<T>, g: View, j: nat, t: nat, s': State<T>, g': View, i': nat)
    requires Sizes(s, g) && i' < |s.prods| && ProducerOk(s, g, i') && Ends(s, g)
    requires IsOpenWindow(s, g, j, t, s', g')
    ensures ProducerOk(s', g', i')
  {}

  lemma OpenWindowConsumer<T>(s: State<T>, g: View, j: nat, t: nat, s': State<T>, g': View, j': nat)
    requires Sizes(s, g) && j' < |s.cons| && ConsumerOk(s, g, j')
    requires Roles(s, g) && Values(s, g) && Ends(s, g)
    requires IsOpenWindow(s, g, j, t, s', g')
    ensures ConsumerOk(s', g', j')
  {
    if j' != j {
      OpenWindowOther(s, g, j, t, s', g', j');
    } else {
      assert t == g.chain[g.base];
    }
  }

  lemma OpenWindowOther<T>(s: State<T>, g: View, j: nat, t: nat, s': State<T>, g': View, j': nat)
    requires Sizes(s, g) && j' < |s.cons| && j' != j && ConsumerOk(s, g, j') && Ends(s, g)
    requires IsOpenWindow(s, g, j, t, s', g')
    ensures ConsumerOk(s', g', j')
  {
    assert s'.cons[j'] == s.cons[j'] && g'.claim[j'] == g.claim[j'];
  }

  // The front node has a successor: tail_ moves on, and the node is this consumer's to retire.
  ghost predicate IsAdvance<T>(s: State<T>, g: View, j: nat, t: nat, m: nat, s': State<T>, g': View) {
    && Sizes(s, g) && Sizes(s', g')
    && j < |s.cons| && s.cons[j] == CCas(t, Some(m)) && s.tail == Some(t)
    && s' == s.(tail := Some(m), cons := s.cons[j := CTake(t, Some(m))])
    && g' == ClaimFront(g, j).(base := g.base + 1, role := Give(g, t, Retiring(j)))
    && ConsumerOk(s, g, j)
  }

  lemma Advance<T>(s: State<T>, g: View, j: nat, t: nat, m: nat, s': State<T>, g': View)
    requires Inv(s, g) && IsAdvance(s, g, j, t, m, s', g')
    ensures Inv(s', g')
  {
    AdvanceRoles(s, g, j, t, m, s', g');
    KeepLinked(s, g, s', g');
    AdvanceValues(s, g, j, t, m, s', g');
    AdvanceEnds(s, g, j, t, m, s', g');
    KeepFreeList(s, g, s', g');
    AdvanceAccounts(s, g, j, t, m, s', g');
    forall i' | 0 <= i' < |s.prods| ensures ProducerOk(s', g', i') {
      AdvanceProducer(s, g, j, t, m, s', g', i');
    }
    forall j' | 0 <= j' < |s.cons| ensures ConsumerOk(s', g', j') {
      AdvanceConsumer(s, g, j, t, m, s', g', j');
    }
  }

  lemma AdvanceRoles<T>(s: State<T>, g: View, j: nat, t: nat, m: nat, s': State<T>, g': View)
    requires Sizes(s, g) && Roles(s, g) && Ends(s, g) && IsAdvance(s, g, j, t, m, s', g')
    ensures Roles(s', g')
  {
    assert t == g.chain[g.base] && g.role[t] == Live(g.base);
    AdvanceRole(s, g, j, t, m, s', g');
  }

  lemma AdvanceRole<T>(s: State<T>, g: View, j: nat, t: nat, m: nat, s': State<T>, g': View)
    requires Sizes(s, g) && Roles(s, g) && IsAdvance(s, g, j, t, m, s', g')
    requires t == g.chain[g.base] && t < |g.role| && g.role[t] == Live(g.base)
    ensures Roles(s', g')
  {
    assert g'.role == g.role[t := Retiring(j)] && g'.stack == g.stack && g'.chain == g.chain;
  }

  lemma AdvanceValues<T>(s: State<T>, g: View, j: nat, t: nat, m: nat, s': State<T>, g': View)
    requires Sizes(s, g) && Roles(s, g) && Values(s, g) && Ends(s, g) && Sizes(s', g') && Roles(s', g')
    requires IsAdvance(s, g, j, t, m, s', g')
    ensures Values(s', g')
  {}

  lemma AdvanceEnds<T>(s: State<T>, g: View, j: nat, t: nat, m: nat, s': State<T>, g': View)
    requires Sizes(s, g) && Roles(s, g) && Ends(s, g) && Sizes(s', g') && IsAdvance(s, g, j, t, m, s', g')
    ensures Ends(s', g')
  {}

  lemma AdvanceAccounts<T>(s: State<T>, g: View, j: nat, t: nat, m: nat, s': State<T>, g': View)
    requires Sizes(s, g) && Accounts(s, g) && IsAdvance(s, g, j, t, m, s', g')
    ensures Accounts(s', g')
  {}

  lemma AdvanceProducer<T>(s: State<T>, g: View, j: nat, t: nat, m: nat, s': State<T>, g': View, i': nat)
    requires Sizes(s, g) && i' < |s.prods| && ProducerOk(s, g, i') && Roles(s, g) && Ends(s, g)
    requires IsAdvance(s, g, j, t, m, s', g')
    ensures ProducerOk(s', g', i')
  {
    if s.prods[i'].PLink? { AdvanceProducerLink(s, g, j, t, m, s', g', i'); }
  }

  lemma AdvanceProducerLink<T>(s: State<T>, g: View, j: nat, t: nat, m: nat, s': State<T>, g': View, i': nat)
    requires Sizes(s, g) && i' < |s.prods| && s.prods[i'].PLink? && ProducerOk(s, g, i') && Roles(s, g) && Ends(s, g)
    requires IsAdvance(s, g, j, t, m, s', g')
    ensures ProducerOk(s', g', i')
  {}

  lemma AdvanceConsumer<T>(s: State<T>, g: View, j: nat, t: nat, m: nat, s': State<T>, g': View, j': nat)
    requires Sizes(s, g) && j' < |s.cons| && ConsumerOk(s, g, j') && Roles(s, g) && Values(s, g) && Ends(s, g)
    requires IsAdvance(s, g, j, t, m, s', g')
    ensures ConsumerOk(s', g', j')
  {
    assert t == g.chain[g.base];
    if j' != j {
      assert s'.cons[j'] == s.cons[j'] && g'.claim[j'] == g.claim[j'];
    }
  }

  // The node without a successor goes back to the front, spent.
  ghost predicate IsCloseWindow<T>(s: State<T>, g: View, j: nat, t: nat, ret: Option<T>, s': State<T>, g': View) {
    && Sizes(s, g) && Sizes(s', g')
    && j < |s.cons| && s.cons[j] == CDone(t, None, ret)
    && s' == s.(tail := Some(t), cons := s.cons[j := CIdle], results := s.results + [ret])
    && g' == Finish(g, j).(win := None)
    && ConsumerOk(s, g, j)
  }

  lemma CloseWindow<T>(s: State<T>, g: View, j: nat, t: nat, ret: Option<T>, s': State<T>, g': View)
    requires Inv(s, g) && IsCloseWindow(s, g, j, t, ret, s', g')
    ensures Inv(s', g')
  {
    CloseWindowRoles(s, g, j, t, ret, s', g');
    KeepLinked(s, g, s', g');
    CloseWindowValues(s, g, j, t, ret, s', g');
    CloseWindowEnds(s, g, j, t, ret, s', g');
    KeepFreeList(s, g, s', g');
    CloseWindowAccounts(s, g, j, t, ret, s', g');
    forall i' | 0 <= i' < |s.prods| ensures ProducerOk(s', g', i') {
      CloseWindowProducer(s, g, j, t, ret, s', g', i');
    }
    forall j' | 0 <= j' < |s.cons| ensures ConsumerOk(s', g', j') {
      CloseWindowConsumer(s, g, j, t, ret, s', g', j');
    }
  }

  lemma CloseWindowRoles<T>(s: State<T>, g: View, j: nat, t: nat, ret: Option<T>, s': State<T>, g': View)
    requires Sizes(s, g) && Roles(s, g) && IsCloseWindow(s, g, j, t, ret, s', g')
    ensures Roles(s', g')
  {}

  lemma CloseWindowValues<T>(s: State<T>, g: View, j: nat, t: nat, ret: Option<T>, s': State<T>, g': View)
    requires Sizes(s, g) && Roles(s, g) && Values(s, g) && Ends(s, g) && Sizes(s', g') && Roles(s', g')
    requires IsCloseWindow(s, g, j, t, ret, s', g')
    ensures Values(s', g')
  {}

  lemma CloseWindowEnds<T>(s: State<T>, g: View, j: nat, t: nat, ret: Option<T>, s': State<T>, g': View)
    requires Sizes(s, g) && Roles(s, g) && Ends(s, g) && Sizes(s', g')
    requires IsCloseWindow(s, g, j, t, ret, s', g')
    ensures Ends(s', g')
  {}

  lemma CloseWindowAccounts<T>(s: State<T>, g: View, j: nat, t: nat, ret: Option<T>, s': State<T>, g': View)
    requires Sizes(s, g) && Accounts(s, g) && IsCloseWindow(s, g, j, t, ret, s', g')
    ensures Accounts(s', g')
  {}

  lemma CloseWindowProducer<T>(s: State<T>, g: View, j: nat, t: nat, ret: Option<T>, s': State<T>, g': View, i': nat)
    requires Sizes(s, g) && i' < |s.prods| && ProducerOk(s, g, i') && Ends(s, g)
    requires IsCloseWindow(s, g, j, t, ret, s', g')
    ensures ProducerOk(s', g', i')
  {}

  lemma CloseWindowConsumer<T>(s: State<T>, g: View, j: nat, t: nat, ret: Option<T>, s': State<T>, g': View, j': nat)
    requires Sizes(s, g) && j' < |s.cons| && ConsumerOk(s, g, j') && Ends(s, g) && Accounts(s, g)
    requires IsCloseWindow(s, g, j, t, ret, s', g')
    ensures ConsumerOk(s', g', j')
  {
    if j' != j {
      assert s'.cons[j'] == s.cons[j'] && g'.claim[j'] == g.claim[j'];
    }
  }

  // `del_entry` puts the node on top of the free list.
  ghost predicate IsRecycle<T>(s: State<T>, g: View, j: nat, t: nat, f: Ptr, ret: Option<T>, s': State<T>, g': View) {
    && Sizes(s, g) && Sizes(s', g')
    && j < |s.cons| && s.cons[j] == CPush(t, f, ret) && s.free == f
    && s' == s.(free := Some(t), cons := s.cons[j := CIdle], results := s.results + [ret])
    && g' == Finish(g, j).(stack := g.stack + [t], role := Give(g, t, Spare(|g.stack|)))
    && ConsumerOk(s, g, j)
  }

  lemma Recycle<T>(s: State<T>, g: View, j: nat, t: nat, f: Ptr, ret: Option<T>, s': State<T>, g': View)
    requires Inv(s, g) && IsRecycle(s, g, j, t, f, ret, s', g')
    ensures Inv(s', g')
  {
    RecycleRoles(s, g, j, t, f, ret, s', g');
    KeepLinked(s, g, s', g');
    RecycleValues(s, g, j, t, f, ret, s', g');
    RecycleEnds(s, g, j, t, f, ret, s', g');
    RecycleFreeList(s, g, j, t, f, ret, s', g');
    RecycleAccounts(s, g, j, t, f, ret, s', g');
    forall i' | 0 <= i' < |s.prods| ensures ProducerOk(s', g', i') {
      RecycleProducer(s, g, j, t, f, ret, s', g', i');
    }
    forall j' | 0 <= j' < |s.cons| ensures ConsumerOk(s', g', j') {
      RecycleConsumer(s, g, j, t, f, ret, s', g', j');
    }
  }

  lemma RecycleRoles<T>(s: State<T>, g: View, j: nat, t: nat, f: Ptr, ret: Option<T>, s': State<T>, g': View)
    requires Sizes(s, g) && Roles(s, g) && IsRecycle(s, g, j, t, f, ret, s', g')
    ensures Roles(s', g')
  {}

  lemma RecycleValues<T>(s: State<T>, g: View, j: nat, t: nat, f: Ptr, ret: Option<T>, s': State<T>, g': View)
    requires Sizes(s, g) && Roles(s, g) && Values(s, g) && Ends(s, g) && Sizes(s', g') && Roles(s', g')
    requires IsRecycle(s, g, j, t, f, ret, s', g')
    ensures Values(s', g')
  {}

  lemma RecycleEnds<T>(s: State<T>, g: View, j: nat, t: nat, f: Ptr, ret: Option<T>, s': State<T>, g': View)
    requires Sizes(s, g) && Roles(s, g) && Ends(s, g) && Sizes(s', g')
    requires IsRecycle(s, g, j, t, f, ret, s', g')
    ensures Ends(s', g')
  {}

  lemma RecycleFreeList<T>(s: State<T>, g: View, j: nat, t: nat, f: Ptr, ret: Option<T>, s': State<T>, g': View)
    requires Sizes(s, g) && Roles(s, g) && FreeList(s, g) && Sizes(s', g') && Roles(s', g')
    requires IsRecycle(s, g, j, t, f, ret, s', g')
    ensures FreeList(s', g')
  {
    forall k | 0 <= k < |g'.stack| ensures StackedAt(s', g', k) {
      if k < |g.stack| { assert StackedAt(s, g, k); }
    }
  }

  lemma RecycleAccounts<T>(s: State<T>, g: View, j: nat, t: nat, f: Ptr, ret: Option<T>, s': State<T>, g': View)
    requires Sizes(s, g) && Accounts(s, g) && IsRecycle(s, g, j, t, f, ret, s', g')
    ensures Accounts(s', g')
  {}

  lemma RecycleProducer<T>(s: State<T>, g: View, j: nat, t: nat, f: Ptr, ret: Option<T>,
                           s': State<T>, g': View, i': nat)
    requires Sizes(s, g) && i' < |s.prods| && ProducerOk(s, g, i') && Roles(s, g)
    requires IsRecycle(s, g, j, t, f, ret, s', g')
    ensures ProducerOk(s', g', i')
  {
    if s.prods[i'].PLink? { RecycleProducerLink(s, g, j, t, f, ret, s', g', i'); }
  }

  lemma RecycleProducerLink<T>(s: State<T>, g: View, j: nat, t: nat, f: Ptr, ret: Option<T>,
                           s': State<T>, g': View, i': nat)
    requires Sizes(s, g) && i' < |s.prods| && s.prods[i'].PLink? && ProducerOk(s, g, i') && Roles(s, g)
    requires IsRecycle(s, g, j, t, f, ret, s', g')
    ensures ProducerOk(s', g', i')
  {}

  lemma RecycleConsumer<T>(s: State<T>, g: View, j: nat, t: nat, f: Ptr, ret: Option<T>,
                           s': State<T>, g': View, j': nat)
    requires Sizes(s, g) && j' < |s.cons| && ConsumerOk(s, g, j') && Roles(s, g) && Accounts(s, g)
    requires IsRecycle(s, g, j, t, f, ret, s', g')
    ensures ConsumerOk(s', g', j')
  {
    if j' != j {
      assert s'.cons[j'] == s.cons[j'] && g'.claim[j'] == g.claim[j'];
    }
  }

  lemma ConsumerStep<T>(s: State<T>, g: View, j: nat)
    requires Inv(s, g) && j < |s.cons|
    ensures Inv(StepConsumer(s, j), TrackConsumer(s, g, j))
  {
    assert ConsumerOk(s, g, j);
    var s', g' := StepConsumer(s, j), TrackConsumer(s, g, j);
    ConsumerShape(s, g, j, s', g');
    if Quiet(s, j) {
      QuietPop(s, g, j);
    } else {
      match s.cons[j]
      case CTail => EmptyReturn(s, g, j, s', g');
      case CCas(t, None) => OpenWindow(s, g, j, t, s', g');
      case CCas(t, Some(m)) => Advance(s, g, j, t, m, s', g');
      case CDone(t, None, ret) => CloseWindow(s, g, j, t, ret, s', g');
      case CPush(t, f, ret) => Recycle(s, g, j, t, f, ret, s', g');
    }
  }

  lemma ConsumerShape<T>(s: State<T>, g: View, j: nat, s': State<T>, g': View)
    requires Sizes(s, g) && Ends(s, g) && j < |s.cons| && ConsumerOk(s, g, j)
    requires s' == StepConsumer(s, j) && g' == TrackConsumer(s, g, j)
    ensures if Quiet(s, j) then g' == g else
            match s.cons[j]
            case CTail => IsEmptyReturn(s, g, j, s', g')
            case CCas(t, None) => IsOpenWindow(s, g, j, t, s', g')
            case CCas(t, Some(m)) => IsAdvance(s, g, j, t, m, s', g')
            case CDone(t, None, ret) => IsCloseWindow(s, g, j, t, ret, s', g')
            case CPush(t, f, ret) => IsRecycle(s, g, j, t, f, ret, s', g')
            case _ => false
  {
  }

  lemma QuietPop<T>(s: State<T>, g: View, j: nat)
    requires Inv(s, g) && j < |s.cons| && Quiet(s, j)
    ensures Inv(StepConsumer(s, j), g)
  {
    assert ConsumerOk(s, g, j);
    QuietPopOwn(s, g, j, StepConsumer(s, j));
    KeepQuietConsumer(s, g, j, StepConsumer(s, j));
  }

  ghost predicate Quiet<T>(s: State<T>, j: nat)
    requires j < |s.cons|
  {
    match s.cons[j]
    case CTail => s.tail.Some?
    case CCas(t, next) => s.tail != Some(t)
    case CDone(t, next, ret) => next.Some?
    case CPush(t, f, ret) => s.free != f
    case _ => true
  }

  lemma QuietPopOwn<T>(s: State<T>, g: View, j: nat, s': State<T>)
    requires Sizes(s, g) && Chains(s, g) && j < |s.cons| && ConsumerOk(s, g, j)
    requires Quiet(s, j) && s' == StepConsumer(s, j)
    ensures Sizes(s', g) && QuietConsumer(s, g, j, s') && ConsumerOk(s', g, j)
  {
    match s.cons[j]
    case CIdle | CTail | CNext(_) | CCas(_, _) =>
      if g.published { assert LinkedAt(s, g, g.base); }
      QuietSearch(s, g, j, s');
    case CTake(_, _) | CMove(_, _) => QuietTakes(s, g, j, s');
    case _ => QuietRetire(s, g, j, s');
  }

  lemma QuietTakes<T>(s: State<T>, g: View, j: nat, s': State<T>)
    requires Sizes(s, g) && Roles(s, g) && Ends(s, g) && j < |s.cons| && ConsumerOk(s, g, j)
    requires (s.cons[j].CTake? || s.cons[j].CMove?) && s' == StepConsumer(s, j)
    ensures Sizes(s', g) && QuietConsumer(s, g, j, s') && ConsumerOk(s', g, j)
  {}

  lemma QuietRetire<T>(s: State<T>, g: View, j: nat, s': State<T>)
    requires Sizes(s, g) && Roles(s, g) && j < |s.cons| && ConsumerOk(s, g, j)
    requires s.cons[j].CDone? || s.cons[j].CStore? || s.cons[j].CPush?
    requires Quiet(s, j) && s' == StepConsumer(s, j)
    ensures Sizes(s', g) && QuietConsumer(s, g, j, s') && ConsumerOk(s', g, j)
  {}

  lemma QuietSearch<T>(s: State<T>, g: View, j: nat, s': State<T>)
    requires Sizes(s, g) && Roles(s, g) && Ends(s, g) && j < |s.cons| && ConsumerOk(s, g, j)
    requires s.cons[j].CIdle? || s.cons[j].CTail? || s.cons[j].CNext? || s.cons[j].CCas?
    requires g.published ==> LinkedAt(s, g, g.base)
    requires Quiet(s, j) && s' == StepConsumer(s, j)
    ensures Sizes(s', g) && QuietConsumer(s, g, j, s') && ConsumerOk(s', g, j)
  {
  }
}
