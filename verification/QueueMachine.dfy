/** `lfqueue<T>` under every interleaving of its atomic operations.

    Each atomic load, store, exchange or compare-exchange is one step, and so is each access to a
    node's value; memory is sequentially consistent.  Any number of producers run `push` and any
    number of consumers run `pop`.  `recycle` says whether `new_entry` may reuse the nodes of
    free_; without it every node is a new one. */
module QueueMachine {
  import opened Options

  type Ptr = Option<nat>

  datatype Node<T> = Node(next: Ptr, hasValue: bool, data: Option<T>)

  // Where a producer is inside `push(v)`, named by the step it takes next.
  datatype Producer<T> =
    | PIdle
    | PFree(v: T)                       // load free_
    | PNext(v: T, entry: Ptr)           // allocate, or load entry->next
    | PCas(v: T, e: nat, next: Ptr)     // free_: e -> next
    | PClear(v: T, e: nat)              // e->next = null
    | PCheck(v: T, e: nat)              // load has_value, destroy an old value
    | PWrite(v: T, e: nat)              // construct the value
    | PFlag(v: T, e: nat)               // has_value = true
    | PSwap(v: T, e: nat)               // exchange head_
    | PLink(e: nat, prev: Ptr)          // store tail_ or prev->next

  // Where a consumer is inside `pop()`.
  datatype Consumer<T> =
    | CIdle
    | CTail                                      // load tail_
    | CNext(t: nat)                              // load t->next
    | CCas(t: nat, next: Ptr)                    // tail_: t -> next
    | CTake(t: nat, next: Ptr)                   // exchange has_value
    | CMove(t: nat, next: Ptr)                   // move the value out
    | CDone(t: nat, next: Ptr, ret: Option<T>)   // restore tail_, or load free_
    | CStore(t: nat, f: Ptr, ret: Option<T>)     // t->next = f
    | CPush(t: nat, f: Ptr, ret: Option<T>)      // free_: f -> t

  // The last three fields record what happened and steer nothing: the values in the order `push`
  // was called, the values in the order of the head_ exchanges, and the results of `pop`.
  datatype State<T> = State(
    recycle: bool,
    heap: seq<Node<T>>, head: Ptr, tail: Ptr, free: Ptr,
    prods: seq<Producer<T>>, cons: seq<Consumer<T>>,
    submitted: seq<T>, order: seq<T>, results: seq<Option<T>>)

  datatype Act<T> = Push(i: nat, v: T) | Prod(i: nat) | Pop(j: nat) | Cons(j: nat)

  function At<T>(h: seq<Node<T>>, n: nat): Node<T> {
    if n < |h| then h[n] else Node(None, false, None)
  }

  function Put<T>(h: seq<Node<T>>, n: nat, x: Node<T>): seq<Node<T>> {
    if n < |h| then h[n := x] else h
  }

  function StepProducer<T>(s: State<T>, i: nat): State<T>
    requires i < |s.prods|
  {
    match s.prods[i]
    case PIdle => s
    case PFree(v) => s.(prods := s.prods[i := PNext(v, if s.recycle then s.free else None)])
    case PNext(v, None) =>
      s.(heap := s.heap + [Node(None, false, None)], prods := s.prods[i := PCheck(v, |s.heap|)])
    case PNext(v, Some(e)) => s.(prods := s.prods[i := PCas(v, e, At(s.heap, e).next)])
    case PCas(v, e, next) =>
      if s.free == Some(e) then s.(free := next, prods := s.prods[i := PClear(v, e)])
      else s.(prods := s.prods[i := PNext(v, s.free)])
    case PClear(v, e) =>
      s.(heap := Put(s.heap, e, At(s.heap, e).(next := None)), prods := s.prods[i := PCheck(v, e)])
    case PCheck(v, e) =>
      var was := At(s.heap, e);
      s.(heap := Put(s.heap, e, was.(data := if was.hasValue then None else was.data)),
         prods := s.prods[i := PWrite(v, e)])
    case PWrite(v, e) =>
      s.(heap := Put(s.heap, e, At(s.heap, e).(data := Some(v))), prods := s.prods[i := PFlag(v, e)])
    case PFlag(v, e) =>
      s.(heap := Put(s.heap, e, At(s.heap, e).(hasValue := true)), prods := s.prods[i := PSwap(v, e)])
    case PSwap(v, e) =>
      s.(head := Some(e), prods := s.prods[i := PLink(e, s.head)], order := s.order + [v])
    case PLink(e, None) => s.(tail := Some(e), prods := s.prods[i := PIdle])
    case PLink(e, Some(p)) =>
      s.(heap := Put(s.heap, p, At(s.heap, p).(next := Some(e))), prods := s.prods[i := PIdle])
  }

  function StepConsumer<T>(s: State<T>, j: nat): State<T>
    requires j < |s.cons|
  {
    match s.cons[j]
    case CIdle => s
    case CTail =>
      if s.tail.None? then s.(cons := s.cons[j := CIdle], results := s.results + [None])
      else s.(cons := s.cons[j := CNext(s.tail.value)])
    case CNext(t) => s.(cons := s.cons[j := CCas(t, At(s.heap, t).next)])
    case CCas(t, next) =>
      if s.tail == Some(t) then s.(tail := next, cons := s.cons[j := CTake(t, next)])
      else s.(cons := s.cons[j := CTail])
    case CTake(t, next) =>
      s.(heap := Put(s.heap, t, At(s.heap, t).(hasValue := false)),
         cons := s.cons[j := if At(s.heap, t).hasValue then CMove(t, next) else CDone(t, next, None)])
    case CMove(t, next) =>
      s.(heap := Put(s.heap, t, At(s.heap, t).(data := None)),
         cons := s.cons[j := CDone(t, next, At(s.heap, t).data)])
    case CDone(t, None, ret) =>
      s.(tail := Some(t), cons := s.cons[j := CIdle], results := s.results + [ret])
    case CDone(t, Some(_), ret) => s.(cons := s.cons[j := CStore(t, s.free, ret)])
    case CStore(t, f, ret) =>
      s.(heap := Put(s.heap, t, At(s.heap, t).(next := f)), cons := s.cons[j := CPush(t, f, ret)])
    case CPush(t, f, ret) =>
      if s.free == f then s.(free := Some(t), cons := s.cons[j := CIdle], results := s.results + [ret])
      else s.(cons := s.cons[j := CStore(t, s.free, ret)])
  }

  // One scheduling choice.  A choice that names no task, or calls into a busy one, does nothing.
  function Step<T>(s: State<T>, a: Act<T>): State<T> {
    match a
    case Push(i, v) =>
      if i < |s.prods| && s.prods[i].PIdle?
      then s.(prods := s.prods[i := PFree(v)], submitted := s.submitted + [v]) else s
    case Prod(i) => if i < |s.prods| then StepProducer(s, i) else s
    case Pop(j) =>
      if j < |s.cons| && s.cons[j].CIdle? then s.(cons := s.cons[j := CTail]) else s
    case Cons(j) => if j < |s.cons| then StepConsumer(s, j) else s
  }

  function Run<T>(s: State<T>, acts: seq<Act<T>>): State<T>
    decreases |acts|
  {
    if acts == [] then s else Step(Run(s, acts[..|acts| - 1]), acts[|acts| - 1])
  }

  // A queue with `capacity` nodes in its free list and all tasks idle.
  function Start<T>(recycle: bool, capacity: nat, prods: nat, cons: nat): State<T> {
    State(recycle,
          seq(capacity, k requires 0 <= k => Node(if k > 0 then Some(k - 1) else None, false, None)),
          None, None, if capacity > 0 then Some(capacity - 1) else None,
          seq(prods, _ => PIdle), seq(cons, _ => CIdle), [], [], [])
  }

  ghost predicate AllIdle<T>(s: State<T>) {
    && (forall i :: 0 <= i < |s.prods| ==> s.prods[i].PIdle?)
    && (forall j :: 0 <= j < |s.cons| ==> s.cons[j].CIdle?)
  }

  // `nodes` are what following `next` from `first` visits, up to the end.
  ghost predicate Path<T>(heap: seq<Node<T>>, first: Ptr, nodes: seq<nat>) {
    && (forall k :: 0 <= k < |nodes| ==> nodes[k] < |heap|)
    && first == (if nodes == [] then None else Some(nodes[0]))
    && (forall k :: 0 <= k < |nodes| ==> NextIs(heap, nodes, k))
  }

  ghost predicate NextIs<T>(heap: seq<Node<T>>, nodes: seq<nat>, k: nat)
    requires k < |nodes| && nodes[k] < |heap|
  {
    heap[nodes[k]].next == if k + 1 < |nodes| then Some(nodes[k + 1]) else None
  }
}
