/** What `lfqueue` is when one caller uses it at a time.

    It is not a plain FIFO: after the last value is taken its node stays at the front, without a
    value, and the next `pop` that finds a successor consumes that node and returns nothing.  The
    abstract state is therefore (is the front node spent?, queued values), plus the number of
    recycled nodes, which decides when `push` allocates. */
module QueueSpec {
  import opened Options

  datatype QState<T> = QState(spent: bool, vals: seq<T>, spare: nat) {
    // Nodes in the chain from tail_ to head_, the spent one included.
    function Live(): nat { (if spent then 1 else 0) + |vals| }

    // Every node the queue has allocated: none is freed before the destructor.
    function Made(): nat { Live() + spare }
  }

  function Push<T>(q: QState<T>, v: T): QState<T> {
    QState(q.spent, q.vals + [v], if q.spare > 0 then q.spare - 1 else 0)
  }

  function Pop<T>(q: QState<T>): (QState<T>, Option<T>) {
    if q.vals == [] then (q, None)
    else if q.spent then (QState(false, q.vals, q.spare + 1), None)
    else if |q.vals| == 1 then (QState(true, [], q.spare), Some(q.vals[0]))
    else (QState(false, q.vals[1..], q.spare + 1), Some(q.vals[0]))
  }

  // A queue constructed with room for `capacity` nodes.
  function Fresh<T>(capacity: nat): QState<T> { QState(false, [], capacity) }

  datatype Op<T> = PushOp(v: T) | PopOp

  // One operation, and what it returned if it was a `pop`.
  function Do<T>(q: QState<T>, op: Op<T>): (QState<T>, seq<Option<T>>) {
    match op
    case PushOp(v) => (Push(q, v), [])
    case PopOp => (Pop(q).0, [Pop(q).1])
  }

  // The state after a sequence of operations, and what each `pop` returned.
  function Run<T>(q: QState<T>, ops: seq<Op<T>>): (QState<T>, seq<Option<T>>)
    decreases |ops|
  {
    if ops == [] then (q, [])
    else
      var (q1, r) := Do(q, ops[0]);
      var (q2, rs) := Run(q1, ops[1..]);
      (q2, r + rs)
  }

  function Pushed<T>(ops: seq<Op<T>>): seq<T> {
    if ops == [] then []
    else (match ops[0] case PushOp(v) => [v] case PopOp => []) + Pushed(ops[1..])
  }

  // The largest live chain met along a run.
  function Peak<T>(q: QState<T>, ops: seq<Op<T>>): nat
    decreases |ops|
  {
    var rest := if ops == [] then 0 else Peak(Do(q, ops[0]).0, ops[1..]);
    Max(q.Live(), rest)
  }

  function Max(a: nat, b: nat): nat { if a < b then b else a }

  function Pops<T>(n: nat): seq<Op<T>> { seq(n, _ => PopOp) }

  lemma PopConserves<T>(q: QState<T>)
    ensures Somes([Pop(q).1]) + Pop(q).0.vals == q.vals
  {
    var (q1, r) := Pop(q);
    assert Somes([r]) == if r.Some? then [r.value] else [];
  }

  lemma DoConserves<T>(q: QState<T>, op: Op<T>)
    ensures q.vals + Pushed([op]) == Somes(Do(q, op).1) + Do(q, op).0.vals
  {
    assert Pushed([op]) == if op.PushOp? then [op.v] else [];
    if op.PopOp? { PopConserves(q); }
  }

  lemma Reassociate<T>(a: seq<T>, b: seq<T>, c: seq<T>, d: seq<T>, e: seq<T>, f: seq<T>, g: seq<T>)
    requires a + b == d + e && e + c == f + g
    ensures a + (b + c) == (d + f) + g
  {
    calc {
      a + (b + c);
      (a + b) + c;
      (d + e) + c;
      d + (e + c);
      d + (f + g);
      (d + f) + g;
    }
  }

  // FIFO over every run: what was queued, then what was pushed, is what was returned, in that
  // order, then what is still queued.
  lemma {:induction false} RunIsFifo<T>(q: QState<T>, ops: seq<Op<T>>)
    ensures var (q', rs) := Run(q, ops);
            q.vals + Pushed(ops) == Somes(rs) + q'.vals
    decreases |ops|
  {
    if ops != [] {
      var (q1, r) := Do(q, ops[0]);
      var (q', rs) := Run(q1, ops[1..]);
      RunIsFifo(q1, ops[1..]);
      SomesAppend(r, rs);
      DoConserves(q, ops[0]);
      Reassociate(q.vals, Pushed([ops[0]]), Pushed(ops[1..]), Somes(r), q1.vals, Somes(rs), q'.vals);
    }
  }

  // The number of nodes ever allocated is the larger of the nodes at the start and the longest
  // live chain, over every run.
  lemma {:induction false} MadeIsPeak<T>(q: QState<T>, ops: seq<Op<T>>)
    ensures Run(q, ops).0.Made() == Max(q.Made(), Peak(q, ops))
    decreases |ops|
  {
    if ops != [] {
      MadeIsPeak(Do(q, ops[0]).0, ops[1..]);
    }
  }

  // From a fresh queue: max(initial capacity, longest live chain).
  lemma MadeFromFresh<T>(capacity: nat, ops: seq<Op<T>>)
    ensures Run(Fresh(capacity), ops).0.Made() == Max(capacity, Peak(Fresh(capacity), ops))
  {
    MadeIsPeak<T>(Fresh(capacity), ops);
  }

  lemma RunPops<T>(q: QState<T>, n: nat)
    requires n > 0
    ensures var (q1, r) := Pop(q);
            Run(q, Pops(n)) == (Run(q1, Pops(n - 1)).0, [r] + Run(q1, Pops(n - 1)).1)
  {
    var p: seq<Op<T>> := Pops(n);
    assert p[0] == PopOp && p[1..] == Pops(n - 1);
  }

  // A non-empty queue yields its oldest value within two pops; only a spent front delays it.
  lemma OldestWithinTwoPops<T>(q: QState<T>)
    requires q.vals != []
    ensures var rs := Run(q, Pops(2)).1;
            if q.spent then rs == [None, Some(q.vals[0])] else rs[0] == Some(q.vals[0])
  {
    RunPops(q, 2);
    RunPops(Pop(q).0, 1);
  }

  // The number of empty pops before the queue has given everything away.
  function Delay<T>(q: QState<T>): nat { if q.spent && q.vals != [] then 1 else 0 }

  function Results<T>(n: nat, vals: seq<T>): seq<Option<T>> {
    seq(n, _ => None) + seq(|vals|, i requires 0 <= i < |vals| => Some(vals[i]))
  }

  // Popping until everything is out: exactly Delay(q) empty pops, then every value in order; the
  // last node stays behind, spent.
  lemma {:induction false} Drain<T>(q: QState<T>)
    ensures var (q', rs) := Run(q, Pops(Delay(q) + |q.vals|));
            && rs == Results(Delay(q), q.vals)
            && q' == if q.vals == [] then q else QState(true, [], q.spare + Delay(q) + |q.vals| - 1)
    decreases |q.vals|, q.spent
  {
    if q.vals == [] {
      assert Pops<T>(0) == [];
    } else {
      RunPops(q, Delay(q) + |q.vals|);
      var (q1, r) := Pop(q);
      Drain(q1);
      assert Results(Delay(q), q.vals) == [r] + Results(Delay(q1), q1.vals);
    }
  }
}
