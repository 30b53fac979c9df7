/** The pool of blocking workers on its queue: submitters run `run_blocking`, workers run
    `blocking_work`, and every atomic operation of the queue and of the counter is one step.
    Submitter i is producer i of `QueueMachine`, worker w is consumer w. */
module BlockingPool {
  import opened Options
  import opened Sequences
  import opened Words
  import opened QueueTheorems
  import Q = QueueMachine
  import I = QueueInvariant
  import P = PoolSpec

  type Task = P.Task

  datatype Submitter =
    | SIdle
    | SPush           // inside `push`
    | SAdd            // pushed, about to add 1 to the counter
    | SNotify         // about to try the mutex and notify

  datatype Worker =
    | WPop               // about to call `pop`
    | WPopping           // inside `pop`
    | WSub(task: Task)   // popped, about to subtract 1 from the counter
    | WRun(task: Task)
    | WPark              // about to evaluate the wait predicate, or waiting
    | WExit

  // `ran` records the tasks in the order they were run and steers nothing.
  datatype State = State(
    queue: Q.State<Task>, counter: nat, done: bool,
    subs: seq<Submitter>, workers: seq<Worker>, ran: seq<Task>)

  datatype Act = Submit(i: nat, task: Task) | Sub(i: nat) | Work(w: nat) | Shutdown

  // Task k of the queue is not inside an operation.
  predicate ProdIdle(q: Q.State<Task>, k: nat) { k < |q.prods| ==> q.prods[k].PIdle? }

  predicate ConsIdle(q: Q.State<Task>, k: nat) { k < |q.cons| ==> q.cons[k].CIdle? }

  // What a worker does with the result of its `pop`, the last one returned.
  function Received(results: seq<Option<Task>>): Worker {
    if results != [] && results[|results| - 1].Some? then WSub(results[|results| - 1].value) else WPark
  }

  function StepSub(s: State, i: nat): State
    requires i < |s.subs|
  {
    match s.subs[i]
    case SIdle => s
    case SPush =>
      var q := Q.Step(s.queue, Q.Prod(i));
      s.(queue := q, subs := if ProdIdle(q, i) then s.subs[i := SAdd] else s.subs)
    case SAdd => s.(counter := Wrap(s.counter + 1), subs := s.subs[i := SNotify])
    case SNotify => s.(subs := s.subs[i := SIdle])
  }

  function StepWork(s: State, w: nat): State
    requires w < |s.workers|
  {
    match s.workers[w]
    case WPop => s.(queue := Q.Step(s.queue, Q.Pop(w)), workers := s.workers[w := WPopping])
    case WPopping =>
      var q := Q.Step(s.queue, Q.Cons(w));
      s.(queue := q, workers := if ConsIdle(q, w) then s.workers[w := Received(q.results)] else s.workers)
    case WSub(task) => s.(counter := Wrap(s.counter - 1), workers := s.workers[w := WRun(task)])
    case WRun(task) => s.(ran := s.ran + [task], workers := s.workers[w := WPop])
    case WPark =>
      if s.done then s.(workers := s.workers[w := WExit])
      else if s.counter > 0 then s.(workers := s.workers[w := WPop])
      else s
    case WExit => s
  }

  function Step(s: State, a: Act): State {
    match a
    case Submit(i, task) =>
      if i < |s.subs| && s.subs[i].SIdle?
      then s.(queue := Q.Step(s.queue, Q.Push(i, task)), subs := s.subs[i := SPush]) else s
    case Sub(i) => if i < |s.subs| then StepSub(s, i) else s
    case Work(w) => if w < |s.workers| then StepWork(s, w) else s
    case Shutdown => s.(done := true)
  }

  function Run(s: State, acts: seq<Act>): State
    decreases |acts|
  {
    if acts == [] then s else Step(Run(s, acts[..|acts| - 1]), acts[|acts| - 1])
  }

  // The queue starts without spare nodes.
  function Start(recycle: bool, subs: nat, workers: nat): State {
    State(Q.Start(recycle, 0, subs, workers), 0, false, seq(subs, _ => SIdle), seq(workers, _ => WPop), [])
  }

  function Reached(recycle: bool, subs: nat, workers: nat, acts: seq<Act>): State {
    Run(Start(recycle, subs, workers), acts)
  }

  // ---- as an ideal pool ----

  // A submitter inside `push` has pushed from the head_ exchange on; a worker inside `pop` has popped
  // from the moment it claims a value.
  function AbsSub(q: Q.State<Task>, y: Submitter, i: nat): P.Submitter {
    match y
    case SIdle => P.SIdle
    case SPush =>
      if i >= |q.prods| || q.prods[i].PIdle? || q.prods[i].PLink? then P.SAdd else P.SPush(q.prods[i].v)
    case SAdd => P.SAdd
    case SNotify => P.SNotify
  }

  function AbsWorker(q: Q.State<Task>, y: Worker, w: nat): P.Worker {
    match y
    case WPop => P.WPop
    case WPopping =>
      if w < |q.cons| && Hand(q, w).Some? then P.WSub(Hand(q, w).value) else P.WPop
    case WSub(task) => P.WSub(task)
    case WRun(task) => P.WRun(task)
    case WPark => P.WPark
    case WExit => P.WExit
  }

  function AbsSubs(s: State): seq<P.Submitter> {
    seq(|s.subs|, i requires 0 <= i < |s.subs| => AbsSub(s.queue, s.subs[i], i))
  }

  function AbsWorkers(s: State): seq<P.Worker> {
    seq(|s.workers|, w requires 0 <= w < |s.workers| => AbsWorker(s.queue, s.workers[w], w))
  }

  // The ideal pool when the first `taken` values exchanged have left the queue.
  function Abs(s: State, taken: nat): P.State {
    P.State(Waiting(s.queue, taken), s.counter, s.done, AbsSubs(s), AbsWorkers(s),
            s.queue.submitted, s.queue.order, s.ran)
  }

  // The pool and its queue agree on who is inside an operation.
  ghost predicate Match(s: State) {
    && |s.subs| == |s.queue.prods| && |s.workers| == |s.queue.cons|
    && (forall i :: 0 <= i < |s.subs| ==> (s.subs[i].SPush? <==> !s.queue.prods[i].PIdle?))
    && (forall w :: 0 <= w < |s.workers| ==> (s.workers[w].WPopping? <==> !s.queue.cons[w].CIdle?))
  }

  lemma StepMatch(s: State, a: Act)
    requires Match(s)
    ensures Match(Step(s, a))
  {
    match a
    case Submit(i, task) =>
    case Sub(i) => if i < |s.subs| { SubMatch(s, i); }
    case Work(w) => if w < |s.workers| { WorkMatch(s, w); }
    case Shutdown =>
  }

  lemma SubMatch(s: State, i: nat)
    requires Match(s) && i < |s.subs|
    ensures Match(StepSub(s, i))
  {
    if s.subs[i].SPush? { OthersStay(s.queue, Q.Prod(i)); }
  }

  lemma WorkMatch(s: State, w: nat)
    requires Match(s) && w < |s.workers|
    ensures Match(StepWork(s, w))
  {
    if s.workers[w].WPopping? { OthersStay(s.queue, Q.Cons(w)); }
  }

  // A step of the queue moves only the task that takes it.
  lemma OthersStay(q: Q.State<Task>, a: Q.Act<Task>)
    ensures var q' := Q.Step(q, a);
            && |q'.prods| == |q.prods| && |q'.cons| == |q.cons| && (a.Push? || q'.submitted == q.submitted)
            && (a.Prod? || a.Push? ==>
                  q'.cons == q.cons && forall k :: 0 <= k < |q.prods| && k != a.i ==> q'.prods[k] == q.prods[k])
            && (a.Cons? || a.Pop? ==>
                  q'.prods == q.prods && forall k :: 0 <= k < |q.cons| && k != a.j ==> q'.cons[k] == q.cons[k])
  {
  }

  // ---- it moves as the ideal pool does ----

  // A step of the pool is a step of the ideal pool, or changes nothing there.
  ghost predicate Simulated(s: State, taken: nat, s': State, taken': nat) {
    || Abs(s', taken') == Abs(s, taken)
    || exists b: P.Act :: Abs(s', taken') == P.Step(Abs(s, taken), b)
  }

  lemma SameWorkers(s: State, s': State)
    requires Match(s) && s'.workers == s.workers && Hands(s'.queue) == Hands(s.queue)
    requires |s'.queue.cons| == |s.queue.cons|
    ensures AbsWorkers(s') == AbsWorkers(s)
  {
    forall w | 0 <= w < |s.workers| ensures Hand(s'.queue, w) == Hand(s.queue, w) {
      assert Hands(s'.queue)[w] == Hands(s.queue)[w];
    }
  }

  lemma SameSubs(s: State, s': State)
    requires Match(s) && s'.subs == s.subs && s'.queue.prods == s.queue.prods
    ensures AbsSubs(s') == AbsSubs(s)
  {
  }

  lemma SubmitSimulates(s: State, i: nat, task: Task, taken: nat)
    requires Match(s) && i < |s.subs| && s.subs[i].SIdle?
    ensures Simulated(s, taken, Step(s, Submit(i, task)), taken)
  {
    var s' := Step(s, Submit(i, task));
    assert Hands(s'.queue) == Hands(s.queue);
    SameWorkers(s, s');
    assert AbsSubs(s') == AbsSubs(s)[i := P.SPush(task)];
    assert Abs(s', taken) == P.Step(Abs(s, taken), P.Submit(i, task));
  }

  // A submitter's step inside `push`.
  lemma PushSimulates(s: State, i: nat, taken: nat, taken': nat)
    requires Match(s) && i < |s.subs| && s.subs[i].SPush? && Match(StepSub(s, i))
    requires var q' := Q.Step(s.queue, Q.Prod(i));
             FifoMove(s.queue, Waiting(s.queue, taken), Q.Prod(i), q', Waiting(q', taken'))
    ensures Simulated(s, taken, StepSub(s, i), taken')
  {
    var s' := StepSub(s, i);
    OthersStay(s.queue, Q.Prod(i));
    SameWorkers(s, s');
    OneSub(s, i, s');
    PushTurn(s, i);
    PushMoves(s, i, taken, taken', s');
  }

  lemma PushMoves(s: State, i: nat, taken: nat, taken': nat, s': State)
    requires i < |s.subs| == |s.queue.prods| && s.subs[i].SPush? && !s.queue.prods[i].PIdle?
    requires s'.counter == s.counter && s'.done == s.done && s'.ran == s.ran
    requires s'.queue.submitted == s.queue.submitted && AbsWorkers(s') == AbsWorkers(s)
    requires i < |s'.subs| && AbsSubs(s') == AbsSubs(s)[i := AbsSub(s'.queue, s'.subs[i], i)]
    requires var p, q, q' := s.queue.prods[i], Waiting(s.queue, taken), Waiting(s'.queue, taken');
             if p.PSwap? then
               && q' == q + [p.v] && s'.queue.order == s.queue.order + [p.v]
               && AbsSub(s'.queue, s'.subs[i], i) == P.SAdd
             else
               && q' == q && s'.queue.order == s.queue.order
               && AbsSub(s'.queue, s'.subs[i], i) == AbsSub(s.queue, s.subs[i], i)
    ensures Simulated(s, taken, s', taken')
  {
    if s.queue.prods[i].PSwap? {
      assert Abs(s', taken') == P.Step(Abs(s, taken), P.Sub(i));
    } else {
      assert AbsSubs(s') == AbsSubs(s);
    }
  }

  lemma OneSub(s: State, i: nat, s': State)
    requires |s'.subs| == |s.subs| && i < |s.subs| && |s'.queue.prods| == |s.queue.prods|
    requires forall k :: 0 <= k < |s.subs| && k != i ==> s'.subs[k] == s.subs[k]
    requires forall k :: 0 <= k < |s.queue.prods| && k != i ==> s'.queue.prods[k] == s.queue.prods[k]
    ensures AbsSubs(s') == AbsSubs(s)[i := AbsSub(s'.queue, s'.subs[i], i)]
  {
  }

  // The exchange of head_ is the step that pushes.
  lemma PushTurn(s: State, i: nat)
    requires Match(s) && i < |s.subs| && s.subs[i].SPush?
    ensures var s' := StepSub(s, i);
            && |s'.subs| == |s.subs|
            && AbsSub(s'.queue, s'.subs[i], i) ==
               if s.queue.prods[i].PSwap? then P.SAdd else AbsSub(s.queue, s.subs[i], i)
  {
  }

  lemma PlainSubSimulates(s: State, i: nat, taken: nat)
    requires Match(s) && i < |s.subs| && !s.subs[i].SPush?
    ensures Simulated(s, taken, StepSub(s, i), taken)
  {
    var s' := StepSub(s, i);
    SameWorkers(s, s');
    OneSub(s, i, s');
    assert Abs(s', taken) == P.Step(Abs(s, taken), P.Sub(i));
  }

  lemma OneWorker(s: State, w: nat, s': State)
    requires |s'.workers| == |s.workers| && w < |s.workers| && |s'.queue.cons| == |s.queue.cons| == |s.workers|
    requires forall k :: 0 <= k < |s.workers| && k != w ==> s'.workers[k] == s.workers[k]
    requires forall k :: 0 <= k < |s.queue.cons| && k != w ==> Hand(s'.queue, k) == Hand(s.queue, k)
    ensures AbsWorkers(s') == AbsWorkers(s)[w := AbsWorker(s'.queue, s'.workers[w], w)]
  {
  }

  lemma PlainWorkSimulates(s: State, w: nat, taken: nat)
    requires Match(s) && w < |s.workers| && !s.workers[w].WPopping?
    ensures Simulated(s, taken, StepWork(s, w), taken)
  {
    var s' := StepWork(s, w);
    OneWorker(s, w, s');
    SameSubs(s, s');
    if s.workers[w].WPop? {
      assert AbsWorkers(s') == AbsWorkers(s);
    } else {
      assert Abs(s', taken) == P.Step(Abs(s, taken), P.Work(w, false));
    }
  }

  // A worker's step inside `pop`.
  lemma PopSimulates(s: State, w: nat, taken: nat, taken': nat)
    requires Match(s) && w < |s.workers| && s.workers[w].WPopping?
    requires var q' := Q.Step(s.queue, Q.Cons(w));
             FifoMove(s.queue, Waiting(s.queue, taken), Q.Cons(w), q', Waiting(q', taken'))
    ensures Simulated(s, taken, StepWork(s, w), taken')
  {
    var s', q := StepWork(s, w), s.queue;
    OthersStay(q, Q.Cons(w));
    SameSubs(s, s');
    forall k | 0 <= k < |q.cons| ensures k != w ==> Hand(s'.queue, k) == Hand(q, k) {
      assert Hands(s'.queue)[k] == Hand(s'.queue, k) && Hands(q)[k] == Hand(q, k);
    }
    assert Hands(s'.queue)[w] == Hand(s'.queue, w) && Hands(q)[w] == Hand(q, w);
    OneWorker(s, w, s');
    PopMoves(s, w, taken, taken', s');
  }

  lemma PopMoves(s: State, w: nat, taken: nat, taken': nat, s': State)
    requires w < |s.workers| == |s.queue.cons| && s.workers[w].WPopping? && !s.queue.cons[w].CIdle?
    requires s' == StepWork(s, w) && w < |s'.queue.cons|
    requires AbsSubs(s') == AbsSubs(s) && s'.queue.submitted == s.queue.submitted && s'.queue.order == s.queue.order
    requires AbsWorkers(s') == AbsWorkers(s)[w := AbsWorker(s'.queue, s'.workers[w], w)]
    requires var q, q' := Waiting(s.queue, taken), Waiting(s'.queue, taken');
             if s'.queue.cons[w].CIdle? then
               q' == q && s'.queue.results == s.queue.results + [Hand(s.queue, w)]
             else
               || (q' == q && Hand(s'.queue, w) == Hand(s.queue, w))
               || (Hand(s.queue, w).None? && q != [] && q' == q[1..] && Hand(s'.queue, w) == Some(q[0]))
    ensures Simulated(s, taken, s', taken')
  {
    var x, x' := Abs(s, taken), Abs(s', taken');
    if s'.queue.cons[w].CIdle? {
      if Hand(s.queue, w).Some? {
        assert x' == x;
      } else {
        assert x' == P.Step(x, P.Work(w, false));
      }
    } else if x'.queue == x.queue && Hand(s'.queue, w) == Hand(s.queue, w) {
      assert x' == x;
    } else {
      assert x' == P.Step(x, P.Work(w, true));
    }
  }

  lemma StepSimulates(s: State, g: I.View, a: Act) returns (g': I.View)
    requires Match(s) && Good(s.queue, g)
    ensures Match(Step(s, a)) && Good(Step(s, a).queue, g') && Simulated(s, g.taken, Step(s, a), g'.taken)
  {
    StepMatch(s, a);
    g' := g;
    match a
    case Submit(i, task) =>
      if i < |s.subs| && s.subs[i].SIdle? {
        StepGood(s.queue, g, Q.Push(i, task));
        SubmitSimulates(s, i, task, g.taken);
      }
    case Sub(i) =>
      if i < |s.subs| { g' := SubSimulates(s, g, i); }
    case Work(w) =>
      if w < |s.workers| { g' := WorkSimulates(s, g, w); }
    case Shutdown =>
      assert AbsSubs(Step(s, a)) == AbsSubs(s) && AbsWorkers(Step(s, a)) == AbsWorkers(s);
      assert Abs(Step(s, a), g.taken) == P.Step(Abs(s, g.taken), P.Shutdown);
  }

  lemma SubSimulates(s: State, g: I.View, i: nat) returns (g': I.View)
    requires Match(s) && Good(s.queue, g) && i < |s.subs| && Match(StepSub(s, i))
    ensures Good(StepSub(s, i).queue, g') && Simulated(s, g.taken, StepSub(s, i), g'.taken)
  {
    if s.subs[i].SPush? {
      g' := I.Track(s.queue, g, Q.Prod(i));
      StepGood(s.queue, g, Q.Prod(i));
      FifoStep(s.queue, g, Q.Prod(i));
      PushSimulates(s, i, g.taken, g'.taken);
    } else {
      g' := g;
      PlainSubSimulates(s, i, g.taken);
    }
  }

  lemma WorkSimulates(s: State, g: I.View, w: nat) returns (g': I.View)
    requires Match(s) && Good(s.queue, g) && w < |s.workers|
    ensures Good(StepWork(s, w).queue, g') && Simulated(s, g.taken, StepWork(s, w), g'.taken)
  {
    if s.workers[w].WPopping? {
      g' := PoppingSimulates(s, g, w);
    } else {
      g' := g;
      PlainWorkQueue(s, g, w);
      PlainWorkSimulates(s, w, g.taken);
    }
  }

  lemma PlainWorkQueue(s: State, g: I.View, w: nat)
    requires Good(s.queue, g) && w < |s.workers| && !s.workers[w].WPopping?
    ensures Good(StepWork(s, w).queue, g)
  {
    var q := StepWork(s, w).queue;
    if s.workers[w].WPop? {
      StepGood(s.queue, g, Q.Pop(w));
      assert q == Q.Step(s.queue, Q.Pop(w)) && I.Track(s.queue, g, Q.Pop(w)) == g;
    } else {
      assert q == s.queue;
    }
  }

  lemma PoppingSimulates(s: State, g: I.View, w: nat) returns (g': I.View)
    requires Match(s) && Good(s.queue, g) && w < |s.workers| && s.workers[w].WPopping?
    ensures Good(StepWork(s, w).queue, g') && Simulated(s, g.taken, StepWork(s, w), g'.taken)
  {
    g' := I.Track(s.queue, g, Q.Cons(w));
    StepGood(s.queue, g, Q.Cons(w));
    FifoStep(s.queue, g, Q.Cons(w));
    PopSimulates(s, w, g.taken, g'.taken);
  }

  lemma StartSimulates(recycle: bool, subs: nat, workers: nat) returns (g: I.View)
    requires Safe(recycle, subs, workers)
    ensures var s := Start(recycle, subs, workers);
            Match(s) && Good(s.queue, g) && Abs(s, g.taken) == P.Start(subs, workers)
  {
    g := StartGood<Task>(recycle, 0, subs, workers);
    StartAbs(recycle, subs, workers, g.taken);
  }

  lemma StartAbs(recycle: bool, subs: nat, workers: nat, taken: nat)
    ensures var s := Start(recycle, subs, workers);
            Match(s) && Abs(s, taken) == P.Start(subs, workers)
  {
    var s := Start(recycle, subs, workers);
    assert AbsSubs(s) == P.Start(subs, workers).subs;
    assert AbsWorkers(s) == P.Start(subs, workers).workers;
  }

  // The ideal pool after some choices, as seen from this state.
  ghost predicate Tracks(s: State, g: I.View, p0: P.State, acts: seq<P.Act>) {
    Match(s) && Good(s.queue, g) && Abs(s, g.taken) == P.Run(p0, acts)
  }

  lemma TracksStep(s: State, g: I.View, p0: P.State, acts: seq<P.Act>, a: Act)
    returns (g': I.View, acts': seq<P.Act>)
    requires Tracks(s, g, p0, acts)
    ensures Tracks(Step(s, a), g', p0, acts')
  {
    g' := StepSimulates(s, g, a);
    acts' := Extend(p0, acts, Abs(s, g.taken), Abs(Step(s, a), g'.taken));
  }

  lemma {:induction false} TracksRun(s0: State, g0: I.View, p0: P.State, acts: seq<Act>)
    returns (g: I.View, acts': seq<P.Act>)
    requires Tracks(s0, g0, p0, [])
    ensures Tracks(Run(s0, acts), g, p0, acts')
    decreases |acts|
  {
    if acts == [] {
      g, acts' := g0, [];
    } else {
      var n := |acts| - 1;
      g, acts' := TracksRun(s0, g0, p0, acts[..n]);
      g, acts' := TracksStep(Run(s0, acts[..n]), g, p0, acts', acts[n]);
    }
  }

  // Every run of the pool, with recycling confined to one submitter and one worker, is a run of the
  // ideal pool.
  lemma Refines(recycle: bool, subs: nat, workers: nat, acts: seq<Act>)
    returns (g: I.View, acts': seq<P.Act>)
    requires Safe(recycle, subs, workers)
    ensures Tracks(Reached(recycle, subs, workers, acts), g, P.Start(subs, workers), acts')
  {
    g := StartSimulates(recycle, subs, workers);
    g, acts' := TracksRun(Start(recycle, subs, workers), g, P.Start(subs, workers), acts);
  }

  lemma Extend(p0: P.State, acts: seq<P.Act>, p: P.State, p': P.State) returns (acts': seq<P.Act>)
    requires P.Run(p0, acts) == p && (p' == p || exists b :: p' == P.Step(p, b))
    ensures P.Run(p0, acts') == p'
  {
    if p' == p {
      acts' := acts;
    } else {
      var b :| p' == P.Step(p, b);
      acts' := acts + [b];
      assert acts'[..|acts|] == acts;
    }
  }

  // ---- the counter on every run ----

  // A step of `pop` returns at most one result, and then the operation is over.
  lemma OneResult(q: Q.State<Task>, j: nat)
    requires j < |q.cons| && !q.cons[j].CIdle?
    ensures var q' := Q.Step(q, Q.Cons(j));
            if |q'.cons| > j && q'.cons[j].CIdle? then
              |q'.results| == |q.results| + 1 && q'.results[..|q.results|] == q.results
            else q'.results == q.results
  {
  }

  lemma SameOrder(q: Q.State<Task>, j: nat)
    ensures Q.Step(q, Q.Cons(j)).order == q.order
  {
  }

  // A turn of a producer leaves the results alone and appends to the order at its exchange.
  lemma ProducerRecords(q: Q.State<Task>, i: nat)
    requires i < |q.prods|
    ensures var q' := Q.Step(q, Q.Prod(i));
            q'.results == q.results && |q'.order| == |q.order| + if q.prods[i].PSwap? then 1 else 0
  {
  }

  function Subtracts(y: Worker): int { if y.WSub? then 1 else 0 }

  // What the counter should be: values exchanged, minus those not yet added, minus those returned by
  // `pop`, plus those returned but not yet subtracted.
  function Balance(s: State): int {
    |s.queue.order| - P.Total(AbsSubs(s), P.SubOwes) - |Somes(s.queue.results)| + P.Total(s.workers, Subtracts)
  }

  // How one step changes the counter and the balance.
  ghost predicate Balanced(s: State, s': State, d: int) {
    Balance(s') == Balance(s) + d && s'.counter == if d == 0 then s.counter else Wrap(s.counter + d)
  }

  lemma SubmitBalance(s: State, i: nat, task: Task)
    requires Match(s) && i < |s.subs| && s.subs[i].SIdle?
    ensures Balanced(s, Step(s, Submit(i, task)), 0)
  {
    var s' := Step(s, Submit(i, task));
    P.TotalUpdate(AbsSubs(s), P.SubOwes, i, P.SPush(task));
    assert AbsSubs(s') == AbsSubs(s)[i := P.SPush(task)];
  }

  lemma SubBalance(s: State, i: nat)
    requires Match(s) && i < |s.subs|
    ensures Balanced(s, StepSub(s, i), if s.subs[i].SAdd? then 1 else 0)
  {
    var s' := StepSub(s, i);
    if s.subs[i].SPush? {
      OthersStay(s.queue, Q.Prod(i));
      ProducerRecords(s.queue, i);
      PushTurn(s, i);
    }
    OneSub(s, i, s');
    P.TotalUpdate(AbsSubs(s), P.SubOwes, i, AbsSub(s'.queue, s'.subs[i], i));
    OwesAfter(s, i, s');
  }

  lemma OwesAfter(s: State, i: nat, s': State)
    requires Match(s) && i < |s.subs| && s' == StepSub(s, i) && |s'.subs| == |s.subs|
    requires s.subs[i].SPush? ==> (AbsSub(s'.queue, s'.subs[i], i) ==
               if s.queue.prods[i].PSwap? then P.SAdd else AbsSub(s.queue, s.subs[i], i))
    ensures P.SubOwes(AbsSub(s'.queue, s'.subs[i], i)) - P.SubOwes(AbsSub(s.queue, s.subs[i], i)) ==
            (if s.subs[i].SPush? && s.queue.prods[i].PSwap? then 1 else 0) - (if s.subs[i].SAdd? then 1 else 0)
  {
  }

  lemma WorkBalance(s: State, w: nat)
    requires Match(s) && w < |s.workers|
    ensures Balanced(s, StepWork(s, w), if s.workers[w].WSub? then -1 else 0)
  {
    var s' := StepWork(s, w);
    P.TotalUpdate(s.workers, Subtracts, w, s'.workers[w]);
    if s.workers[w].WPopping? {
      PopBalance(s, w);
    } else {
      SameSubs(s, s');
    }
  }

  lemma PopBalance(s: State, w: nat)
    requires Match(s) && w < |s.workers| && s.workers[w].WPopping?
    requires var s' := StepWork(s, w);
             && |s'.workers| == |s.workers|
             && P.Total(s'.workers, Subtracts) == P.Total(s.workers, Subtracts) + Subtracts(s'.workers[w])
    ensures Balanced(s, StepWork(s, w), 0)
  {
    var s', q, q' := StepWork(s, w), s.queue, Q.Step(s.queue, Q.Cons(w));
    OthersStay(q, Q.Cons(w));
    OneResult(q, w);
    SameOrder(q, w);
    SameSubs(s, s');
    if q'.cons[w].CIdle? {
      var r := q'.results[|q.results|];
      assert q'.results == q.results + [r];
      SomesAppend(q.results, [r]);
      assert Somes([r]) == if r.Some? then [r.value] else [];
    }
  }

  lemma StepBalance(s: State, a: Act)
    requires Match(s) && s.counter == Wrap(Balance(s))
    ensures Step(s, a).counter == Wrap(Balance(Step(s, a)))
  {
    Around(Balance(s));
    match a
    case Submit(i, task) => if i < |s.subs| && s.subs[i].SIdle? { SubmitBalance(s, i, task); }
    case Sub(i) => if i < |s.subs| { SubBalance(s, i); }
    case Work(w) => if w < |s.workers| { WorkBalance(s, w); }
    case Shutdown => assert AbsSubs(Step(s, a)) == AbsSubs(s);
  }

  // Any number of submitters and workers, recycling or not, every run: the counter is the balance of
  // what was exchanged, added, returned and subtracted, modulo 2^64, whatever became of the values.
  lemma {:induction false} CounterAlways(recycle: bool, subs: nat, workers: nat, acts: seq<Act>)
    ensures var s := Reached(recycle, subs, workers, acts);
            Match(s) && s.counter == Wrap(Balance(s))
    decreases |acts|
  {
    if acts == [] {
      StartAbs(recycle, subs, workers, 0);
      NothingBegun(Start(recycle, subs, workers));
    } else {
      var n := |acts| - 1;
      CounterAlways(recycle, subs, workers, acts[..n]);
      StepBalance(Reached(recycle, subs, workers, acts[..n]), acts[n]);
      StepMatch(Reached(recycle, subs, workers, acts[..n]), acts[n]);
    }
  }

  lemma NothingBegun(s: State)
    requires forall i :: 0 <= i < |s.subs| ==> s.subs[i].SIdle?
    requires forall w :: 0 <= w < |s.workers| ==> s.workers[w].WPop?
    requires s.queue.order == [] && s.queue.results == [] && s.counter == 0
    ensures s.counter == Wrap(Balance(s))
  {
    P.NoTotal(AbsSubs(s), P.SubOwes);
    P.NoTotal(s.workers, Subtracts);
  }

  // ---- what it guarantees ----

  // What is known of every run of the ideal pool, and which values are in the live chain.
  lemma Ideal(recycle: bool, subs: nat, workers: nat, acts: seq<Act>) returns (taken: nat, live: seq<nat>)
    requires Safe(recycle, subs, workers)
    ensures var s := Reached(recycle, subs, workers, acts);
            && Queued(s.queue, taken, live) && |s.subs| == subs && |s.workers| == workers
            && (forall x :: P.ConservedAt(Abs(s, taken), x)) && P.Counted(Abs(s, taken)) && P.InOrder(Abs(s, taken))
            && (subs == 1 ==> s.queue.order <= s.queue.submitted)
  {
    var g, acts' := Refines(recycle, subs, workers, acts);
    P.RunInv(subs, workers, acts');
    StartAbs(recycle, subs, workers, 0);
    RunSizes(Start(recycle, subs, workers), acts);
    taken, live := g.taken, g.chain[g.base..];
    ViewQueued(Reached(recycle, subs, workers, acts).queue, g);
    if subs == 1 { OrderIsSubmitted(Reached(recycle, subs, workers, acts).queue); }
  }

  lemma OrderIsSubmitted(q: Q.State<Task>)
    requires OneProducer(q) && |q.prods| == 1
    ensures q.order <= q.submitted
  {
  }

  // Every run, recycling confined to one submitter and one worker: each submission of a task is in
  // exactly one place: with its submitter up to the head_ exchange, in the queue's live chain, with a
  // worker, or run.  So a task runs at most as often as it was submitted.
  lemma NoTaskLostOrRepeated(recycle: bool, subs: nat, workers: nat, acts: seq<Act>, x: Task)
    returns (taken: nat, live: seq<nat>)
    requires Safe(recycle, subs, workers)
    ensures var s := Reached(recycle, subs, workers, acts);
            && Queued(s.queue, taken, live)
            && Times(s.queue.submitted, x) ==
               Times(P.Coming(AbsSubs(s)), Some(x)) + Times(Waiting(s.queue, taken), x) +
               Times(P.Hands(AbsWorkers(s)), Some(x)) + Times(s.ran, x)
  {
    taken, live := Ideal(recycle, subs, workers, acts);
    assert P.ConservedAt(Abs(Reached(recycle, subs, workers, acts), taken), x);
  }

  // The counter is the number of values in the live chain, plus what was popped but not yet
  // subtracted, minus what was pushed but not yet added, modulo 2^64.
  ghost predicate CounterExact(s: State, taken: nat) {
    s.counter == Wrap(|Waiting(s.queue, taken)| + P.Total(AbsWorkers(s), P.WorkOwes)
                        - P.Total(AbsSubs(s), P.SubOwes))
  }

  lemma CounterInFlight(recycle: bool, subs: nat, workers: nat, acts: seq<Act>) returns (taken: nat, live: seq<nat>)
    requires Safe(recycle, subs, workers)
    ensures var s := Reached(recycle, subs, workers, acts);
            Queued(s.queue, taken, live) && CounterExact(s, taken)
  {
    taken, live := Ideal(recycle, subs, workers, acts);
    CountedMeans(Reached(recycle, subs, workers, acts), taken);
  }

  lemma CountedMeans(s: State, taken: nat)
    requires P.Counted(Abs(s, taken))
    ensures CounterExact(s, taken)
  {
  }

  // No submitter is between its exchange and its addition, no worker between its claim and its
  // subtraction.
  ghost predicate Settled(s: State) {
    && (forall i :: 0 <= i < |s.subs| ==> !AbsSubs(s)[i].SAdd?)
    && (forall w :: 0 <= w < |s.workers| ==> !AbsWorkers(s)[w].WSub?)
  }

  // The counter may wrap below zero for a moment, when a worker subtracts before the submitter has
  // added, but once settled it is the number of values in the live chain.
  lemma CounterAtRest(recycle: bool, subs: nat, workers: nat, acts: seq<Act>) returns (taken: nat, live: seq<nat>)
    requires Safe(recycle, subs, workers) && Settled(Reached(recycle, subs, workers, acts))
    ensures var s := Reached(recycle, subs, workers, acts);
            && Queued(s.queue, taken, live) && s.counter == Wrap(|Waiting(s.queue, taken)|)
            && (|Waiting(s.queue, taken)| < SIZE ==> s.counter == |Waiting(s.queue, taken)|)
  {
    taken, live := CounterInFlight(recycle, subs, workers, acts);
    NothingOwed(Reached(recycle, subs, workers, acts), taken);
  }

  lemma NothingOwed(s: State, taken: nat)
    requires Settled(s) && CounterExact(s, taken)
    ensures s.counter == Wrap(|Waiting(s.queue, taken)|)
  {
    P.NoTotal(AbsWorkers(s), P.WorkOwes);
    P.NoTotal(AbsSubs(s), P.SubOwes);
  }

  // Once settled, a worker that evaluates the wait predicate stays parked exactly when no value is
  // left in the live chain.
  lemma ParksExactlyWhenDrained(recycle: bool, subs: nat, workers: nat, acts: seq<Act>, w: nat)
    returns (taken: nat, live: seq<nat>)
    requires Safe(recycle, subs, workers)
    requires var s := Reached(recycle, subs, workers, acts);
             Settled(s) && w < |s.workers| && s.workers[w].WPark? && !s.done && |s.queue.order| < SIZE
    ensures var s := Reached(recycle, subs, workers, acts);
            && Queued(s.queue, taken, live)
            && (Step(s, Work(w)).workers[w].WPark? <==> Waiting(s.queue, taken) == [])
  {
    taken, live := CounterAtRest(recycle, subs, workers, acts);
  }

  // A single worker runs tasks in the order of the head_ exchanges; for a single submitter that is the
  // order of submission.
  lemma OneWorkerInOrder(recycle: bool, subs: nat, acts: seq<Act>)
    requires Safe(recycle, subs, 1)
    ensures var s := Reached(recycle, subs, 1, acts);
            s.ran <= s.queue.order && (subs == 1 ==> s.ran <= s.queue.submitted)
  {
    var taken, live := Ideal(recycle, subs, 1, acts);
    InOrderMeans(Reached(recycle, subs, 1, acts), taken);
  }

  lemma InOrderMeans(s: State, taken: nat)
    requires P.InOrder(Abs(s, taken)) && |s.workers| == 1
    ensures s.ran <= s.queue.order
  {
    assert s.queue.order == s.ran + (Somes(P.Hands(AbsWorkers(s))) + Waiting(s.queue, taken));
  }

  lemma {:induction false} RunSizes(s: State, acts: seq<Act>)
    requires Match(s)
    ensures var s' := Run(s, acts);
            Match(s') && |s'.subs| == |s.subs| && |s'.workers| == |s.workers|
    decreases |acts|
  {
    if acts != [] {
      RunSizes(s, acts[..|acts| - 1]);
      StepMatch(Run(s, acts[..|acts| - 1]), acts[|acts| - 1]);
    }
  }
}
