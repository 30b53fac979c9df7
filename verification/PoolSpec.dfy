/** What the pool of blocking workers is when its queue is a first-in-first-out queue whose pops may
    come back empty: submitters and workers interleaved at every operation on the queue and on the
    counter.  `BlockingPool` relates the pool on the real queue to it. */
module PoolSpec {
  import opened Options
  import opened Sequences
  import opened Words


  type Task = nat  // the identity of a (function, data) pair

  datatype Submitter =
    | SIdle
    | SPush(task: Task)  // about to push
    | SAdd            // pushed, about to add 1 to the counter
    | SNotify         // about to try the mutex and notify

  datatype Worker =
    | WPop
    | WSub(task: Task)   // popped, about to subtract 1 from the counter
    | WRun(task: Task)
    | WPark           // about to evaluate the wait predicate, or waiting
    | WExit

  // `submitted`, `pushed` and `ran` record what happened and steer nothing.
  datatype State = State(
    queue: seq<Task>, counter: nat, done: bool,
    subs: seq<Submitter>, workers: seq<Worker>,
    submitted: seq<Task>, pushed: seq<Task>, ran: seq<Task>)

  datatype Act =
    | Submit(i: nat, task: Task)
    | Sub(i: nat)
    | Work(w: nat, hit: bool)  // hit: a pop finds the oldest value, if there is one
    | Shutdown

  function StepSub(s: State, i: nat): State
    requires i < |s.subs|
  {
    match s.subs[i]
    case SIdle => s
    case SPush(task) =>
      s.(queue := s.queue + [task], pushed := s.pushed + [task], subs := s.subs[i := SAdd])
    case SAdd => s.(counter := Wrap(s.counter + 1), subs := s.subs[i := SNotify])
    case SNotify => s.(subs := s.subs[i := SIdle])
  }

  function StepWork(s: State, w: nat, hit: bool): State
    requires w < |s.workers|
  {
    match s.workers[w]
    case WPop =>
      if hit && s.queue != []
      then s.(queue := s.queue[1..], workers := s.workers[w := WSub(s.queue[0])])
      else s.(workers := s.workers[w := WPark])
    case WSub(task) => s.(counter := Wrap(s.counter - 1), workers := s.workers[w := WRun(task)])
    case WRun(task) => s.(ran := s.ran + [task], workers := s.workers[w := WPop])
    case WPark =>
      if s.done then s.(workers := s.workers[w := WExit])
      else if s.counter > 0 then s.(workers := s.workers[w := WPop])
      else s
    case WExit => s
  }

  function Step(s: State, a: Act): State {
    match a
    case Submit(i, task) =>
      if i < |s.subs| && s.subs[i].SIdle?
      then s.(submitted := s.submitted + [task], subs := s.subs[i := SPush(task)]) else s
    case Sub(i) => if i < |s.subs| then StepSub(s, i) else s
    case Work(w, hit) => if w < |s.workers| then StepWork(s, w, hit) else s
    case Shutdown => s.(done := true)
  }

  function Run(s: State, acts: seq<Act>): State
    decreases |acts|
  {
    if acts == [] then s else Step(Run(s, acts[..|acts| - 1]), acts[|acts| - 1])
  }

  function Start(subs: nat, workers: nat): State {
    State([], 0, false, seq(subs, _ => SIdle), seq(workers, _ => WPop), [], [], [])
  }

  // The task a submitter has yet to push, and the one a worker has popped and not run.
  function OnItsWay(y: Submitter): Option<Task> { if y.SPush? then Some(y.task) else None }

  function InHand(y: Worker): Option<Task> { if y.WSub? || y.WRun? then Some(y.task) else None }

  function Coming(subs: seq<Submitter>): seq<Option<Task>> {
    seq(|subs|, i requires 0 <= i < |subs| => OnItsWay(subs[i]))
  }

  function Hands(workers: seq<Worker>): seq<Option<Task>> {
    seq(|workers|, w requires 0 <= w < |workers| => InHand(workers[w]))
  }

  // What a submitter, or a worker, still owes the counter.
  function SubOwes(y: Submitter): int { if y.SAdd? then 1 else 0 }

  function WorkOwes(y: Worker): int { if y.WSub? then 1 else 0 }

  function Total<X>(xs: seq<X>, f: X -> int): int {
    if xs == [] then 0 else Total(xs[..|xs| - 1], f) + f(xs[|xs| - 1])
  }

  lemma {:induction false} TotalUpdate<X>(xs: seq<X>, f: X -> int, k: nat, x: X)
    requires k < |xs|
    ensures Total(xs[k := x], f) == Total(xs, f) - f(xs[k]) + f(x)
  {
    var n := |xs| - 1;
    if k < n {
      TotalUpdate(xs[..n], f, k, x);
      assert xs[k := x][..n] == xs[..n][k := x];
    } else {
      assert xs[k := x][..n] == xs[..n];
    }
  }

  // Every submission of a task is in exactly one place: about to be pushed, queued, in a worker's
  // hand, or run.
  ghost predicate ConservedAt(s: State, x: Task) {
    Times(s.submitted, x) ==
    Times(Coming(s.subs), Some(x)) + Times(s.queue, x) + Times(Hands(s.workers), Some(x)) + Times(s.ran, x)
  }

  // The counter is the queue length, plus what was popped but not yet subtracted, minus what was
  // pushed but not yet added, modulo 2^64.
  ghost predicate Counted(s: State) {
    s.counter == Wrap(|s.queue| + Total(s.workers, WorkOwes) - Total(s.subs, SubOwes))
  }

  // With one worker, tasks run in the order in which they were pushed.
  ghost predicate InOrder(s: State) {
    |s.workers| == 1 ==> s.pushed == s.ran + Somes(Hands(s.workers)) + s.queue
  }

  lemma ComingUpdate(subs: seq<Submitter>, i: nat, y: Submitter, x: Task)
    requires i < |subs|
    ensures Times(Coming(subs[i := y]), Some(x)) + (if OnItsWay(subs[i]) == Some(x) then 1 else 0) ==
            Times(Coming(subs), Some(x)) + (if OnItsWay(y) == Some(x) then 1 else 0)
  {
    TimesUpdate(Coming(subs), i, OnItsWay(y), Some(x));
    assert Coming(subs[i := y]) == Coming(subs)[i := OnItsWay(y)];
  }

  lemma HandsUpdate(workers: seq<Worker>, w: nat, y: Worker, x: Task)
    requires w < |workers|
    ensures Times(Hands(workers[w := y]), Some(x)) + (if InHand(workers[w]) == Some(x) then 1 else 0) ==
            Times(Hands(workers), Some(x)) + (if InHand(y) == Some(x) then 1 else 0)
  {
    TimesUpdate(Hands(workers), w, InHand(y), Some(x));
    assert Hands(workers[w := y]) == Hands(workers)[w := InHand(y)];
  }

  lemma StepConserved(s: State, a: Act, x: Task)
    requires ConservedAt(s, x)
    ensures ConservedAt(Step(s, a), x)
  {
    match a
    case Submit(i, task) =>
      if i < |s.subs| && s.subs[i].SIdle? {
        ComingUpdate(s.subs, i, SPush(task), x);
        TimesMore(s.submitted, task, x);
      }
    case Sub(i) =>
      if i < |s.subs| { SubConserved(s, i, StepSub(s, i), x); }
    case Work(w, hit) =>
      if w < |s.workers| { WorkConserved(s, w, hit, StepWork(s, w, hit), x); }
    case Shutdown =>
  }

  lemma SubConserved(s: State, i: nat, s': State, x: Task)
    requires ConservedAt(s, x) && i < |s.subs| && s' == StepSub(s, i)
    ensures ConservedAt(s', x)
  {
    ComingUpdate(s.subs, i, s'.subs[i], x);
    if s.subs[i].SPush? { TimesMore(s.queue, s.subs[i].task, x); }
  }

  lemma WorkConserved(s: State, w: nat, hit: bool, s': State, x: Task)
    requires ConservedAt(s, x) && w < |s.workers| && s' == StepWork(s, w, hit)
    ensures ConservedAt(s', x)
  {
    HandsUpdate(s.workers, w, s'.workers[w], x);
    if s.queue != [] { TimesLess(s.queue, x); }
    if s.workers[w].WRun? { TimesMore(s.ran, s.workers[w].task, x); }
  }

  lemma StepCounted(s: State, a: Act)
    requires Counted(s)
    ensures Counted(Step(s, a))
  {
    match a
    case Submit(i, task) =>
      if i < |s.subs| && s.subs[i].SIdle? { TotalUpdate(s.subs, SubOwes, i, SPush(task)); }
    case Sub(i) =>
      if i < |s.subs| { SubCounted(s, i, StepSub(s, i)); }
    case Work(w, hit) =>
      if w < |s.workers| { WorkCounted(s, w, hit, StepWork(s, w, hit)); }
    case Shutdown =>
  }

  lemma SubCounted(s: State, i: nat, s': State)
    requires Counted(s) && i < |s.subs| && s' == StepSub(s, i)
    ensures Counted(s')
  {
    TotalUpdate(s.subs, SubOwes, i, s'.subs[i]);
    if s.subs[i].SAdd? {
      Around(|s.queue| + Total(s.workers, WorkOwes) - Total(s.subs, SubOwes));
    }
  }

  lemma WorkCounted(s: State, w: nat, hit: bool, s': State)
    requires Counted(s) && w < |s.workers| && s' == StepWork(s, w, hit)
    ensures Counted(s')
  {
    TotalUpdate(s.workers, WorkOwes, w, s'.workers[w]);
    if s.workers[w].WSub? {
      Around(|s.queue| + Total(s.workers, WorkOwes) - Total(s.subs, SubOwes));
    }
  }

  lemma StepInOrder(s: State, a: Act)
    requires InOrder(s)
    ensures InOrder(Step(s, a))
  {
    if |s.workers| == 1 {
      match a
      case Sub(i) =>
        if i < |s.subs| && s.subs[i].SPush? {
          assert s.pushed + [s.subs[i].task] ==
                 s.ran + Somes(Hands(s.workers)) + (s.queue + [s.subs[i].task]);
        }
      case Work(w, hit) =>
        if w == 0 { WorkInOrder(s, hit, StepWork(s, 0, hit)); }
      case _ =>
    }
  }

  lemma OneHand(workers: seq<Worker>)
    requires |workers| == 1
    ensures Somes(Hands(workers)) == if InHand(workers[0]).Some? then [InHand(workers[0]).value] else []
  {
    assert Hands(workers) == [InHand(workers[0])];
  }

  lemma WorkInOrder(s: State, hit: bool, s': State)
    requires |s.workers| == 1 && InOrder(s) && s' == StepWork(s, 0, hit)
    ensures InOrder(s')
  {
    OneHand(s.workers);
    OneHand(s'.workers);
    match s.workers[0]
    case WPop => if s.queue != [] { FrontMoves(s.ran, s.queue); }
    case WRun(task) => HandMoves(s.ran, task, s.queue);
    case _ =>
  }

  lemma FrontMoves<X>(ran: seq<X>, queue: seq<X>)
    requires queue != []
    ensures ran + [] + queue == ran + [queue[0]] + queue[1..]
  {
  }

  lemma HandMoves<X>(ran: seq<X>, x: X, queue: seq<X>)
    ensures ran + [x] + queue == (ran + [x]) + [] + queue
  {
  }

  ghost predicate Inv(s: State) {
    (forall x :: ConservedAt(s, x)) && Counted(s) && InOrder(s)
  }

  lemma StepInv(s: State, a: Act)
    requires Inv(s)
    ensures Inv(Step(s, a)) && |Step(s, a).workers| == |s.workers|
  {
    forall x ensures ConservedAt(Step(s, a), x) {
      StepConserved(s, a, x);
    }
    StepCounted(s, a);
    StepInOrder(s, a);
  }

  lemma {:induction false} RunInv(subs: nat, workers: nat, acts: seq<Act>)
    ensures var s := Run(Start(subs, workers), acts);
            Inv(s) && |s.workers| == workers
    decreases |acts|
  {
    if acts == [] {
      NothingYet(subs, workers);
    } else {
      var n := |acts| - 1;
      RunInv(subs, workers, acts[..n]);
      var s := Run(Start(subs, workers), acts[..n]);
      StepInv(s, acts[n]);
    }
  }

  lemma NothingYet(subs: nat, workers: nat)
    ensures Inv(Start(subs, workers))
  {
    var s := Start(subs, workers);
    forall x: Task ensures ConservedAt(s, x) {
      assert Some(x) !in Coming(s.subs) && Some(x) !in Hands(s.workers);
    }
    if workers == 1 { OneHand(s.workers); }
    NoTotal(s.subs, SubOwes);
    NoTotal(s.workers, WorkOwes);
  }

  lemma {:induction false} NoTotal<X>(xs: seq<X>, f: X -> int)
    requires forall k :: 0 <= k < |xs| ==> f(xs[k]) == 0
    ensures Total(xs, f) == 0
  {
    if xs != [] { NoTotal(xs[..|xs| - 1], f); }
  }
}
