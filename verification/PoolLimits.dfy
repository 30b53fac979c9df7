/** Exactly how far the guarantees of `BlockingPool` reach, and runs that show it. */
module PoolLimits {
  import opened Options
  import opened Sequences
  import opened Words
  import T = QueueTheorems
  import opened QueueLimits
  import opened BlockingPool
  import Q = QueueMachine
  import P = PoolSpec

  // ---- runs of the queue as runs of the pool ----

  // Everybody is at the start of a round or inside an operation of the queue, and what was returned
  // has been run.
  ghost predicate Resting(s: State) {
    && Match(s) && !s.done && s.ran == Somes(s.queue.results)
    && (forall i :: 0 <= i < |s.subs| ==> s.subs[i].SIdle? || s.subs[i].SPush?)
    && (forall w :: 0 <= w < |s.workers| ==> s.workers[w].WPop? || s.workers[w].WPopping?)
  }

  lemma RunOne(s: State, a: Act)
    ensures Run(s, [a]) == Step(s, a)
  {
    assert [a][..0] == [] && Run(s, []) == s;
  }

  lemma RunThree(s: State, a: Act)
    ensures Run(s, [a, a, a]) == Step(Step(Step(s, a), a), a)
  {
    RunOne(s, a);
    assert [a, a, a][..2] == [a, a] && [a, a][..1] == [a];
    assert Run(s, [a, a]) == Step(Step(s, a), a);
  }

  lemma LiftSub(s: State, i: nat) returns (acts: seq<Act>)
    requires Resting(s)
    ensures Resting(Run(s, acts)) && Run(s, acts).queue == Q.Step(s.queue, Q.Prod(i))
  {
    acts := [];
    if i < |s.subs| && s.subs[i].SPush? {
      var s1 := Step(s, Sub(i));
      StepMatch(s, Sub(i));
      OthersStay(s.queue, Q.Prod(i));
      SameResults(s.queue, i);
      if s1.subs[i].SPush? {
        acts := [Sub(i)];
        RunOne(s, Sub(i));
      } else {
        acts := [Sub(i), Sub(i), Sub(i)];
        RunThree(s, Sub(i));
        assert Step(Step(s1, Sub(i)), Sub(i)).subs == s.subs[i := SIdle];
      }
    }
  }

  lemma SameResults(q: Q.State<Task>, i: nat)
    ensures Q.Step(q, Q.Prod(i)).results == q.results
  {
  }

  lemma LiftWork(s: State, w: nat) returns (acts: seq<Act>)
    requires Resting(s) && None !in Q.Step(s.queue, Q.Cons(w)).results
    ensures Resting(Run(s, acts)) && Run(s, acts).queue == Q.Step(s.queue, Q.Cons(w))
  {
    acts := [];
    if w < |s.workers| && s.workers[w].WPopping? {
      var s1 := Step(s, Work(w));
      StepMatch(s, Work(w));
      OthersStay(s.queue, Q.Cons(w));
      OneResult(s.queue, w);
      if s1.workers[w].WPopping? {
        acts := [Work(w)];
        RunOne(s, Work(w));
      } else {
        acts := [Work(w), Work(w), Work(w)];
        RunThree(s, Work(w));
        LiftReturn(s, w);
      }
    }
  }

  lemma LiftReturn(s: State, w: nat)
    requires Resting(s) && w < |s.workers| && s.workers[w].WPopping? && Match(Step(s, Work(w)))
    requires var q := Q.Step(s.queue, Q.Cons(w));
             && None !in q.results && w < |q.cons| && q.cons[w].CIdle?
             && |q.results| == |s.queue.results| + 1 && q.results[..|s.queue.results|] == s.queue.results
    ensures var s3 := Step(Step(Step(s, Work(w)), Work(w)), Work(w));
            Resting(s3) && s3.queue == Q.Step(s.queue, Q.Cons(w))
  {
    var q, n := Q.Step(s.queue, Q.Cons(w)), |s.queue.results|;
    assert q.results[n] in q.results && q.results[n].Some?;
    var task := q.results[n].value;
    assert q.results == s.queue.results + [Some(task)];
    SomesAppend(s.queue.results, [Some(task)]);
    assert Somes([Some(task)]) == [task];
    var s1 := Step(s, Work(w));
    assert s1 == s.(queue := q, workers := s.workers[w := WSub(task)]);
    RunTask(s1, w, task);
  }

  // A worker with a task in hand subtracts, runs it and is back at the start.
  lemma RunTask(s: State, w: nat, task: Task)
    requires w < |s.workers| && s.workers[w] == WSub(task)
    ensures var s' := Step(Step(s, Work(w)), Work(w));
            s' == s.(counter := Wrap(s.counter - 1), workers := s.workers[w := WPop], ran := s.ran + [task])
  {
    assert s.workers[w := WRun(task)][w := WPop] == s.workers[w := WPop];
  }

  lemma LiftStep(s: State, a: Q.Act<Task>) returns (acts: seq<Act>)
    requires Resting(s) && None !in Q.Step(s.queue, a).results
    ensures Resting(Run(s, acts)) && Run(s, acts).queue == Q.Step(s.queue, a)
  {
    match a
    case Push(i, v) =>
      acts := if i < |s.subs| && s.subs[i].SIdle? then [Submit(i, v)] else [];
      RunOne(s, Submit(i, v));
    case Prod(i) => acts := LiftSub(s, i);
    case Pop(j) =>
      acts := if j < |s.workers| && s.workers[j].WPop? then [Work(j)] else [];
      RunOne(s, Work(j));
    case Cons(j) => acts := LiftWork(s, j);
  }

  lemma ResultsGrow(q: Q.State<Task>, a: Q.Act<Task>)
    requires None !in Q.Step(q, a).results
    ensures None !in q.results
  {
    if a.Cons? && a.j < |q.cons| && !q.cons[a.j].CIdle? {
      OneResult(q, a.j);
      var rs := Q.Step(q, a).results;
      assert forall r :: r in rs[..|q.results|] ==> r in rs;
    } else {
      assert Q.Step(q, a).results == q.results;
    }
  }

  lemma Joined(s: State, a: seq<Act>, b: seq<Act>)
    ensures Run(s, a + b) == Run(Run(s, a), b)
    decreases |b|
  {
    if b == [] {
      assert a + b == a;
    } else {
      Joined(s, a, b[..|b| - 1]);
      assert (a + b)[..|a + b| - 1] == a + b[..|b| - 1];
    }
  }

  // A run of the queue on which no `pop` comes back empty is what the queue does on some run of the
  // pool, whose workers run what was returned, in that order.
  lemma {:induction false} LiftRun(recycle: bool, subs: nat, workers: nat, qs: seq<Q.Act<Task>>)
    returns (acts: seq<Act>)
    requires None !in T.Reached(recycle, 0, subs, workers, qs).results
    ensures var s := Reached(recycle, subs, workers, acts);
            Resting(s) && s.queue == T.Reached(recycle, 0, subs, workers, qs)
    decreases |qs|
  {
    acts := [];
    if qs != [] {
      var n := |qs| - 1;
      var q := T.Reached(recycle, 0, subs, workers, qs[..n]);
      ResultsGrow(q, qs[n]);
      acts := LiftRun(recycle, subs, workers, qs[..n]);
      var b := LiftStep(Reached(recycle, subs, workers, acts), qs[n]);
      Joined(Start(recycle, subs, workers), acts, b);
      acts := acts + b;
    }
  }

  // ---- exactly when it guarantees that ----

  // Every submission of every task is in exactly one place.
  ghost predicate KeepsTasks(s: State) {
    exists taken, live :: T.Queued(s.queue, taken, live) && forall x :: P.ConservedAt(Abs(s, taken), x)
  }

  // No submission is lost or repeated on any run of the pool if and only if recycling is confined to
  // one submitter and one worker.
  lemma TasksExactly(recycle: bool, subs: nat, workers: nat, task: Task)
    requires subs >= 1 && workers >= 1
    ensures (forall acts :: KeepsTasks(Reached(recycle, subs, workers, acts))) <==> T.Safe(recycle, subs, workers)
  {
    if T.Safe(recycle, subs, workers) {
      forall acts ensures KeepsTasks(Reached(recycle, subs, workers, acts)) {
        var taken, live := Ideal(recycle, subs, workers, acts);
      }
    } else {
      var acts := TasksLost(subs, workers, task);
      LostTasks(Reached(true, subs, workers, acts));
    }
  }

  // Nobody is inside an operation of the queue and nothing is left in it to pop, but fewer tasks were
  // run than submitted, and the counter still counts the others.
  ghost predicate Abandons(s: State) {
    && Resting(s) && Loses(s.queue) && |s.queue.submitted| == |s.queue.order| && |s.ran| < |s.queue.submitted|
    && s.counter == |s.queue.submitted| - |s.ran|
  }

  lemma LostTasks(s: State)
    requires Abandons(s)
    ensures !KeepsTasks(s)
  {
    if taken: nat, live: seq<nat> :|
        T.Queued(s.queue, taken, live) && forall x :: P.ConservedAt(Abs(s, taken), x) {
      NothingLeft(s.queue, taken, live);
      AllRun(s, taken);
      assert false;
    }
  }

  lemma AllRun(s: State, taken: nat)
    requires Resting(s) && Q.AllIdle(s.queue) && T.Waiting(s.queue, taken) == []
    requires forall x :: P.ConservedAt(Abs(s, taken), x)
    ensures |s.ran| == |s.queue.submitted|
  {
    forall x ensures multiset(s.queue.submitted)[x] == multiset(s.ran)[x] {
      assert P.ConservedAt(Abs(s, taken), x);
      NobodyHas(s, x);
    }
    assert multiset(s.queue.submitted) == multiset(s.ran);
    assert |multiset(s.queue.submitted)| == |s.queue.submitted| && |multiset(s.ran)| == |s.ran|;
  }

  lemma NobodyHas(s: State, x: Task)
    requires Resting(s) && Q.AllIdle(s.queue)
    ensures Times(P.Coming(AbsSubs(s)), Some(x)) == 0 && Times(P.Hands(AbsWorkers(s)), Some(x)) == 0
  {
    forall i | 0 <= i < |s.subs| ensures P.Coming(AbsSubs(s))[i] == None {
      assert s.queue.prods[i].PIdle?;
    }
    forall w | 0 <= w < |s.workers| ensures P.Hands(AbsWorkers(s))[w] == None {
      assert s.queue.cons[w].CIdle?;
    }
    assert Some(x) !in P.Coming(AbsSubs(s)) && Some(x) !in P.Hands(AbsWorkers(s));
  }

  // Such a run exists as soon as two submitters or two workers share recycled nodes.
  lemma TasksLost(subs: nat, workers: nat, task: Task) returns (acts: seq<Act>)
    requires subs >= 1 && workers >= 1 && (subs >= 2 || workers >= 2)
    ensures var s := Reached(true, subs, workers, acts); Abandons(s) && |s.queue.order| <= 7
  {
    var qs := LosingRun(0, subs, workers, task);
    acts := LiftRun(true, subs, workers, qs);
    AllSubmitted(Q.Start<Task>(true, 0, subs, workers), qs);
    CounterAlways(true, subs, workers, acts);
    BalanceAtRest(Reached(true, subs, workers, acts));
  }

  lemma BalanceAtRest(s: State)
    requires Resting(s) && Q.AllIdle(s.queue) && s.counter == Wrap(Balance(s))
    requires |s.ran| <= |s.queue.order| < SIZE
    ensures s.counter == |s.queue.order| - |s.ran|
  {
    P.NoTotal(AbsSubs(s), P.SubOwes);
    P.NoTotal(s.workers, Subtracts);
    WrapIs(Balance(s), 0, Balance(s));
  }

  // With nobody inside `push`, what was submitted has been exchanged.
  lemma AllSubmitted(q: Q.State<Task>, qs: seq<Q.Act<Task>>)
    requires Q.AllIdle(q) && |q.submitted| == |q.order| && Q.AllIdle(Q.Run(q, qs))
    ensures |Q.Run(q, qs).submitted| == |Q.Run(q, qs).order|
  {
    NotInside(q.prods);
    SubmittedCount(q, qs);
    NotInside(Q.Run(q, qs).prods);
  }

  function Inside(ps: seq<Q.Producer<Task>>): nat {
    if ps == [] then 0 else Inside(ps[..|ps| - 1]) + |T.OnItsWay(ps[|ps| - 1])|
  }

  lemma {:induction false} NotInside(ps: seq<Q.Producer<Task>>)
    requires forall i :: 0 <= i < |ps| ==> ps[i].PIdle?
    ensures Inside(ps) == 0
  {
    if ps != [] { NotInside(ps[..|ps| - 1]); }
  }

  lemma {:induction false} InsideUpdate(ps: seq<Q.Producer<Task>>, i: nat, p: Q.Producer<Task>)
    requires i < |ps|
    ensures Inside(ps[i := p]) == Inside(ps) - |T.OnItsWay(ps[i])| + |T.OnItsWay(p)|
  {
    var n := |ps| - 1;
    if i < n {
      InsideUpdate(ps[..n], i, p);
      assert ps[i := p][..n] == ps[..n][i := p];
    } else {
      assert ps[i := p][..n] == ps[..n];
    }
  }

  lemma {:induction false} SubmittedCount(q: Q.State<Task>, qs: seq<Q.Act<Task>>)
    requires |q.submitted| == |q.order| + Inside(q.prods)
    ensures var q' := Q.Run(q, qs); |q'.submitted| == |q'.order| + Inside(q'.prods)
    decreases |qs|
  {
    if qs != [] {
      SubmittedCount(q, qs[..|qs| - 1]);
      SubmittedStep(Q.Run(q, qs[..|qs| - 1]), qs[|qs| - 1]);
    }
  }

  lemma SubmittedStep(q: Q.State<Task>, a: Q.Act<Task>)
    requires |q.submitted| == |q.order| + Inside(q.prods)
    ensures var q' := Q.Step(q, a); |q'.submitted| == |q'.order| + Inside(q'.prods)
  {
    var q' := Q.Step(q, a);
    OthersStay(q, a);
    if (a.Push? || a.Prod?) && a.i < |q.prods| {
      InsideUpdate(q.prods, a.i, q'.prods[a.i]);
      assert q'.prods == q.prods[a.i := q'.prods[a.i]];
      SubmittedOwn(q, a);
    } else {
      SubmittedElse(q, a);
    }
  }

  lemma SubmittedOwn(q: Q.State<Task>, a: Q.Act<Task>)
    requires (a.Push? || a.Prod?) && a.i < |q.prods| == |Q.Step(q, a).prods|
    ensures var q' := Q.Step(q, a);
            |q'.submitted| - |q.submitted| ==
            |q'.order| - |q.order| + |T.OnItsWay(q'.prods[a.i])| - |T.OnItsWay(q.prods[a.i])|
  {
  }

  lemma SubmittedElse(q: Q.State<Task>, a: Q.Act<Task>)
    requires a.Pop? || a.Cons? || a.i >= |q.prods|
    ensures var q' := Q.Step(q, a); q'.submitted == q.submitted && q'.order == q.order && q'.prods == q.prods
  {
  }

  // ---- the counter, and who parks ----

  // The counter tells what the live chain holds and what is in flight.
  ghost predicate CounterTells(s: State) {
    exists taken, live :: T.Queued(s.queue, taken, live) && CounterExact(s, taken)
  }

  // Once settled, it is the number of values in the live chain.
  ghost predicate CounterSettles(s: State) {
    Settled(s) ==>
      exists taken, live :: T.Queued(s.queue, taken, live) && s.counter == Wrap(|T.Waiting(s.queue, taken)|)
  }

  // Once settled, a worker that evaluates the wait predicate stays parked exactly when the live chain
  // carries no value.
  ghost predicate ParksRightly(s: State, w: nat) {
    Settled(s) && w < |s.workers| && s.workers[w].WPark? && !s.done && |s.queue.order| < SIZE ==>
      exists taken, live ::
        T.Queued(s.queue, taken, live) && (Step(s, Work(w)).workers[w].WPark? <==> T.Waiting(s.queue, taken) == [])
  }

  // The counter tells the truth on every run, in flight and at rest, if and only if recycling is
  // confined to one submitter and one worker.
  lemma CounterExactly(recycle: bool, subs: nat, workers: nat, task: Task)
    requires subs >= 1 && workers >= 1
    ensures (forall acts :: CounterTells(Reached(recycle, subs, workers, acts))) <==> T.Safe(recycle, subs, workers)
    ensures (forall acts :: CounterSettles(Reached(recycle, subs, workers, acts))) <==> T.Safe(recycle, subs, workers)
  {
    if T.Safe(recycle, subs, workers) {
      forall acts ensures CounterTells(Reached(recycle, subs, workers, acts)) {
        var taken, live := CounterInFlight(recycle, subs, workers, acts);
      }
      forall acts ensures CounterSettles(Reached(recycle, subs, workers, acts)) {
        if Settled(Reached(recycle, subs, workers, acts)) {
          var taken, live := CounterAtRest(recycle, subs, workers, acts);
        }
      }
    } else {
      var acts := TasksLost(subs, workers, task);
      CounterLies(Reached(true, subs, workers, acts));
    }
  }

  lemma CounterLies(s: State)
    requires Abandons(s) && s.counter > 0
    ensures !CounterTells(s) && !CounterSettles(s)
  {
    IdleSettled(s);
    forall taken: nat, live | T.Queued(s.queue, taken, live)
      ensures !CounterExact(s, taken) && s.counter != Wrap(|T.Waiting(s.queue, taken)|)
    {
      NothingLeft(s.queue, taken, live);
      assert T.Waiting(s.queue, taken) == [];
      WrapIs(0, 0, 0);
      if CounterExact(s, taken) { NothingOwed(s, taken); }
    }
  }

  lemma IdleSettled(s: State)
    requires Resting(s) && Q.AllIdle(s.queue)
    ensures Settled(s)
  {
  }

  // Tail_ is on node t, or about to be put back there; t has no successor and no value; nobody pushes,
  // and whoever pops is on the way to coming back empty.
  ghost predicate Spent(q: Q.State<Task>, t: nat) {
    && t < |q.heap| && q.heap[t].next == None && !q.heap[t].hasValue
    && (q.tail == None || q.tail == Some(t))
    && (forall i :: 0 <= i < |q.prods| ==> q.prods[i].PIdle?)
    && (forall j :: 0 <= j < |q.cons| ==> PopsNothing(q.cons[j], t))
  }

  predicate PopsNothing(c: Q.Consumer<Task>, t: nat) {
    c == Q.CIdle || c == Q.CTail || c == Q.CNext(t) || c == Q.CCas(t, None) || c == Q.CTake(t, None) ||
    c == Q.CDone(t, None, None)
  }

  // All workers go round between empty pops and the wait predicate, which the counter opens.
  ghost predicate Spins(s: State, t: nat) {
    && Match(s) && !s.done && s.counter > 0 && Spent(s.queue, t)
    && (forall i :: 0 <= i < |s.subs| ==> s.subs[i].SIdle?)
    && (forall w :: 0 <= w < |s.workers| ==> s.workers[w].WPop? || s.workers[w].WPopping? || s.workers[w].WPark?)
  }

  lemma SpentStep(q: Q.State<Task>, t: nat, j: nat)
    requires Spent(q, t) && j < |q.cons|
    ensures var q' := Q.Step(q, Q.Cons(j));
            && Spent(q', t) && |q'.cons| == |q.cons| && q'.submitted == q.submitted && q'.order == q.order
            && (q'.cons[j].CIdle? && !q.cons[j].CIdle? ==> q'.results == q.results + [None])
  {
    var q' := Q.Step(q, Q.Cons(j));
    OthersStay(q, Q.Cons(j));
    assert PopsNothing(q.cons[j], t);
    SpentTurn(q, t, j, q');
    forall k | 0 <= k < |q'.cons| ensures PopsNothing(q'.cons[k], t) {
      if k != j { assert PopsNothing(q.cons[k], t); }
    }
  }

  lemma SpentTurn(q: Q.State<Task>, t: nat, j: nat, q': Q.State<Task>)
    requires j < |q.cons| && q' == Q.Step(q, Q.Cons(j)) && PopsNothing(q.cons[j], t)
    requires t < |q.heap| && q.heap[t].next == None && !q.heap[t].hasValue && (q.tail == None || q.tail == Some(t))
    ensures q'.heap == q.heap && (q'.tail == None || q'.tail == Some(t)) && q'.order == q.order
    ensures |q'.cons| == |q.cons| && PopsNothing(q'.cons[j], t)
    ensures q'.cons[j].CIdle? && !q.cons[j].CIdle? ==> q'.results == q.results + [None]
  {
  }

  lemma SpinStep(s: State, t: nat, a: Act)
    requires Spins(s, t) && (a.Sub? || a.Work?)
    ensures var s' := Step(s, a);
            && Spins(s', t) && s'.ran == s.ran && s'.counter == s.counter && |s'.workers| == |s.workers|
            && s'.queue.submitted == s.queue.submitted
  {
    StepMatch(s, a);
    if a.Work? && a.w < |s.workers| {
      var w := a.w;
      if s.workers[w].WPopping? {
        SpentStep(s.queue, t, w);
      } else if s.workers[w].WPop? {
        var q' := Q.Step(s.queue, Q.Pop(w));
        forall k | 0 <= k < |q'.cons| ensures PopsNothing(q'.cons[k], t) {
          assert PopsNothing(s.queue.cons[k], t);
        }
      }
    }
  }

  // Without a new submission or a shutdown, the workers go on popping for ever: nothing more is run,
  // nobody leaves, and whoever evaluates the wait predicate goes straight back to `pop`.
  lemma {:induction false} SpinsForEver(s: State, t: nat, acts: seq<Act>)
    requires Spins(s, t) && forall a :: a in acts ==> a.Sub? || a.Work?
    ensures var s' := Run(s, acts);
            && Spins(s', t) && s'.ran == s.ran && s'.counter == s.counter && |s'.workers| == |s.workers|
            && s'.queue.submitted == s.queue.submitted
            && (forall w :: 0 <= w < |s'.workers| && s'.workers[w].WPark? ==> Step(s', Work(w)).workers[w].WPop?)
    decreases |acts|
  {
    if acts != [] {
      var n := |acts| - 1;
      SpinsForEver(s, t, acts[..n]);
      assert acts[n] in acts;
      SpinStep(Run(s, acts[..n]), t, acts[n]);
    }
  }

  // So when submitters or workers share recycled nodes, there is a run after which, until a new
  // submission or a shutdown, tasks stay unrun and no worker parks, whatever is scheduled.
  lemma NeverParks(subs: nat, workers: nat, task: Task) returns (before: seq<Act>)
    requires subs >= 1 && workers >= 1 && (subs >= 2 || workers >= 2)
    ensures forall acts: seq<Act> :: (forall a :: a in acts ==> a.Sub? || a.Work?) ==>
              ForNothing(Reached(true, subs, workers, before + acts))
  {
    before := TasksLost(subs, workers, task);
    var s := Reached(true, subs, workers, before);
    var t := s.queue.tail.value;
    AbandonedSpins(s, t);
    forall acts: seq<Act> | forall a :: a in acts ==> a.Sub? || a.Work?
      ensures ForNothing(Reached(true, subs, workers, before + acts))
    {
      SpinsForEver(s, t, acts);
      Joined(Start(true, subs, workers), before, acts);
    }
  }

  // Tasks are unrun, no worker has left, and none stays parked.
  ghost predicate ForNothing(s: State) {
    && |s.ran| < |s.queue.submitted|
    && (forall w :: 0 <= w < |s.workers| ==>
          !s.workers[w].WExit? && (s.workers[w].WPark? ==> Step(s, Work(w)).workers[w].WPop?))
  }

  lemma AbandonedSpins(s: State, t: nat)
    requires Abandons(s) && s.queue.tail == Some(t)
    ensures Spins(s, t)
  {
    assert forall j :: 0 <= j < |s.queue.cons| ==> PopsNothing(s.queue.cons[j], t);
  }

  // A parked worker stays parked exactly when there is nothing to pop, on every run, if and only if
  // recycling is confined to one submitter and one worker.
  lemma ParksExactly(recycle: bool, subs: nat, workers: nat, task: Task)
    requires subs >= 1 && workers >= 1
    ensures (forall acts, w: nat :: ParksRightly(Reached(recycle, subs, workers, acts), w))
            <==> T.Safe(recycle, subs, workers)
  {
    if T.Safe(recycle, subs, workers) {
      forall acts, w: nat ensures ParksRightly(Reached(recycle, subs, workers, acts), w) {
        var s := Reached(recycle, subs, workers, acts);
        if Settled(s) && w < |s.workers| && s.workers[w].WPark? && !s.done && |s.queue.order| < SIZE {
          var taken, live := ParksExactlyWhenDrained(recycle, subs, workers, acts, w);
        }
      }
    } else {
      var before := TasksLost(subs, workers, task);
      var s := Reached(true, subs, workers, before);
      RunSizes(Start(true, subs, workers), before);
      var acts, s' := EmptyPop(Start(true, subs, workers), before, s, s.queue.tail.value);
      WakesForNothing(s', s.queue.tail.value);
      assert !ParksRightly(Reached(true, subs, workers, acts), 0);
    }
  }

  // Worker 0 has come back from an empty pop and stands before the wait predicate; all others rest.
  ghost predicate BeforeParking(s: State, t: nat) {
    && Spins(s, t) && Loses(s.queue) && s.queue.tail == Some(t) && |s.queue.order| < SIZE
    && |s.workers| >= 1 && s.workers[0].WPark?
  }

  lemma WakesForNothing(s: State, t: nat)
    requires BeforeParking(s, t)
    ensures !ParksRightly(s, 0)
  {
    assert Settled(s) by {
      forall w | 0 <= w < |s.workers| ensures !AbsWorkers(s)[w].WSub? {
        assert PopsNothing(s.queue.cons[w], t);
      }
    }
    forall taken: nat, live | T.Queued(s.queue, taken, live) ensures T.Waiting(s.queue, taken) == [] {
      NothingLeft(s.queue, taken, live);
    }
    assert Step(s, Work(0)).workers[0].WPop?;
  }

  // Worker 0 is inside a pop that finds nothing, and everybody else rests.
  ghost predicate Alone(s: State, t: nat, c: Q.Consumer<Task>, tail: Q.Ptr, y: Worker) {
    && Spins(s, t) && |s.workers| >= 1 && s.queue.cons[0] == c && s.queue.tail == tail && s.workers[0] == y
    && (forall j :: 1 <= j < |s.queue.cons| ==> s.queue.cons[j].CIdle?)
    && |Somes(s.queue.results)| < |s.queue.order| < SIZE
  }

  lemma AloneTurn(s: State, t: nat, c: Q.Consumer<Task>, tail: Q.Ptr, y: Worker)
    requires Alone(s, t, c, tail, y) && (y.WPop? || y.WPopping?)
    requires tail == if c.CTake? || c.CDone? then None else Some(t)
    ensures var s' := Step(s, Work(0));
            match c
            case CIdle => Alone(s', t, Q.CTail, Some(t), WPopping)
            case CTail => Alone(s', t, Q.CNext(t), Some(t), WPopping)
            case CNext(_) => Alone(s', t, Q.CCas(t, None), Some(t), WPopping)
            case CCas(_, _) => Alone(s', t, Q.CTake(t, None), None, WPopping)
            case CTake(_, _) => Alone(s', t, Q.CDone(t, None, None), None, WPopping)
            case CDone(_, _, _) => Alone(s', t, Q.CIdle, Some(t), WPark)
            case _ => false
  {
    SpinStep(s, t, Work(0));
    assert PopsNothing(s.queue.cons[0], t);
    if y.WPopping? {
      OthersStay(s.queue, Q.Cons(0));
      SpentStep(s.queue, t, 0);
      SomesAppend(s.queue.results, [None]);
      assert Somes<Task>([None]) == [];
      OneResult(s.queue, 0);
    }
  }

  lemma EmptyPop(s0: State, acts: seq<Act>, s: State, t: nat) returns (acts': seq<Act>, s': State)
    requires Run(s0, acts) == s && Abandons(s) && s.queue.tail == Some(t) && |s.workers| >= 1
    requires |s.queue.order| < SIZE
    ensures Run(s0, acts') == s' && BeforeParking(s', t)
  {
    AbandonedSpins(s, t);
    acts', s' := acts, s;
    AloneTurn(s', t, Q.CIdle, Some(t), WPop);
    acts', s' := More(s0, acts', s', Work(0));
    AloneTurn(s', t, Q.CTail, Some(t), WPopping);
    acts', s' := More(s0, acts', s', Work(0));
    AloneTurn(s', t, Q.CNext(t), Some(t), WPopping);
    acts', s' := More(s0, acts', s', Work(0));
    acts', s' := EmptyPopEnd(s0, acts', s', t);
  }

  lemma EmptyPopEnd(s0: State, acts: seq<Act>, s: State, t: nat) returns (acts': seq<Act>, s': State)
    requires Run(s0, acts) == s && Alone(s, t, Q.CCas(t, None), Some(t), WPopping)
    ensures Run(s0, acts') == s' && BeforeParking(s', t)
  {
    acts', s' := acts, s;
    AloneTurn(s', t, Q.CCas(t, None), Some(t), WPopping);
    acts', s' := More(s0, acts', s', Work(0));
    AloneTurn(s', t, Q.CTake(t, None), None, WPopping);
    acts', s' := More(s0, acts', s', Work(0));
    AloneTurn(s', t, Q.CDone(t, None, None), None, WPopping);
    acts', s' := More(s0, acts', s', Work(0));
  }

  // Tasks run in the order of the exchanges on every run if and only if there is a single worker and,
  // if nodes are recycled, a single submitter.
  lemma OrderExactly(recycle: bool, subs: nat, workers: nat, t: Task, u: Task)
    requires subs >= 1 && workers >= 1 && t != u
    ensures (forall acts :: var s := Reached(recycle, subs, workers, acts); s.ran <= s.queue.order)
            <==> workers == 1 && T.Safe(recycle, subs, workers)
  {
    if workers == 1 && T.Safe(recycle, subs, workers) {
      forall acts ensures var s := Reached(recycle, subs, workers, acts); s.ran <= s.queue.order {
        OneWorkerInOrder(recycle, subs, acts);
      }
    } else {
      var qs := OrderLost(recycle, 0, subs, workers, t, u);
      var acts := LiftRun(recycle, subs, workers, qs);
      var s := Reached(recycle, subs, workers, acts);
      assert !(s.ran <= s.queue.order);
    }
  }

  lemma More(s0: State, acts: seq<Act>, s: State, a: Act) returns (acts': seq<Act>, s': State)
    requires Run(s0, acts) == s
    ensures s' == Step(s, a) == Run(s0, acts')
  {
    acts', s' := acts + [a], Step(s, a);
    assert acts'[..|acts|] == acts;
  }

  // A pool with one submitter and one worker, nothing counted and nothing returned yet.
  ghost predicate Looks(s: State, heap: seq<Q.Node<Task>>, head: Q.Ptr, tail: Q.Ptr, p: Q.Producer<Task>,
                        c: Q.Consumer<Task>, y: Submitter, z: Worker) {
    && s.queue.heap == heap && s.queue.head == head && s.queue.tail == tail && s.queue.free == None
    && s.queue.prods == [p] && s.queue.cons == [c] && s.subs == [y] && s.workers == [z]
    && s.queue.results == [] && s.counter == 0
  }

  // The counter does wrap: a worker pops and subtracts between the push and the addition.
  lemma CounterWraps(recycle: bool, task: Task) returns (acts: seq<Act>)
    ensures Reached(recycle, 1, 1, acts).counter == SIZE - 1
  {
    var s0 := Start(recycle, 1, 1);
    var s;
    acts, s := NodeAllocated(recycle, task);
    acts, s := NodeChecked(s0, acts, s, task);
    acts, s := NodeFilled(s0, acts, s, task);
    acts, s := NodeFlagged(s0, acts, s, task);
    acts, s := NodeSwapped(s0, acts, s, task);
    acts, s := NodePublished(s0, acts, s, task);
    acts, s := NodeFound(s0, acts, s, task);
    acts, s := NodeTaken(s0, acts, s, task);
    TaskReturned(s, task);
    acts, s := More(s0, acts, s, Work(0));
    acts := TaskSubtracted(s0, acts, s, task);
  }

  lemma NodeAllocated(recycle: bool, task: Task) returns (acts: seq<Act>, s: State)
    ensures s == Reached(recycle, 1, 1, acts)
    ensures Looks(s, [Q.Node(None, false, None)], None, None, Q.PCheck(task, 0), Q.CIdle, SPush, WPop)
  {
    var s0 := Start(recycle, 1, 1);
    assert Looks(s0, [], None, None, Q.PIdle, Q.CIdle, SIdle, WPop);
    acts, s := More(s0, [], s0, Submit(0, task));
    assert Looks(s, [], None, None, Q.PFree(task), Q.CIdle, SPush, WPop);
    acts, s := More(s0, acts, s, Sub(0));
    assert Looks(s, [], None, None, Q.PNext(task, None), Q.CIdle, SPush, WPop);
    acts, s := More(s0, acts, s, Sub(0));
  }

  lemma NodeChecked(s0: State, acts: seq<Act>, s: State, task: Task) returns (acts': seq<Act>, s': State)
    requires Run(s0, acts) == s
    requires Looks(s, [Q.Node(None, false, None)], None, None, Q.PCheck(task, 0), Q.CIdle, SPush, WPop)
    ensures Run(s0, acts') == s'
    ensures Looks(s', [Q.Node(None, false, None)], None, None, Q.PWrite(task, 0), Q.CIdle, SPush, WPop)
  {
    acts', s' := More(s0, acts, s, Sub(0));
  }

  lemma NodeFilled(s0: State, acts: seq<Act>, s: State, task: Task) returns (acts': seq<Act>, s': State)
    requires Run(s0, acts) == s
    requires Looks(s, [Q.Node(None, false, None)], None, None, Q.PWrite(task, 0), Q.CIdle, SPush, WPop)
    ensures Run(s0, acts') == s'
    ensures Looks(s', [Q.Node(None, false, Some(task))], None, None, Q.PFlag(task, 0), Q.CIdle, SPush, WPop)
  {
    acts', s' := More(s0, acts, s, Sub(0));
  }

  lemma NodeFlagged(s0: State, acts: seq<Act>, s: State, task: Task) returns (acts': seq<Act>, s': State)
    requires Run(s0, acts) == s
    requires Looks(s, [Q.Node(None, false, Some(task))], None, None, Q.PFlag(task, 0), Q.CIdle, SPush, WPop)
    ensures Run(s0, acts') == s'
    ensures Looks(s', [Q.Node(None, true, Some(task))], None, None, Q.PSwap(task, 0), Q.CIdle, SPush, WPop)
  {
    acts', s' := More(s0, acts, s, Sub(0));
  }

  lemma NodeSwapped(s0: State, acts: seq<Act>, s: State, task: Task) returns (acts': seq<Act>, s': State)
    requires Run(s0, acts) == s
    requires Looks(s, [Q.Node(None, true, Some(task))], None, None, Q.PSwap(task, 0), Q.CIdle, SPush, WPop)
    ensures Run(s0, acts') == s'
    ensures Looks(s', [Q.Node(None, true, Some(task))], Some(0), None, Q.PLink(0, None), Q.CIdle, SPush, WPop)
  {
    acts', s' := More(s0, acts, s, Sub(0));
  }

  lemma NodePublished(s0: State, acts: seq<Act>, s: State, task: Task) returns (acts': seq<Act>, s': State)
    requires Run(s0, acts) == s
    requires Looks(s, [Q.Node(None, true, Some(task))], Some(0), None, Q.PLink(0, None), Q.CIdle, SPush, WPop)
    ensures Run(s0, acts') == s'
    ensures Looks(s', [Q.Node(None, true, Some(task))], Some(0), Some(0), Q.PIdle, Q.CIdle, SAdd, WPop)
  {
    acts', s' := More(s0, acts, s, Sub(0));
  }

  lemma NodeFound(s0: State, acts: seq<Act>, s: State, task: Task) returns (acts': seq<Act>, s': State)
    requires Run(s0, acts) == s
    requires Looks(s, [Q.Node(None, true, Some(task))], Some(0), Some(0), Q.PIdle, Q.CIdle, SAdd, WPop)
    ensures Run(s0, acts') == s'
    ensures Looks(s', [Q.Node(None, true, Some(task))], Some(0), Some(0), Q.PIdle, Q.CCas(0, None), SAdd, WPopping)
  {
    acts', s' := More(s0, acts, s, Work(0));
    assert Looks(s', [Q.Node(None, true, Some(task))], Some(0), Some(0), Q.PIdle, Q.CTail, SAdd, WPopping);
    acts', s' := More(s0, acts', s', Work(0));
    assert Looks(s', [Q.Node(None, true, Some(task))], Some(0), Some(0), Q.PIdle, Q.CNext(0), SAdd, WPopping);
    acts', s' := More(s0, acts', s', Work(0));
  }

  lemma NodeTaken(s0: State, acts: seq<Act>, s: State, task: Task) returns (acts': seq<Act>, s': State)
    requires Run(s0, acts) == s
    requires Looks(s, [Q.Node(None, true, Some(task))], Some(0), Some(0), Q.PIdle, Q.CCas(0, None), SAdd, WPopping)
    ensures Run(s0, acts') == s' && s'.queue.cons == [Q.CDone(0, None, Some(task))] && s'.queue.results == []
    ensures s'.workers == [WPopping] && s'.counter == 0
  {
    acts', s' := More(s0, acts, s, Work(0));
    assert Looks(s', [Q.Node(None, true, Some(task))], Some(0), None, Q.PIdle, Q.CTake(0, None), SAdd, WPopping);
    acts', s' := More(s0, acts', s', Work(0));
    assert Looks(s', [Q.Node(None, false, Some(task))], Some(0), None, Q.PIdle, Q.CMove(0, None), SAdd, WPopping);
    acts', s' := More(s0, acts', s', Work(0));
  }

  lemma TaskReturned(s: State, task: Task)
    requires s.queue.cons == [Q.CDone(0, None, Some(task))] && s.queue.results == []
    requires s.workers == [WPopping] && s.counter == 0
    ensures Step(s, Work(0)).workers == [WSub(task)] && Step(s, Work(0)).counter == 0
  {
    var q := Q.Step(s.queue, Q.Cons(0));
    assert q.results == [Some(task)] && q.cons == [Q.CIdle];
  }

  lemma TaskSubtracted(s0: State, acts: seq<Act>, s: State, task: Task) returns (acts': seq<Act>)
    requires Run(s0, acts) == s && s.workers == [WSub(task)] && s.counter == 0
    ensures Run(s0, acts').counter == SIZE - 1
  {
    SubtractTurn(s, task);
    MinusOne();
    var s1;
    acts', s1 := More(s0, acts, s, Work(0));
  }

  lemma SubtractTurn(s: State, task: Task)
    requires s.workers == [WSub(task)] && s.counter == 0
    ensures Step(s, Work(0)).counter == Wrap(-1)
  {
  }

  lemma MinusOne()
    ensures Wrap(-1) == SIZE - 1
  {
    WrapIs(-1, -1, SIZE - 1);
  }
}
