/** How the workers of `BlockingPool` end. */
module PoolShutdown {
  import opened Options
  import opened Sequences
  import T = QueueTheorems
  import opened QueueFinish
  import opened BlockingPool
  import Q = QueueMachine
  import I = QueueInvariant

  ghost predicate LeftOnlyWhenDone(s: State) {
    forall w :: 0 <= w < |s.workers| && s.workers[w].WExit? ==> s.done
  }

  lemma LeftStep(s: State, a: Act)
    requires LeftOnlyWhenDone(s)
    ensures LeftOnlyWhenDone(Step(s, a)) && (s.done ==> Step(s, a).done)
  {
  }

  // Any submitters and workers, recycling or not: on every run a worker has left only if the pool was
  // shut down.
  lemma {:induction false} LeaveOnlyAfterShutdown(recycle: bool, subs: nat, workers: nat, acts: seq<Act>)
    ensures LeftOnlyWhenDone(Reached(recycle, subs, workers, acts))
    ensures Reached(recycle, subs, workers, acts).done ==> Shutdown in acts
    decreases |acts|
  {
    if acts != [] {
      var n := |acts| - 1;
      LeaveOnlyAfterShutdown(recycle, subs, workers, acts[..n]);
      LeftStep(Reached(recycle, subs, workers, acts[..n]), acts[n]);
      DoneBy(Reached(recycle, subs, workers, acts[..n]), acts[n]);
      assert acts == acts[..n] + [acts[n]];
    }
  }

  lemma DoneBy(s: State, a: Act)
    ensures Step(s, a).done <==> s.done || a == Shutdown
  {
  }

  // ---- once shut down, a worker leaves ----

  // How far a worker is from leaving, apart from the values still waiting.
  function Rank(s: State, w: nat): nat
    requires w < |s.workers| == |s.queue.cons|
  {
    match s.workers[w]
    case WExit => 0
    case WPark => 1
    case WPopping => PopRank(s.queue, w) + if T.Hand(s.queue, w).Some? then 14 else 1
    case WPop => 12
    case WRun(_) => 13
    case WSub(_) => 14
  }

  function Distance(s: State, taken: nat, w: nat): nat
    requires w < |s.workers| == |s.queue.cons|
  {
    30 * |T.Waiting(s.queue, taken)| + Rank(s, w)
  }

  lemma PoppingTurn(s: State, w: nat, taken: nat, taken': nat)
    requires Match(s) && w < |s.workers| && s.workers[w].WPopping? && Match(StepWork(s, w))
    requires var q' := Q.Step(s.queue, Q.Cons(w));
             T.FifoMove(s.queue, T.Waiting(s.queue, taken), Q.Cons(w), q', T.Waiting(q', taken'))
    ensures |StepWork(s, w).workers| == |s.workers| && Distance(StepWork(s, w), taken', w) < Distance(s, taken, w)
  {
    var q, q' := s.queue, Q.Step(s.queue, Q.Cons(w));
    OthersStay(q, Q.Cons(w));
    PopTurn(q, w);
    assert T.Hands(q)[w] == T.Hand(q, w) && T.Hands(q')[w] == T.Hand(q', w);
    RankBound(q', w);
    if q'.cons[w].CIdle? { assert q'.results[|q'.results| - 1] == T.Hand(q, w); }
  }

  lemma RankBound(q: Q.State<Task>, w: nat)
    requires w < |q.cons|
    ensures PopRank(q, w) <= 10
  {
  }

  lemma OtherTurn(s: State, w: nat, taken: nat)
    requires Match(s) && w < |s.workers| && s.done && !s.workers[w].WPopping? && !s.workers[w].WExit?
    ensures |StepWork(s, w).workers| == |s.workers| == |StepWork(s, w).queue.cons|
    ensures Distance(StepWork(s, w), taken, w) < Distance(s, taken, w)
  {
  }

  lemma Nearer(s: State, g: I.View, w: nat) returns (g': I.View)
    requires Match(s) && T.Good(s.queue, g) && s.done && w < |s.workers| && !s.workers[w].WExit?
    ensures var s' := Step(s, Work(w));
            && Match(s') && T.Good(s'.queue, g') && s'.done && |s'.workers| == |s.workers|
            && Distance(s', g'.taken, w) < Distance(s, g.taken, w)
  {
    StepMatch(s, Work(w));
    if s.workers[w].WPopping? {
      g' := NearerInPop(s, g, w);
    } else {
      g' := g;
      PlainWorkQueue(s, g, w);
      OtherTurn(s, w, g.taken);
    }
  }

  lemma NearerInPop(s: State, g: I.View, w: nat) returns (g': I.View)
    requires Match(s) && T.Good(s.queue, g) && w < |s.workers| && s.workers[w].WPopping? && Match(StepWork(s, w))
    ensures var s' := StepWork(s, w);
            T.Good(s'.queue, g') && |s'.workers| == |s.workers| && Distance(s', g'.taken, w) < Distance(s, g.taken, w)
  {
    g' := I.Track(s.queue, g, Q.Cons(w));
    T.StepGood(s.queue, g, Q.Cons(w));
    T.FifoStep(s.queue, g, Q.Cons(w));
    PoppingTurn(s, w, g.taken, g'.taken);
  }

  function Works(w: nat, n: nat): seq<Act> { seq(n, _ => Work(w)) }

  lemma OneMore(s0: State, acts: seq<Act>, w: nat, n: nat)
    ensures Run(s0, acts + [Work(w)]) == Step(Run(s0, acts), Work(w))
    ensures (acts + [Work(w)]) + Works(w, n) == acts + Works(w, n + 1)
  {
    assert (acts + [Work(w)])[..|acts|] == acts;
  }

  ghost predicate Ready(s: State, g: I.View, w: nat) {
    Match(s) && T.Good(s.queue, g) && s.done && w < |s.workers|
  }

  lemma {:induction false} Leaves(s0: State, acts: seq<Act>, g: I.View, w: nat) returns (n: nat)
    requires Ready(Run(s0, acts), g, w)
    ensures var s' := Run(s0, acts + Works(w, n)); w < |s'.workers| && s'.workers[w].WExit?
    decreases Distance(Run(s0, acts), g.taken, w)
  {
    var s := Run(s0, acts);
    if s.workers[w].WExit? {
      n := 0;
      assert acts + Works(w, 0) == acts;
    } else {
      var g' := Nearer(s, g, w);
      OneMore(s0, acts, w, 0);
      var m := Leaves(s0, acts + [Work(w)], g', w);
      OneMore(s0, acts, w, m);
      n := m + 1;
    }
  }

  // One submitter and one worker, or nodes never recycled: in every state reached after a shutdown, a
  // worker that gets enough turns has left.
  lemma LeavesAfterShutdown(recycle: bool, subs: nat, workers: nat, acts: seq<Act>, w: nat) returns (n: nat)
    requires T.Safe(recycle, subs, workers) && w < workers
    requires Reached(recycle, subs, workers, acts).done
    ensures var s := Reached(recycle, subs, workers, acts + Works(w, n));
            w < |s.workers| && s.workers[w].WExit?
  {
    var g, acts' := Refines(recycle, subs, workers, acts);
    StartAbs(recycle, subs, workers, 0);
    RunSizes(Start(recycle, subs, workers), acts);
    n := Leaves(Start(recycle, subs, workers), acts, g, w);
  }
}
