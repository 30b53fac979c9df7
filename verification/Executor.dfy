/** The pool's queue and counter as fields of the executor, with one worker run without
    interruption on the real queue, spurious empty pops included. */
module Executor {
  import opened Options
  import opened Words
  import QueueSpec
  import LfQueue
  import opened PoolSpec

  class Pool {
    const tasks: LfQueue.Queue<Task>
    var waiting: nat
    var done: bool

    ghost predicate Valid()
      reads this, tasks, tasks.nodes, tasks.recycled, tasks.recycled.nodes
    {
      tasks.Valid() && waiting < SIZE
    }

    constructor ()
      ensures Valid() && tasks.Abs() == QueueSpec.Fresh(0) && waiting == 0 && !done
    {
      tasks := new LfQueue.Queue<Task>(0);
      waiting, done := 0, false;
    }

    method RunBlocking(task: Task)
      requires Valid()
      modifies this, tasks, tasks.recycled, tasks.All()
      ensures Valid() && done == old(done)
      ensures tasks.Abs() == QueueSpec.Push(old(tasks.Abs()), task)
      ensures waiting == Wrap(old(waiting) + 1)
    {
      tasks.Push(task);
      waiting := Wrap(waiting + 1);
    }

    // A worker's `pop`, with the counter brought down when it found a task.
    method NextTask() returns (task: Option<Task>)
      requires Valid() && waiting == |tasks.Abs().vals|
      modifies `waiting, tasks, tasks.recycled, tasks.All()
      ensures Valid() && waiting == |tasks.Abs().vals| && tasks.All() == old(tasks.All())
      ensures tasks.Abs() == QueueSpec.Pop(old(tasks.Abs())).0 && task == QueueSpec.Pop(old(tasks.Abs())).1
    {
      PopCases(tasks.Abs());
      task := tasks.Pop();
      if task.Some? {
        waiting := Wrap(waiting - 1);
      }
    }

    // The loop of one worker, until it parks or leaves, started with the counter equal to the queue
    // length.  Unless shutting down it runs every queued task in submission order and parks with
    // the counter at 0, after one empty pop, or two if the front node was spent: the counter is
    // what brings it back from the spurious one.  When shutting down it leaves at its first empty
    // pop, and a spent front makes it leave every queued task behind.
    method BlockingWork() returns (ran: seq<Task>, emptyPops: nat)
      requires Valid() && waiting == |tasks.Abs().vals|
      modifies `waiting, tasks, tasks.recycled, tasks.All()
      ensures Valid() && waiting == |tasks.Abs().vals| && ran + tasks.Abs().vals == old(tasks.Abs().vals)
      ensures !done ==> waiting == 0 && emptyPops == 1 + old(QueueSpec.Delay(tasks.Abs()))
      ensures done ==> emptyPops == 1 && ran == if old(tasks.Abs().spent) then [] else old(tasks.Abs().vals)
    {
      ran, emptyPops := [], 0;
      ghost var q0 := tasks.Abs();
      var stop := false;
      while !stop
        invariant Valid() && waiting == |tasks.Abs().vals| && tasks.All() == old(tasks.All())
        invariant Progress(q0, tasks.Abs(), ran, emptyPops, done, stop)
        decreases !stop, |tasks.Abs().vals|, QueueSpec.Delay(tasks.Abs())
      {
        ghost var q := tasks.Abs();
        var task := NextTask();
        Progresses(q0, q, ran, emptyPops, done);
        if task.Some? {
          ran := ran + [task.value];
        } else {
          emptyPops := emptyPops + 1;
          // The wait predicate lets the worker through to the test of `done`, or back to the queue.
          stop := done || waiting == 0;
        }
      }
    }
  }

  ghost predicate Progress(q0: QueueSpec.QState<Task>, q: QueueSpec.QState<Task>, ran: seq<Task>,
                           emptyPops: nat, done: bool, stop: bool) {
    && ran + q.vals == q0.vals
    && (!done ==>
          && emptyPops == QueueSpec.Delay(q0) - QueueSpec.Delay(q) + (if stop then 1 else 0)
          && (stop ==> q.vals == []))
    && (done ==>
          && emptyPops == (if stop then 1 else 0)
          && (!stop ==> if q0.spent then q == q0 && ran == [] else q.spent ==> q.vals == [])
          && (stop ==> ran == if q0.spent then [] else q0.vals))
  }

  lemma Progresses(q0: QueueSpec.QState<Task>, q: QueueSpec.QState<Task>, ran: seq<Task>, emptyPops: nat, done: bool)
    requires Progress(q0, q, ran, emptyPops, done, false)
    ensures var (q1, r) := QueueSpec.Pop(q);
            if r.Some? then
              && Progress(q0, q1, ran + [r.value], emptyPops, done, false) && |q1.vals| == |q.vals| - 1
            else
              && Progress(q0, q1, ran, emptyPops + 1, done, done || q.vals == []) && q1.vals == q.vals
              && (q.vals != [] ==> QueueSpec.Delay(q1) < QueueSpec.Delay(q))
  {
    PopCases(q);
    var (q1, r) := QueueSpec.Pop(q);
    if r.Some? { assert (ran + [r.value]) + q1.vals == ran + q.vals; }
  }

  lemma PopCases(q: QueueSpec.QState<Task>)
    ensures var (q1, r) := QueueSpec.Pop(q);
            && (if r.Some? then q.vals == [r.value] + q1.vals && QueueSpec.Delay(q) == 0 else q1.vals == q.vals)
            && QueueSpec.Delay(q1) == 0 && (q1.spent ==> q1.vals == [])
            && (r.None? && q.vals != [] ==> q.spent && QueueSpec.Delay(q) == 1)
            && (r.None? <==> q.vals == [] || q.spent)
  {
  }
}
