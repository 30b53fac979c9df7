/** `shared_mutex`: one word packs a writer bit and a count of readers.  Any number of tasks below
    2^63, interleaved at every atomic operation on the word. */
module SharedMutexSystem {
  import opened Words

  // EX_BIT, the top bit of the word.
  const EX: nat := 0x8000_0000_0000_0000

  function FetchAdd(w: nat, d: nat): nat { Wrap(w + d) }

  function FetchSub(w: nat, d: nat): nat { Wrap(w - d) }

  lemma AddSub(w: nat)
    requires w < SIZE
    ensures FetchSub(FetchAdd(w, 1), 1) == w
  {
    Around(w + 1);
    WrapIs(w, 0, w);
  }

  // (w & EX_BIT) != 0
  predicate HasEx(w: nat) { w / EX % 2 == 1 }

  // w & ~EX_BIT
  function Low(w: nat): nat { w % EX }

  // w | EX_BIT
  function WithEx(w: nat): nat { if HasEx(w) then w else w + EX }

  datatype Task =
    | Idle
    | Reading            // `try_lock_shared` returned true
    | Retreating         // it saw the writer bit and has yet to take its 1 back
    | Claiming(seen: nat) // in the loop of the first `await_ready`, with this copy of the word
    | Pending            // claimed: later calls of `await_ready` poll
    | Owning             // `try_lock` or a poll returned true

  datatype State = State(word: nat, tasks: seq<Task>)

  // Each is one atomic operation on the word, by a task that is in the right place for it.
  datatype Act =
    | TryLock(t: nat) | Unlock(t: nat)
    | TryShared(t: nat) | Retreat(t: nat) | UnlockShared(t: nat)
    | Ask(t: nat) | Claim(t: nat) | Poll(t: nat)

  function Step(s: State, a: Act): State {
    if a.t >= |s.tasks| then s
    else
      var me := s.tasks[a.t];
      match a
      case TryLock(t) =>
        if me.Idle? && s.word == 0 then State(EX, s.tasks[t := Owning]) else s
      case Unlock(t) =>
        if me.Owning? then State(FetchSub(s.word, EX), s.tasks[t := Idle]) else s
      case TryShared(t) =>
        if me.Idle? then
          State(FetchAdd(s.word, 1), s.tasks[t := if HasEx(s.word) then Retreating else Reading])
        else s
      case Retreat(t) =>
        if me.Retreating? then State(FetchSub(s.word, 1), s.tasks[t := Idle]) else s
      case UnlockShared(t) =>
        if me.Reading? then State(FetchSub(s.word, 1), s.tasks[t := Idle]) else s
      case Ask(t) => if me.Idle? then s.(tasks := s.tasks[t := Claiming(s.word)]) else s
      case Claim(t) =>
        if !me.Claiming? then s
        else if HasEx(me.seen) then s.(tasks := s.tasks[t := Idle])
        else if s.word == me.seen then
          State(WithEx(me.seen), s.tasks[t := if me.seen == EX then Owning else Pending])
        else s.(tasks := s.tasks[t := Claiming(s.word)])
      case Poll(t) =>
        if me.Pending? && s.word == EX then s.(tasks := s.tasks[t := Owning]) else s
  }

  function Run(s: State, acts: seq<Act>): State
    decreases |acts|
  {
    if acts == [] then s else Step(Run(s, acts[..|acts| - 1]), acts[|acts| - 1])
  }

  function Start(tasks: nat): State { State(0, seq(tasks, _ => Idle)) }

  // What a task has added to the word.
  function Share(t: Task): nat { if t.Reading? || t.Retreating? then 1 else 0 }

  function Bit(t: Task): nat { if t.Pending? || t.Owning? then 1 else 0 }

  function Sum(ts: seq<Task>, f: Task -> nat): nat {
    if ts == [] then 0 else Sum(ts[..|ts| - 1], f) + f(ts[|ts| - 1])
  }

  lemma {:induction false} SumUpdate(ts: seq<Task>, f: Task -> nat, t: nat, x: Task)
    requires t < |ts|
    ensures Sum(ts[t := x], f) == Sum(ts, f) - f(ts[t]) + f(x)
    ensures f(ts[t]) <= Sum(ts, f)
  {
    var n := |ts| - 1;
    if t < n {
      SumUpdate(ts[..n], f, t, x);
      assert ts[t := x][..n] == ts[..n][t := x];
    } else {
      assert ts[t := x][..n] == ts[..n];
    }
  }

  lemma {:induction false} SumBound(ts: seq<Task>, f: Task -> nat)
    requires forall x :: f(x) <= 1
    ensures Sum(ts, f) <= |ts|
  {
    if ts != [] { SumBound(ts[..|ts| - 1], f); }
  }

  lemma {:induction false} SumTwo(ts: seq<Task>, f: Task -> nat, i: nat, j: nat)
    requires i < j < |ts|
    ensures Sum(ts, f) >= f(ts[i]) + f(ts[j])
  {
    var n := |ts| - 1;
    if j < n {
      SumTwo(ts[..n], f, i, j);
    } else {
      SumUpdate(ts[..n], f, i, ts[i]);
    }
  }

  lemma {:induction false} SumZero(ts: seq<Task>, f: Task -> nat)
    ensures Sum(ts, f) == 0 <==> forall i :: 0 <= i < |ts| ==> f(ts[i]) == 0
  {
    if ts != [] { SumZero(ts[..|ts| - 1], f); }
  }

  function Inside(s: State): nat { Sum(s.tasks, Share) }

  function Writers(s: State): nat { Sum(s.tasks, Bit) }

  // The word is the writer bit plus everyone inside, without a carry; an owner has no readers.
  ghost predicate Inv(s: State) {
    && |s.tasks| < EX
    && Inside(s) <= |s.tasks| && Writers(s) <= 1
    && s.word == EX * Writers(s) + Inside(s)
    && (forall i, j :: 0 <= i < |s.tasks| && 0 <= j < |s.tasks| && s.tasks[i].Owning? ==> !s.tasks[j].Reading?)
  }

  lemma WordArithmetic(b: nat, n: nat)
    requires b <= 1 && n < EX
    ensures var w := EX * b + n;
            && HasEx(w) == (b == 1) && Low(w) == n && w < SIZE
            && (n + 1 < EX ==> FetchAdd(w, 1) == w + 1) && (n > 0 ==> FetchSub(w, 1) == w - 1)
            && (b == 1 ==> FetchSub(w, EX) == n) && (b == 0 ==> WithEx(w) == w + EX)
  {
  }

  // What replacing one task does to the two sums.
  lemma Replace(s: State, t: nat, x: Task)
    requires t < |s.tasks|
    ensures var s' := s.(tasks := s.tasks[t := x]);
            && Inside(s') == Inside(s) - Share(s.tasks[t]) + Share(x)
            && Writers(s') == Writers(s) - Bit(s.tasks[t]) + Bit(x)
            && Inside(s') <= |s.tasks| && Share(s.tasks[t]) <= Inside(s) && Bit(s.tasks[t]) <= Writers(s)
  {
    SumUpdate(s.tasks, Share, t, x);
    SumUpdate(s.tasks, Bit, t, x);
    SumBound(s.tasks[t := x], Share);
  }

  // Task t becomes x and the word w: the invariant survives if the sums agree and an owner is alone.
  lemma KeepInv(s: State, t: nat, x: Task, w: nat)
    requires Inv(s) && t < |s.tasks|
    requires var s' := State(w, s.tasks[t := x]);
             && Writers(s') <= 1 && w == EX * Writers(s') + Inside(s')
             && (x.Owning? && !s.tasks[t].Owning? ==> Inside(s') == 0)
             && (x.Reading? && !s.tasks[t].Reading? ==> Writers(s) == 0)
    ensures Inv(State(w, s.tasks[t := x]))
  {
    Replace(s, t, x);
    NobodyInside(s);
    NobodyInside(State(w, s.tasks[t := x]));
  }

  lemma StepInv(s: State, a: Act)
    requires Inv(s)
    ensures Inv(Step(s, a))
  {
    if a.t < |s.tasks| {
      Replace(s, a.t, Step(s, a).tasks[a.t]);
      WordArithmetic(Writers(s), Inside(s));
      if a.TryShared? || a.Retreat? || a.UnlockShared? {
        ReaderInv(s, a);
      } else {
        WriterInv(s, a);
      }
    }
  }

  lemma ReaderInv(s: State, a: Act)
    requires Inv(s) && a.t < |s.tasks| && (a.TryShared? || a.Retreat? || a.UnlockShared?)
    requires var w := s.word;
             && (HasEx(w) <==> Writers(s) == 1)
             && (Inside(s) + 1 < EX ==> FetchAdd(w, 1) == w + 1) && (Inside(s) > 0 ==> FetchSub(w, 1) == w - 1)
    ensures Inv(Step(s, a))
  {
    var x := Step(s, a).tasks[a.t];
    Replace(s, a.t, x);
    if x != s.tasks[a.t] { KeepInv(s, a.t, x, Step(s, a).word); }
  }

  lemma WriterInv(s: State, a: Act)
    requires Inv(s) && a.t < |s.tasks| && !a.TryShared? && !a.Retreat? && !a.UnlockShared?
    requires var w := s.word;
             && (HasEx(w) <==> Writers(s) == 1) && (Writers(s) == 1 ==> FetchSub(w, EX) == Inside(s))
             && (Writers(s) == 0 ==> WithEx(w) == w + EX)
    ensures Inv(Step(s, a))
  {
    var x := Step(s, a).tasks[a.t];
    Replace(s, a.t, x);
    if x != s.tasks[a.t] { KeepInv(s, a.t, x, Step(s, a).word); }
  }

  lemma NobodyInside(s: State)
    ensures Inside(s) == 0 <==> forall i :: 0 <= i < |s.tasks| ==> Share(s.tasks[i]) == 0
    ensures Writers(s) == 0 <==> forall i :: 0 <= i < |s.tasks| ==> Bit(s.tasks[i]) == 0
  {
    SumZero(s.tasks, Share);
    SumZero(s.tasks, Bit);
  }

  lemma {:induction false} RunInv(tasks: nat, acts: seq<Act>)
    requires tasks < 0x8000_0000_0000_0000
    ensures var s := Run(Start(tasks), acts); Inv(s) && |s.tasks| == tasks
    decreases |acts|
  {
    if acts == [] {
      NobodyInside(Start(tasks));
    } else {
      RunInv(tasks, acts[..|acts| - 1]);
      StepInv(Run(Start(tasks), acts[..|acts| - 1]), acts[|acts| - 1]);
    }
  }

  function OneIfReading(t: Task): nat { if t.Reading? then 1 else 0 }

  function OneIfRetreating(t: Task): nat { if t.Retreating? then 1 else 0 }

  // How many tasks are granted readers, and how many are still retreating.
  function Readers(s: State): nat { Sum(s.tasks, OneIfReading) }

  function Retreaters(s: State): nat { Sum(s.tasks, OneIfRetreating) }

  lemma {:induction false} InsideSplits(ts: seq<Task>)
    ensures Sum(ts, Share) == Sum(ts, OneIfReading) + Sum(ts, OneIfRetreating)
  {
    if ts != [] { InsideSplits(ts[..|ts| - 1]); }
  }

  // EX_BIT is the top bit of the word: a word has it exactly from 2^63 on.
  lemma TopBit(w: nat)
    requires w < SIZE
    ensures 2 * EX == SIZE && EX == 0x8000_0000_0000_0000 == Pow2(63)
    ensures HasEx(w) <==> w >= 0x8000_0000_0000_0000
  {
    SizeIs();
    assert Pow2(64) == 2 * Pow2(63);
  }

  // The word is always 2^63, if a writer is pending or owning, plus the granted readers plus the
  // retreating readers; nothing ever carries into the writer bit.
  lemma WordIsExact(tasks: nat, acts: seq<Act>)
    requires tasks < 0x8000_0000_0000_0000
    ensures var s := Run(Start(tasks), acts);
            && Writers(s) <= 1 && s.word == 0x8000_0000_0000_0000 * Writers(s) + Readers(s) + Retreaters(s)
            && Low(s.word) == Readers(s) + Retreaters(s) && HasEx(s.word) == (Writers(s) == 1)
            && (s.word < 0x8000_0000_0000_0000 <==> Writers(s) == 0)
  {
    RunInv(tasks, acts);
    var s := Run(Start(tasks), acts);
    InsideSplits(s.tasks);
    WordArithmetic(Writers(s), Inside(s));
  }

  // An owner excludes every reader and every other writer.
  lemma OwnerExcludes(tasks: nat, acts: seq<Act>, i: nat, j: nat)
    requires tasks < 0x8000_0000_0000_0000 && i < tasks && j < tasks && i != j
    ensures var s := Run(Start(tasks), acts);
            && |s.tasks| == tasks
            && (s.tasks[i].Owning? ==> !s.tasks[j].Reading? && !s.tasks[j].Owning? && !s.tasks[j].Pending?)
  {
    RunInv(tasks, acts);
    var s := Run(Start(tasks), acts);
    if i < j { SumTwo(s.tasks, Bit, i, j); } else { SumTwo(s.tasks, Bit, j, i); }
  }

  // Task t has set the writer bit and has not unlocked.
  predicate HasBit(s: State, t: nat) { t < |s.tasks| && (s.tasks[t].Pending? || s.tasks[t].Owning?) }

  lemma ClosedStep(s: State, a: Act, t: nat)
    requires Inv(s) && HasBit(s, t) && a != Unlock(t)
    ensures HasBit(Step(s, a), t)
    ensures forall j :: 0 <= j < |s.tasks| && Step(s, a).tasks[j].Reading? ==> s.tasks[j].Reading?
    ensures Readers(Step(s, a)) <= Readers(s)
  {
    WordArithmetic(Writers(s), Inside(s));
    NobodyInside(s);
    if a.t < |s.tasks| {
      NewReader(s, a);
      SumUpdate(s.tasks, OneIfReading, a.t, Step(s, a).tasks[a.t]);
    }
  }

  // Only `try_lock_shared` makes a reader, and only without the writer bit.
  lemma NewReader(s: State, a: Act)
    requires a.t < |s.tasks|
    ensures Step(s, a).tasks == s.tasks[a.t := Step(s, a).tasks[a.t]]
    ensures Step(s, a).tasks[a.t].Reading? && !s.tasks[a.t].Reading? ==> !HasEx(s.word)
  {
  }

  // From the moment a writer sets the bit until it unlocks, no new reader is granted and the number
  // of readers never rises, whatever the others do.
  lemma {:induction false} ClosedToReaders(s: State, acts: seq<Act>, t: nat)
    requires Inv(s) && HasBit(s, t) && Unlock(t) !in acts
    ensures var s' := Run(s, acts);
            && Inv(s') && HasBit(s', t) && |s'.tasks| == |s.tasks| && Readers(s') <= Readers(s)
            && (forall j :: 0 <= j < |s.tasks| && s'.tasks[j].Reading? ==> s.tasks[j].Reading?)
    decreases |acts|
  {
    if acts != [] {
      var n := |acts| - 1;
      ClosedToReaders(s, acts[..n], t);
      assert acts[n] in acts;
      ClosedStep(Run(s, acts[..n]), acts[n], t);
      StepInv(Run(s, acts[..n]), acts[n]);
    }
  }

  // A later `await_ready` of the pending writer returns true exactly when every granted reader and
  // every retreating reader has left.
  lemma PollGrantsExactly(tasks: nat, acts: seq<Act>, t: nat)
    requires tasks < 0x8000_0000_0000_0000 && t < tasks
    requires var s := Run(Start(tasks), acts); t < |s.tasks| && s.tasks[t].Pending?
    ensures var s := Run(Start(tasks), acts);
            Step(s, Poll(t)).tasks[t].Owning? <==> Readers(s) == 0 && Retreaters(s) == 0
  {
    RunInv(tasks, acts);
    var s := Run(Start(tasks), acts);
    InsideSplits(s.tasks);
    SumUpdate(s.tasks, Bit, t, Idle);
  }

  // From the moment the first `await_ready` of a writer's future has read the word, through any number
  // of retries and whatever the others do in between, that call never makes its task an owner: when
  // it claims the writer bit it still returns false, because it compares the word from before.
  lemma {:induction false} FirstCallNeverReady(s: State, acts: seq<Act>, t: nat)
    requires Inv(s) && t < |s.tasks| && s.tasks[t] == Claiming(s.word)
    requires forall a :: a in acts && a.t == t ==> a.Claim?
    ensures var s' := Run(s, acts);
            && Inv(s') && |s'.tasks| == |s.tasks|
            && (s'.tasks[t].Claiming? || s'.tasks[t].Idle? || (s'.tasks[t].Pending? && HasEx(s'.word)))
    decreases |acts|
  {
    if acts != [] {
      var n := |acts| - 1;
      FirstCallNeverReady(s, acts[..n], t);
      assert acts[n] in acts;
      FirstCallStep(Run(s, acts[..n]), acts[n], t);
    }
  }

  lemma FirstCallStep(s: State, a: Act, t: nat)
    requires Inv(s) && t < |s.tasks| && (a.t == t ==> a.Claim?)
    requires s.tasks[t].Claiming? || s.tasks[t].Idle? || s.tasks[t].Pending?
    ensures var s' := Step(s, a);
            && Inv(s') && |s'.tasks| == |s.tasks|
            && (s'.tasks[t].Claiming? || s'.tasks[t].Idle? || (s'.tasks[t].Pending? && HasEx(s'.word)))
  {
    StepInv(s, a);
    if Step(s, a).tasks[t].Pending? { PendingHasBit(Step(s, a), t); }
  }

  lemma PendingHasBit(s: State, t: nat)
    requires Inv(s) && t < |s.tasks| && s.tasks[t].Pending?
    ensures HasEx(s.word)
  {
    SumUpdate(s.tasks, Bit, t, Idle);
    WordArithmetic(Writers(s), Inside(s));
  }

  // The k-th choice made task t read the word, and it found `seen`.
  ghost predicate ReadAt(tasks: nat, acts: seq<Act>, k: nat, t: nat, seen: nat) {
    && 0 < k <= |acts| && (acts[k - 1] == Ask(t) || acts[k - 1] == Claim(t))
    && var s := Run(Start(tasks), acts[..k]);
       s.word == seen && t < |s.tasks| && s.tasks[t] == Claiming(seen)
  }

  // From the k-th choice on the task has been inside its first `await_ready` with this reading.
  ghost predicate SinceRead(tasks: nat, acts: seq<Act>, k: nat, t: nat, seen: nat) {
    forall i :: k <= i <= |acts| ==> HasRead(Run(Start(tasks), acts[..i]), t, seen)
  }

  predicate HasRead(s: State, t: nat, seen: nat) { t < |s.tasks| && s.tasks[t] == Claiming(seen) }

  lemma {:induction false} LastRead(tasks: nat, acts: seq<Act>, t: nat, seen: nat) returns (k: nat)
    requires HasRead(Run(Start(tasks), acts), t, seen)
    ensures ReadAt(tasks, acts, k, t, seen) && SinceRead(tasks, acts, k, t, seen)
    decreases |acts|
  {
    var n := |acts| - 1;
    assert acts[..|acts|] == acts;
    if acts == [] {
      k := 0;
    } else if HasRead(Run(Start(tasks), acts[..n]), t, seen) && acts[n] != Claim(t) {
      k := LastRead(tasks, acts[..n], t, seen);
      LaterRead(tasks, acts, n, k, t, seen);
    } else {
      k := |acts|;
    }
  }

  lemma LaterRead(tasks: nat, acts: seq<Act>, n: nat, k: nat, t: nat, seen: nat)
    requires n + 1 == |acts| && HasRead(Run(Start(tasks), acts), t, seen)
    requires ReadAt(tasks, acts[..n], k, t, seen) && SinceRead(tasks, acts[..n], k, t, seen)
    ensures ReadAt(tasks, acts, k, t, seen) && SinceRead(tasks, acts, k, t, seen)
  {
    assert acts[..n][..k] == acts[..k];
    forall i | k <= i <= |acts| ensures HasRead(Run(Start(tasks), acts[..i]), t, seen) {
      if i <= n {
        assert acts[..n][..i] == acts[..i];
        assert HasRead(Run(Start(tasks), acts[..n][..i]), t, seen);
      } else {
        assert acts[..i] == acts;
      }
    }
  }

  // Some task has the writer bit exactly when the word has it.
  lemma {:induction false} SomeWriter(ts: seq<Task>) returns (u: nat)
    requires Sum(ts, Bit) > 0
    ensures u < |ts| && Bit(ts[u]) == 1
  {
    var n := |ts| - 1;
    if Bit(ts[n]) == 1 { u := n; } else { u := SomeWriter(ts[..n]); }
  }

  // A first `await_ready` ends without the bit only if, when it last read the word, some other task had
  // the bit.
  lemma GivesUpOnlyToWriter(tasks: nat, acts: seq<Act>, t: nat, seen: nat) returns (k: nat, u: nat)
    requires tasks < 0x8000_0000_0000_0000 && HasRead(Run(Start(tasks), acts), t, seen)
    requires Step(Run(Start(tasks), acts), Claim(t)).tasks[t].Idle?
    ensures ReadAt(tasks, acts, k, t, seen) && SinceRead(tasks, acts, k, t, seen)
    ensures u != t && HasBit(Run(Start(tasks), acts[..k]), u)
  {
    k := LastRead(tasks, acts, t, seen);
    RunInv(tasks, acts[..k]);
    var s := Run(Start(tasks), acts[..k]);
    WordArithmetic(Writers(s), Inside(s));
    u := SomeWriter(s.tasks);
  }

  // The first `await_ready`, read and all, in two turns in a row: it claims exactly when nobody has the
  // bit.  One that has read already gives up exactly if it saw the bit, and otherwise claims within two
  // turns in a row exactly when nobody has the bit now, whatever happened since it read.
  lemma ClaimsExactly(tasks: nat, acts: seq<Act>, t: nat)
    requires tasks < 0x8000_0000_0000_0000 && t < tasks
    ensures var s := Run(Start(tasks), acts);
            && |s.tasks| == tasks
            && (s.tasks[t].Idle? ==>
                  var x := Step(Step(s, Ask(t)), Claim(t)).tasks[t];
                  (x.Pending? <==> forall u :: !HasBit(s, u)) && (x.Pending? || x.Idle?))
            && (s.tasks[t].Claiming? ==>
                  var x := Step(Step(s, Claim(t)), Claim(t)).tasks[t];
                  && (x.Pending? <==> !HasEx(s.tasks[t].seen) && forall u :: !HasBit(s, u))
                  && (x.Pending? || x.Idle?))
  {
    RunInv(tasks, acts);
    BitIsSomebodys(Run(Start(tasks), acts));
    ClaimTurns(Run(Start(tasks), acts), t);
  }

  lemma BitIsSomebodys(s: State)
    requires Inv(s)
    ensures s.word < SIZE && (HasEx(s.word) <==> exists u :: HasBit(s, u))
  {
    WordArithmetic(Writers(s), Inside(s));
    NobodyInside(s);
    if Writers(s) > 0 {
      var u := SomeWriter(s.tasks);
      assert HasBit(s, u);
    } else {
      assert forall u :: 0 <= u < |s.tasks| ==> Bit(s.tasks[u]) == 0;
    }
  }

  lemma ClaimTurns(s: State, t: nat)
    requires t < |s.tasks| && s.word < SIZE
    ensures s.tasks[t].Idle? ==>
              Step(Step(s, Ask(t)), Claim(t)).tasks[t] == if HasEx(s.word) then Idle else Pending
    ensures s.tasks[t].Claiming? ==>
              Step(Step(s, Claim(t)), Claim(t)).tasks[t] ==
              if HasEx(s.tasks[t].seen) || HasEx(s.word) then Idle else Pending
  {
  }

  // The exact grant conditions of the two one-shot attempts, in any reachable state.
  lemma AttemptsGrantExactly(tasks: nat, acts: seq<Act>, t: nat)
    requires tasks < 0x8000_0000_0000_0000 && t < tasks
    requires var s := Run(Start(tasks), acts); t < |s.tasks| && s.tasks[t].Idle?
    ensures var s := Run(Start(tasks), acts);
            && (Step(s, TryLock(t)).tasks[t].Owning? <==>
                  forall j :: 0 <= j < tasks && j < |s.tasks| ==> Share(s.tasks[j]) == 0 && Bit(s.tasks[j]) == 0)
            && (Step(s, TryShared(t)).tasks[t].Reading? <==>
                  forall j :: 0 <= j < tasks && j < |s.tasks| ==> Bit(s.tasks[j]) == 0)
  {
    RunInv(tasks, acts);
    var s := Run(Start(tasks), acts);
    WordArithmetic(Writers(s), Inside(s));
    NobodyInside(s);
  }

  // The word has the writer bit exactly when some task has it.
  ghost predicate BitIsTasks(s: State) { HasEx(s.word) <==> exists u :: HasBit(s, u) }

  // n readers come in, one after the other.
  lemma {:induction false} ManyReaders(tasks: nat, n: nat) returns (acts: seq<Act>)
    requires n <= tasks && n <= 0x8000_0000_0000_0000
    ensures var s := Run(Start(tasks), acts);
            && s.word == n && |s.tasks| == tasks
            && (forall i :: 0 <= i < tasks ==> s.tasks[i] == if i < n then Reading else Idle)
    decreases n
  {
    if n == 0 {
      acts := [];
    } else {
      var before := ManyReaders(tasks, n - 1);
      TopBit(n - 1);
      acts := before + [TryShared(n - 1)];
      assert acts[..|before|] == before;
      OneReader(Run(Start(tasks), before), n - 1);
    }
  }

  lemma OneReader(s: State, t: nat)
    requires t < |s.tasks| && s.tasks[t].Idle? && s.word < 0x8000_0000_0000_0000
    ensures Step(s, TryShared(t)) == State(s.word + 1, s.tasks[t := Reading])
  {
    TopBit(s.word);
    Around(s.word + 1);
    WrapIs(s.word + 1, 0, s.word + 1);
  }

  // The bound is exact: with 2^63 tasks or more, readers alone can set the writer bit.
  lemma BoundExactly(tasks: nat)
    ensures (forall acts :: BitIsTasks(Run(Start(tasks), acts))) <==> tasks < 0x8000_0000_0000_0000
  {
    if tasks < 0x8000_0000_0000_0000 {
      forall acts ensures BitIsTasks(Run(Start(tasks), acts)) {
        RunInv(tasks, acts);
        BitIsSomebodys(Run(Start(tasks), acts));
      }
    } else {
      var acts := ManyReaders(tasks, 0x8000_0000_0000_0000);
      TopBit(0x8000_0000_0000_0000);
      assert !BitIsTasks(Run(Start(tasks), acts));
    }
  }
}
