/** The multi-mutex `lock(...)`: rotate, block on one mutex, try the rest, undo on failure.

    `Mutex` is a template parameter of the source, so a mutex here is only a name with the
    lock / try_lock / unlock contract; the argument pack is a sequence of any length. */
module MultiLock {
  import opened Sequences

  // `lock_rotate_and_call`: the argument list it finally calls with.
  function Rotate<M>(ms: seq<M>, count: nat): seq<M>
    requires ms != []
    decreases count
  {
    if count == 0 then ms else Rotate(ms[1..] + [ms[0]], count - 1)
  }

  // Position j of the rotated list is position (count + j) mod N of the original.
  lemma {:induction false} RotateAt<M>(ms: seq<M>, count: nat, j: nat)
    requires j < |ms|
    ensures |Rotate(ms, count)| == |ms|
    ensures Rotate(ms, count)[j] == ms[(count + j) % |ms|]
    decreases count
  {
    if count > 0 {
      RotateAt(ms[1..] + [ms[0]], count - 1, j);
      NextMod(count - 1 + j, |ms|);
    }
  }

  lemma NextMod(a: nat, n: nat)
    requires n > 0
    ensures (a + 1) % n == if a % n + 1 == n then 0 else a % n + 1
  {
    var q, r := a / n, a % n;
    assert n * (q + 1) == n * q + n;
    if r + 1 == n {
      SameQuotient(n, q + 1, 0, (a + 1) / n, (a + 1) % n);
    } else {
      SameQuotient(n, q, r + 1, (a + 1) / n, (a + 1) % n);
    }
  }

  lemma SmallMod(a: nat, n: nat)
    requires a < n
    ensures a % n == a
  {
    SameQuotient(n, 0, a, a / n, a % n);
  }

  lemma SameQuotient(n: nat, q: nat, r: nat, q': nat, r': nat)
    requires r < n && r' < n && n * q + r == n * q' + r'
    ensures q == q'
  {
    if q < q' {
      Multiples(n, q, q');
    } else if q' < q {
      Multiples(n, q', q);
    }
  }

  lemma {:induction false} Multiples(n: nat, a: nat, b: nat)
    requires a < b
    ensures n * b >= n * a + n
    decreases b
  {
    if a + 1 < b {
      Multiples(n, a, b - 1);
    }
    assert n * b == n * (b - 1) + n;
  }

  lemma {:induction false} RotatePermutes<M>(ms: seq<M>, count: nat)
    requires ms != []
    ensures multiset(Rotate(ms, count)) == multiset(ms)
    decreases count
  {
    if count > 0 {
      RotatePermutes(ms[1..] + [ms[0]], count - 1);
      assert ms == [ms[0]] + ms[1..];
    }
  }

  // What the calling task did to the mutexes, in order.
  datatype Event = Awaited(m: nat) | Took(m: nat) | Refused(m: nat) | Released(m: nat)

  // The mutexes as one task sees them, the other tasks acting between any two of its steps.
  class World {
    var mine: set<nat>
    var foreign: set<nat>   // held by other tasks
    var log: seq<Event>
    var clock: nat
    const env: nat -> set<nat>  // what the other tasks want to hold, at each moment
    const releaseOnly: bool     // the other tasks only release

    predicate Valid() reads this { mine !! foreign }

    constructor (held: set<nat>, env: nat -> set<nat>, releaseOnly: bool)
      ensures Valid() && mine == {} && foreign == held && log == []
    {
      mine, foreign, log, clock := {}, held, [], 0;
      this.env, this.releaseOnly := env, releaseOnly;
    }

    // The other tasks run for a while: they never touch what this task holds.
    method Interfere()
      requires Valid()
      modifies `foreign, `clock
      ensures Valid() && (releaseOnly ==> foreign <= old(foreign))
      ensures foreign == if releaseOnly then old(foreign) * env(old(clock)) else env(old(clock)) - mine
    {
      foreign := if releaseOnly then foreign * env(clock) else env(clock) - mine;
      clock := clock + 1;
    }

    // `co_await m.lock()`: returns once the others have released m.
    method Lock(m: nat)
      requires Valid() && m !in mine
      modifies this
      ensures Valid() && mine == old(mine) + {m} && log == old(log) + [Awaited(m)]
      ensures releaseOnly ==> foreign <= old(foreign) - {m}
    {
      Interfere();
      foreign := foreign - {m};
      mine, log := mine + {m}, log + [Awaited(m)];
    }

    method TryLock(m: nat) returns (ok: bool)
      requires Valid()
      modifies this
      ensures Valid() && (releaseOnly ==> foreign <= old(foreign))
      ensures ok ==> m !in old(mine) && mine == old(mine) + {m} && log == old(log) + [Took(m)]
      ensures !ok ==> mine == old(mine) && log == old(log) + [Refused(m)] && m in mine + foreign
    {
      Interfere();
      ok := m !in mine + foreign;
      if ok {
        mine, log := mine + {m}, log + [Took(m)];
      } else {
        log := log + [Refused(m)];
      }
    }

    method Unlock(m: nat)
      requires Valid() && m in mine
      modifies this
      ensures Valid() && mine == old(mine) - {m} && log == old(log) + [Released(m)]
      ensures foreign == old(foreign)
    {
      mine, log := mine - {m}, log + [Released(m)];
    }
  }

  function Takes(ms: seq<nat>): seq<Event> { seq(|ms|, i requires 0 <= i < |ms| => Took(ms[i])) }

  // Releases, innermost call first.
  function Releases(ms: seq<nat>): seq<Event> {
    seq(|ms|, i requires 0 <= i < |ms| => Released(ms[|ms| - 1 - i]))
  }

  // What `try_lock_impl` does when it returns k.
  function Attempt(ms: seq<nat>, k: nat): seq<Event>
    requires k <= |ms|
  {
    if k == |ms| then Takes(ms) else Takes(ms[..k]) + [Refused(ms[k])] + Releases(ms[..k])
  }

  // What one round does on the rotated list when it ends with k: the first mutex is awaited, the others
  // are tried, and after a refusal all that was taken is released, latest first.
  function Round(r: seq<nat>, k: nat): seq<Event>
    requires 0 < k <= |r|
  {
    if k == |r| then [Awaited(r[0])] + Takes(r[1..])
    else [Awaited(r[0])] + Takes(r[1..k]) + [Refused(r[k])] + Releases(r[..k])
  }

  lemma RoundStep(before: seq<Event>, r: seq<nat>, k: nat)
    requires 0 < k <= |r|
    ensures before + Round(r, k) ==
            (before + [Awaited(r[0])]) + Attempt(r[1..], k - 1) + (if k == |r| then [] else [Released(r[0])])
  {
    var e := Awaited(r[0]);
    if k == |r| {
      assert before + ([e] + Takes(r[1..])) == (before + [e]) + Takes(r[1..]) + [];
    } else {
      var rest := r[1..];
      assert rest[..k - 1] == r[1..k] == r[..k][1..] && rest[k - 1] == r[k];
      ReleasesStep(r[..k]);
      Regroup(before, e, Takes(r[1..k]), Refused(r[k]), Releases(r[1..k]), Released(r[0]));
    }
  }

  // One level of the recursion: take the first, attempt the rest, release the first on failure.
  lemma AttemptStep(before: seq<Event>, ms: seq<nat>, k: nat)
    requires 0 < k <= |ms|
    ensures before + Attempt(ms, k) ==
            (before + [Took(ms[0])]) + Attempt(ms[1..], k - 1) + (if k == |ms| then [] else [Released(ms[0])])
  {
    var took, rest, e, r := ms[..k], ms[1..], Took(ms[0]), Released(ms[0]);
    if k == |ms| {
      TakesStep(ms);
      assert before + ([e] + Takes(rest)) == (before + [e]) + Takes(rest) + [];
    } else {
      assert took[1..] == rest[..k - 1] && rest[k - 1] == ms[k];
      TakesStep(took);
      ReleasesStep(took);
      Regroup(before, e, Takes(rest[..k - 1]), Refused(ms[k]), Releases(rest[..k - 1]), r);
    }
  }

  lemma Regroup<X>(before: seq<X>, e: X, takes: seq<X>, refused: X, releases: seq<X>, r: X)
    ensures before + (([e] + takes) + [refused] + (releases + [r])) ==
            (before + [e]) + (takes + [refused] + releases) + [r]
  {
  }

  lemma TakesStep(ms: seq<nat>)
    requires ms != []
    ensures Takes(ms) == [Took(ms[0])] + Takes(ms[1..])
  {
  }

  lemma ReleasesStep(ms: seq<nat>)
    requires ms != []
    ensures Releases(ms) == Releases(ms[1..]) + [Released(ms[0])]
  {
  }

  lemma FirstAndRest(ms: seq<nat>, k: nat)
    requires 0 < k <= |ms|
    ensures Elements(ms) == {ms[0]} + Elements(ms[1..])
    ensures Elements(ms[..k]) == {ms[0]} + Elements(ms[1..][..k - 1])
    ensures Distinct(ms[1..]) && ms[0] !in Elements(ms[1..]) ==> Distinct(ms)
  {
    FirstElement(ms);
    FirstElement(ms[..k]);
    assert ms[..k][1..] == ms[1..][..k - 1];
    if Distinct(ms[1..]) && ms[0] !in Elements(ms[1..]) { DistinctFirst(ms); }
  }

  lemma FirstElement(ms: seq<nat>)
    requires ms != []
    ensures Elements(ms) == {ms[0]} + Elements(ms[1..])
  {
    assert ms == [ms[0]] + ms[1..];
  }

  lemma DistinctFirst(ms: seq<nat>)
    requires ms != [] && Distinct(ms[1..]) && ms[0] !in Elements(ms[1..])
    ensures Distinct(ms)
  {
    forall i, j | 0 <= i < j < |ms| ensures ms[i] != ms[j] {
      assert ms[j] == ms[1..][j - 1] && (i > 0 ==> ms[i] == ms[1..][i - 1]);
    }
  }

  // All or nothing, for any list: k < |ms| means the first k were taken, the next was refused and
  // the k are released again, latest first; k == |ms| means all are held.
  method TryLockImpl(w: World, ms: seq<nat>) returns (k: nat)
    requires w.Valid()
    modifies w
    ensures w.Valid() && (w.releaseOnly ==> w.foreign <= old(w.foreign))
    ensures k <= |ms| && w.log == old(w.log) + Attempt(ms, k)
    ensures w.mine == if k == |ms| then old(w.mine) + Elements(ms) else old(w.mine)
    ensures k < |ms| && w.releaseOnly ==> ms[k] in old(w.mine) + old(w.foreign) + Elements(ms[..k])
    ensures k == |ms| ==> Distinct(ms) && Elements(ms) !! old(w.mine)
    decreases |ms|
  {
    if ms == [] {
      return 0;
    }
    var ok := w.TryLock(ms[0]);
    if !ok {
      return 0;
    }
    var cnt := TryLockImpl(w, ms[1..]);
    if cnt != |ms| - 1 {
      w.Unlock(ms[0]);
    }
    k := 1 + cnt;
    AttemptStep(old(w.log), ms, k);
    FirstAndRest(ms, k);
  }

  // The body of the lambda in `lock_impl`, on the rotated list: block on the first mutex, attempt
  // the rest, release the first on failure.
  method LockFirst(w: World, r: seq<nat>) returns (k: nat)
    requires w.Valid() && r != [] && r[0] !in w.mine
    modifies w
    ensures w.Valid() && 0 < k <= |r| && w.log == old(w.log) + Round(r, k)
    ensures w.mine == if k == |r| then old(w.mine) + Elements(r) else old(w.mine)
    ensures k == |r| ==> Distinct(r) && Elements(r) !! old(w.mine)
    ensures w.releaseOnly ==> w.foreign <= old(w.foreign) - {r[0]}
    ensures w.releaseOnly && k < |r| ==> r[k] in old(w.mine) + (old(w.foreign) - {r[0]}) + Elements(r[..k])
  {
    w.Lock(r[0]);
    var ret := TryLockImpl(w, r[1..]);
    k := ret + 1;
    RoundStep(old(w.log), r, k);
    FirstAndRest(r, k);
    if ret != |r| - 1 {
      w.Unlock(r[0]);
    }
  }

  // One round.  N is returned exactly when all N are held; otherwise no more is held than before,
  // and the result is the original index of the mutex that refused.
  method LockImpl(w: World, start: nat, ms: seq<nat>) returns (i: nat, ghost k: nat)
    requires w.Valid() && start < |ms| && ms[start] !in w.mine
    modifies w
    ensures w.Valid() && 0 < k <= |ms|
    ensures w.log == old(w.log) + Round(Rotated(ms, start), k)
    ensures i == |ms| <==> k == |ms|
    ensures i <= |ms| && (i < |ms| ==> ms[i] == Rotated(ms, start)[k])
    ensures w.mine == if i == |ms| then old(w.mine) + Elements(ms) else old(w.mine)
    ensures i == |ms| ==> Distinct(ms) && Elements(ms) !! old(w.mine)
    ensures w.releaseOnly ==> w.foreign <= old(w.foreign) - {ms[start]}
    ensures w.releaseOnly && i < |ms| && Distinct(ms) && Elements(ms) !! old(w.mine) ==>
              ms[i] in old(w.foreign) - {ms[start]}
  {
    RotatedFirst(ms, start);
    var taken := LockFirst(w, Rotate(ms, start));
    k := taken;
    if taken == |ms| {
      i := taken;
    } else {
      RotateAt(ms, start, k);
      i := (start + taken) % |ms|;
      assert Distinct(ms) ==> Rotated(ms, start)[k] !in Rotated(ms, start)[..k];
    }
  }

  // The rotated list as a value: its length is that of the original.
  function Rotated<M>(ms: seq<M>, count: nat): (r: seq<M>)
    requires ms != []
    ensures |r| == |ms|
  {
    RotateAt(ms, count, 0);
    Rotate(ms, count)
  }

  lemma RotatedFirst(ms: seq<nat>, start: nat)
    requires start < |ms|
    ensures var r := Rotated(ms, start);
            && r[0] == ms[start] && Elements(r) == Elements(ms) && (Distinct(r) <==> Distinct(ms))
  {
    RotatedStart(ms, start);
    RotatePermutes(ms, start);
    Permuted(Rotated(ms, start), ms);
  }

  lemma RotatedStart(ms: seq<nat>, start: nat)
    requires start < |ms|
    ensures Rotated(ms, start)[0] == ms[start]
  {
    RotateAt(ms, start, 0);
    SmallMod(start, |ms|);
  }

  // The rounds of one `lock(...)`: where each starts, and with what count it ends.
  datatype Try = Try(start: nat, count: nat)

  predicate InRange(ms: seq<nat>, tries: seq<Try>) {
    ms != [] && forall n :: 0 <= n < |tries| ==> tries[n].start < |ms| && 0 < tries[n].count <= |ms|
  }

  // The first round starts at the first mutex, every later one at the mutex that refused in the round
  // before.
  predicate BacksOff(ms: seq<nat>, tries: seq<Try>)
    requires InRange(ms, tries)
  {
    (tries != [] ==> tries[0].start == 0) && forall n :: 0 < n < |tries| ==> StartsAtRefused(ms, tries, n)
  }

  predicate StartsAtRefused(ms: seq<nat>, tries: seq<Try>, n: nat)
    requires InRange(ms, tries) && 0 < n < |tries|
  {
    var before := tries[n - 1];
    before.count < |ms| && ms[tries[n].start] == Rotated(ms, before.start)[before.count]
  }

  // What all of them do.
  function Rounds(ms: seq<nat>, tries: seq<Try>): seq<Event>
    requires InRange(ms, tries)
  {
    if tries == [] then []
    else
      var n := |tries| - 1;
      Rounds(ms, tries[..n]) + Round(Rotated(ms, tries[n].start), tries[n].count)
  }

  lemma OneMoreRound(before: seq<Event>, ms: seq<nat>, tries: seq<Try>, t: Try)
    requires InRange(ms, tries) && InRange(ms, tries + [t]) && t.start < |ms| && 0 < t.count <= |ms|
    ensures before + Rounds(ms, tries + [t]) ==
            (before + Rounds(ms, tries)) + Round(Rotated(ms, t.start), t.count)
  {
    var all := tries + [t];
    assert all[..|tries|] == tries && all[|tries|] == t;
  }

  // The `do ... while` of `lock(...)`.  When the other tasks only release, it ends with every mutex
  // held, within one round more than the number of its mutexes that others held at the start: a
  // failed round makes the next one wait for exactly the mutex that refused.
  method LockAll(w: World, ms: seq<nat>) returns (rounds: nat, ghost tries: seq<Try>)
    requires w.Valid() && w.releaseOnly
    requires |ms| >= 2 && Distinct(ms) && Elements(ms) !! w.mine
    modifies w
    ensures w.Valid() && w.mine == old(w.mine) + Elements(ms)
    ensures 1 <= rounds <= 1 + |old(w.foreign) * Elements(ms)|
    ensures |tries| == rounds && InRange(ms, tries) && BacksOff(ms, tries) && tries[rounds - 1].count == |ms|
    ensures w.log == old(w.log) + Rounds(ms, tries)
  {
    var i: nat := 0;
    rounds := 0;
    tries := [];
    ghost var contested := w.foreign * Elements(ms);
    while rounds == 0 || i != |ms|
      invariant w.Valid() && i <= |ms| && (rounds == 0 ==> i == 0)
      invariant w.mine == if i == |ms| then old(w.mine) + Elements(ms) else old(w.mine)
      invariant i < |ms| ==> w.foreign * Elements(ms) <= contested <= Elements(ms)
      invariant i < |ms| && rounds > 0 ==> ms[i] in contested
      invariant i < |ms| ==> rounds + |contested| <= 1 + |old(w.foreign) * Elements(ms)|
      invariant i < |ms| && rounds == 0 ==> |contested| <= |old(w.foreign) * Elements(ms)|
      invariant rounds <= 1 + |old(w.foreign) * Elements(ms)|
      invariant |tries| == rounds && InRange(ms, tries) && BacksOff(ms, tries) && Leads(ms, tries, i)
      invariant w.log == old(w.log) + Rounds(ms, tries)
      decreases if rounds == 0 then 2 else if i == |ms| then 0 else 1, |contested|
    {
      assert ms[i] in Elements(ms);
      ghost var k;
      ghost var start := i;
      contested := contested - {ms[i]};
      i, k := LockImpl(w, i, ms);
      rounds := rounds + 1;
      Continues(ms, tries, Try(start, k), i);
      OneMoreRound(old(w.log), ms, tries, Try(start, k));
      tries := tries + [Try(start, k)];
    }
  }

  // i is where the next round starts, or |ms| after the last.
  predicate Leads(ms: seq<nat>, tries: seq<Try>, i: nat)
    requires InRange(ms, tries)
  {
    if tries == [] then i == 0
    else
      var t := tries[|tries| - 1];
      if i < |ms| then t.count < |ms| && ms[i] == Rotated(ms, t.start)[t.count] else t.count == |ms|
  }

  lemma Continues(ms: seq<nat>, tries: seq<Try>, t: Try, i: nat)
    requires InRange(ms, tries) && BacksOff(ms, tries) && Leads(ms, tries, t.start)
    requires t.start < |ms| && 0 < t.count <= |ms|
    requires if i < |ms| then t.count < |ms| && ms[i] == Rotated(ms, t.start)[t.count] else t.count == |ms|
    ensures InRange(ms, tries + [t]) && BacksOff(ms, tries + [t]) && Leads(ms, tries + [t], i)
  {
    var all := tries + [t];
    forall n | 0 < n < |all| ensures StartsAtRefused(ms, all, n) {
      assert n < |tries| ==> StartsAtRefused(ms, tries, n);
    }
  }

  // ---- what a task holds while it waits ----

  // What is held after some events.
  function After(held: set<nat>, es: seq<Event>): set<nat>
    decreases |es|
  {
    if es == [] then held
    else
      var n := |es| - 1;
      var h := After(held, es[..n]);
      match es[n]
      case Awaited(m) => h + {m}
      case Took(m) => h + {m}
      case Refused(_) => h
      case Released(m) => h - {m}
  }

  lemma {:induction false} AfterMore(held: set<nat>, a: seq<Event>, b: seq<Event>)
    ensures After(held, a + b) == After(After(held, a), b)
    decreases |b|
  {
    if b == [] {
      assert a + b == a;
    } else {
      var n := |b| - 1;
      AfterMore(held, a, b[..n]);
      assert (a + b)[..|a + b| - 1] == a + b[..n] && (a + b)[|a + b| - 1] == b[n];
    }
  }

  lemma {:induction false} AfterTakes(held: set<nat>, ms: seq<nat>)
    ensures After(held, Takes(ms)) == held + Elements(ms)
    decreases |ms|
  {
    if ms == [] {
      assert Elements(ms) == {};
    } else {
      var n := |ms| - 1;
      AfterTakes(held, ms[..n]);
      assert Takes(ms)[..n] == Takes(ms[..n]);
      ElementsSnoc(ms[..n], ms[n]);
      assert ms[..n] + [ms[n]] == ms;
    }
  }

  lemma {:induction false} AfterReleases(held: set<nat>, ms: seq<nat>)
    ensures After(held, Releases(ms)) == held - Elements(ms)
    decreases |ms|
  {
    if ms == [] {
      assert Elements(ms) == {};
    } else {
      AfterReleases(held, ms[1..]);
      ReleasesStep(ms);
      AfterMore(held, Releases(ms[1..]), [Released(ms[0])]);
      assert After(held - Elements(ms[1..]), [Released(ms[0])]) == held - Elements(ms[1..]) - {ms[0]};
      FirstElement(ms);
    }
  }

  // No mutex is awaited while another is held.
  ghost predicate AwaitsEmpty(es: seq<Event>) {
    forall n :: 0 <= n < |es| && es[n].Awaited? ==> After({}, es[..n]) == {}
  }

  lemma RoundAfter(r: seq<nat>, k: nat)
    requires 0 < k <= |r|
    ensures After({}, Round(r, k)) == if k == |r| then Elements(r) else {}
  {
    FirstElement(r);
    AfterMore({}, [Awaited(r[0])], Takes(r[1..]));
    AfterTakes({r[0]}, r[1..]);
    assert After({}, [Awaited(r[0])]) == {r[0]} by { assert [Awaited(r[0])][..0] == []; }
    if k < |r| {
      var a, b, c := [Awaited(r[0])] + Takes(r[1..k]), [Refused(r[k])], Releases(r[..k]);
      AfterMore({}, [Awaited(r[0])], Takes(r[1..k]));
      AfterTakes({r[0]}, r[1..k]);
      AfterMore({}, a, b);
      AfterMore({}, a + b, c);
      assert After(After({}, a), b) == After({}, a) by { assert b[..0] == []; }
      AfterReleases(After({}, a), r[..k]);
      FirstElement(r[..k]);
      assert r[..k][1..] == r[1..k];
    }
  }

  lemma OnlyFirstAwaited(r: seq<nat>, k: nat, n: nat)
    requires 0 < k <= |r| && n < |Round(r, k)|
    ensures Round(r, k)[n].Awaited? <==> n == 0
  {
  }

  lemma AwaitsMore(a: seq<Event>, b: seq<Event>)
    requires AwaitsEmpty(a) && After({}, a) == {} && AwaitsEmpty(b)
    ensures AwaitsEmpty(a + b)
  {
    forall n | 0 <= n < |a + b| && (a + b)[n].Awaited? ensures After({}, (a + b)[..n]) == {} {
      if n < |a| {
        assert (a + b)[..n] == a[..n];
      } else {
        assert (a + b)[..n] == a + b[..n - |a|];
        AfterMore({}, a, b[..n - |a|]);
      }
    }
  }

  // Whatever the rounds of one `lock(...)`, each mutex is awaited with none held; at the end all are
  // held, or none if the last round failed too.
  lemma {:induction false} WaitsWithNothing(ms: seq<nat>, tries: seq<Try>)
    requires InRange(ms, tries) && BacksOff(ms, tries) && tries != []
    ensures AwaitsEmpty(Rounds(ms, tries))
    ensures After({}, Rounds(ms, tries)) == if tries[|tries| - 1].count == |ms| then Elements(ms) else {}
    decreases |tries|
  {
    var n := |tries| - 1;
    var before, t := tries[..n], tries[n];
    EarlierRounds(ms, tries);
    if n > 0 {
      WaitsWithNothing(ms, before);
    }
    RoundAdded(Rounds(ms, before), ms, t);
  }

  lemma RoundAdded(a: seq<Event>, ms: seq<nat>, t: Try)
    requires t.start < |ms| && 0 < t.count <= |ms|
    requires AwaitsEmpty(a) && After({}, a) == {}
    ensures var es := a + Round(Rotated(ms, t.start), t.count);
            AwaitsEmpty(es) && After({}, es) == if t.count == |ms| then Elements(ms) else {}
  {
    var r := Rotated(ms, t.start);
    RoundAfter(r, t.count);
    RotatedFirst(ms, t.start);
    RoundAwaits(r, t.count);
    AwaitsMore(a, Round(r, t.count));
    AfterMore({}, a, Round(r, t.count));
  }

  lemma EarlierRounds(ms: seq<nat>, tries: seq<Try>)
    requires InRange(ms, tries) && BacksOff(ms, tries) && tries != []
    ensures var before := tries[..|tries| - 1];
            InRange(ms, before) && BacksOff(ms, before) && (before != [] ==> before[|before| - 1].count < |ms|)
  {
    var n := |tries| - 1;
    var before := tries[..n];
    assert n > 0 ==> StartsAtRefused(ms, tries, n);
    forall k | 0 < k < |before| ensures StartsAtRefused(ms, before, k) {
      assert StartsAtRefused(ms, tries, k);
    }
  }

  lemma RoundAwaits(r: seq<nat>, k: nat)
    requires 0 < k <= |r|
    ensures AwaitsEmpty(Round(r, k))
  {
    forall j | 0 <= j < |Round(r, k)| && Round(r, k)[j].Awaited? ensures After({}, Round(r, k)[..j]) == {} {
      OnlyFirstAwaited(r, k, j);
    }
  }
}
