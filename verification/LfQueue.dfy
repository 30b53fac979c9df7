/** `lfqueue<T>` over heap nodes, one operation at a time.

    Two linked lists share the nodes: the live chain from tail_ to head_, and the recycled nodes
    from free_.  Every method is proved against the transition of `QueueSpec` of the same name. */
module LfQueue {
  import opened Options
  import opened Sequences
  import QueueSpec

  // An `entry_t` with its `data_t`: `data` is meaningful only under `hasValue`.
  class Entry<T(0)> {
    var data: T
    var hasValue: bool
    var next: Entry?<T>
    ghost var place: int  // its position in the list it is in

    constructor ()
      ensures !hasValue && next == null
    {
      hasValue, next := false, null;
    }

    method PutData(v: T)
      modifies `data, `hasValue
      ensures hasValue && data == v
    {
      data := v;
      hasValue := true;
    }

    method TakeData() returns (r: Option<T>)
      modifies `hasValue
      ensures !hasValue
      ensures r == if old(hasValue) then Some(data) else None
    {
      if hasValue {
        hasValue := false;
        r := Some(data);
      } else {
        r := None;
      }
    }
  }

  // The free list: `free_`, with `new_entry` and `del_entry`.
  class FreeList<T(0)> {
    var free: Entry?<T>
    ghost var stack: seq<Entry<T>>  // its nodes, the top last
    ghost var nodes: set<Entry<T>>

    // From free, the nodes of `stack` and then the end; each knows its place, so none occurs twice.
    ghost predicate Valid()
      reads this, nodes
    {
      && free == (if stack == [] then null else stack[|stack| - 1])
      && |nodes| == |stack|
      && (forall k {:trigger stack[k]} :: 0 <= k < |stack| ==>
            stack[k] in nodes && stack[k].place == k && !stack[k].hasValue)
      && (forall k {:trigger stack[k].next} :: 0 <= k < |stack| ==>
            stack[k].next == if k > 0 then stack[k - 1] else null)
    }

    constructor (capacity: nat)
      ensures Valid() && |stack| == capacity && fresh(nodes)
    {
      var entry: Entry?<T> := null;
      ghost var made: seq<Entry<T>>, all: set<Entry<T>> := [], {};
      if capacity > 0 {
        entry := new Entry<T>();
        entry.place := 0;
        made, all := [entry], {entry};
        var i := 0;
        while i < capacity - 1
          invariant 0 <= i <= capacity - 1 && |made| == |all| == i + 1
          invariant fresh(all) && entry == made[i]
          invariant forall k {:trigger made[k]} :: 0 <= k <= i ==>
              made[k] in all && made[k].place == k && !made[k].hasValue
          invariant forall k {:trigger made[k].next} :: 0 <= k <= i ==>
              made[k].next == if k > 0 then made[k - 1] else null
        {
          var tmp := new Entry<T>();
          tmp.next, tmp.place := entry, i + 1;
          entry := tmp;
          made, all := made + [tmp], all + {tmp};
          i := i + 1;
        }
      }
      free, stack, nodes := entry, made, all;
    }

    // The top of the list, or a new node when there is none.
    method NewEntry() returns (entry: Entry<T>)
      requires Valid()
      modifies this, nodes
      ensures Valid() && entry !in nodes && !entry.hasValue && entry.next == null
      ensures if old(nodes) == {} then fresh(entry) else entry in old(nodes)
      ensures nodes == old(nodes) - {entry}
      ensures |stack| == if old(|stack|) == 0 then 0 else old(|stack|) - 1
    {
      if free == null {
        entry := new Entry<T>();
      } else {
        entry := free;
        free := entry.next;
        entry.next := null;
        stack, nodes := stack[..|stack| - 1], nodes - {entry};
      }
    }

    // The part of `push` before the node is visible.
    method FilledEntry(v: T) returns (entry: Entry<T>)
      requires Valid()
      modifies this, nodes
      ensures Valid() && entry !in nodes && entry.hasValue && entry.data == v && entry.next == null
      ensures if old(nodes) == {} then fresh(entry) else entry in old(nodes)
      ensures nodes == old(nodes) - {entry}
      ensures |stack| == if old(|stack|) == 0 then 0 else old(|stack|) - 1
    {
      entry := NewEntry();
      entry.PutData(v);
    }

    method DelEntry(entry: Entry<T>)
      requires Valid() && entry !in nodes && !entry.hasValue
      modifies this, entry
      ensures Valid() && nodes == old(nodes) + {entry}
      ensures |stack| == old(|stack|) + 1
    {
      entry.next := free;
      free := entry;
      entry.place := |stack|;
      stack, nodes := stack + [entry], nodes + {entry};
    }
  }

  // The abstract queue when `given` were pushed, those before `taken` popped, and the front node is
  // the one that carried given[base].
  ghost function View<X>(given: seq<X>, base: nat, taken: nat, spare: nat): QueueSpec.QState<X>
    requires base <= taken <= |given|
  {
    QueueSpec.QState(base < taken, given[taken..], spare)
  }

  lemma PushView<X>(given: seq<X>, base: nat, taken: nat, spare: nat, v: X)
    requires base <= taken <= |given|
    ensures QueueSpec.Push(View(given, base, taken, spare), v) ==
            View(given + [v], base, taken, if spare > 0 then spare - 1 else 0)
  {
    assert (given + [v])[taken..] == given[taken..] + [v];
  }

  lemma PopView<X>(given: seq<X>, base: nat, taken: nat, spare: nat)
    requires base <= taken <= |given| && taken <= base + 1 && base < |given|
    ensures var k := if base + 1 == |given| then 0 else 1;
            QueueSpec.Pop(View(given, base, taken, spare)) ==
            (View(given, base + k, base + 1, spare + k), if taken == base then Some(given[base]) else None)
  {
    assert given[base..][1..] == given[base + 1..];
  }

  class Queue<T(0)> {
    var head: Entry?<T>
    var tail: Entry?<T>
    const recycled: FreeList<T>

    ghost var chain: seq<Entry<T>>  // nodes in the order they were published
    ghost var given: seq<T>         // the values pushed, in the same order
    ghost var base: nat             // chain[base..] is the live chain
    ghost var taken: nat            // given[taken..] is still queued
    ghost var nodes: set<Entry<T>>  // the nodes of the live chain

    // The live chain runs from chain[base] to head and ends there.
    ghost predicate Linked()
      reads this, nodes
    {
      && base <= taken <= |chain| == |given| && taken <= base + 1
      && (base < |chain| || base == 0)
      && head == (if base < |chain| then chain[|chain| - 1] else null)
      && |nodes| == |chain| - base
      && (forall k {:trigger chain[k]} :: base <= k < |chain| ==>
            chain[k] in nodes && chain[k].place == k)
      && (forall k {:trigger chain[k].next} :: base <= k < |chain| ==>
            chain[k].next == if k + 1 < |chain| then chain[k + 1] else null)
      && (forall k {:trigger chain[k].hasValue} :: base <= k < |chain| ==>
            chain[k].hasValue == (taken <= k))
      && (forall k {:trigger chain[k].data} :: taken <= k < |chain| ==> chain[k].data == given[k])
    }

    // And tail is where it starts.
    ghost predicate Chained()
      reads this, nodes
    {
      Linked() && tail == if base < |chain| then chain[base] else null
    }

    ghost predicate Valid()
      reads this, nodes, recycled, recycled.nodes
    {
      Chained() && recycled.Valid() && nodes !! recycled.nodes
    }

    // Every node allocated and not deleted.
    ghost function All(): set<Entry<T>>
      reads this, recycled
    {
      nodes + recycled.nodes
    }

    ghost function Abs(): QueueSpec.QState<T>
      requires base <= taken <= |given|
      reads this, recycled
    {
      View(given, base, taken, |recycled.stack|)
    }

    // The two chains visit no node twice and together are the allocated nodes, which the abstract
    // state counts.
    lemma AllocatedNodes()
      requires Valid()
      ensures Distinct(chain[base..] + recycled.stack)
      ensures Elements(chain[base..] + recycled.stack) == All()
      ensures |All()| == Abs().Made()
    {
      var s := chain[base..] + recycled.stack;
      assert Distinct(s);
      DistinctCount(s);
      SubsetOfSameSize(Elements(s), All());
    }

    constructor (capacity: nat)
      ensures Valid() && Abs() == QueueSpec.Fresh(capacity)
      ensures fresh(All()) && fresh(recycled)
    {
      head, tail := null, null;
      recycled := new FreeList<T>(capacity);
      chain, given, base, taken, nodes := [], [], 0, 0, {};
    }

    // The part of `push` that makes a filled node visible.
    method Publish(entry: Entry<T>)
      requires Chained() && entry !in nodes && entry.hasValue && entry.next == null
      modifies this, entry, nodes
      ensures Chained() && nodes == old(nodes) + {entry}
      ensures chain == old(chain) + [entry] && given == old(given + [entry.data])
      ensures unchanged(`base) && unchanged(`taken)
    {
      var h := head;
      head := entry;
      if h == null {
        tail := entry;
      } else {
        h.next := entry;
      }
      entry.place := |chain|;
      chain, given, nodes := chain + [entry], given + [entry.data], nodes + {entry};
    }

    method Push(v: T)
      requires Valid()
      modifies this, recycled, nodes, recycled.nodes
      ensures Valid() && fresh(All() - old(All())) && old(All()) <= All()
      ensures Abs() == QueueSpec.Push(old(Abs()), v)
    {
      var entry := recycled.FilledEntry(v);
      Publish(entry);
      PushView(old(given), base, taken, old(|recycled.stack|), v);
    }

    // The part of `pop` that moves tail_ to the successor of the front node, even to null, and takes
    // the front node's value.
    method TakeFront() returns (t: Entry<T>, next: Entry?<T>, r: Option<T>)
      requires Chained() && base < |chain|
      modifies this, nodes
      ensures Linked() && unchanged(`chain) && unchanged(`given)
      ensures r == old(if taken == base then Some(given[base]) else None)
      ensures next == null <==> old(base + 1 == |chain|)
      ensures base == old(base) + (if next == null then 0 else 1) && taken == old(base) + 1
      ensures t in old(nodes) && !t.hasValue
      ensures next == null ==> unchanged(`nodes) && t == chain[base]
      ensures next != null ==> Chained() && nodes == old(nodes) - {t}
    {
      t := tail;
      next := t.next;
      tail := next;
      r := t.TakeData();
      taken := base + 1;
      if next != null {
        base, nodes := base + 1, nodes - {t};
      }
    }

    // The rest of `pop`: the last node goes back to the front, any other is recycled.
    method Retire(t: Entry<T>, next: Entry?<T>)
      requires Linked() && recycled.Valid() && nodes !! recycled.nodes
      requires next == null ==> taken == base + 1 == |chain| && t == chain[base]
      requires next != null ==> Chained() && t !in nodes && t !in recycled.nodes && !t.hasValue
      modifies `tail, recycled, t
      ensures Valid() && recycled.nodes == old(recycled.nodes) + if next == null then {} else {t}
      ensures |recycled.stack| == old(|recycled.stack|) + if next == null then 0 else 1
    {
      if next == null {
        tail := t;
      } else {
        recycled.DelEntry(t);
      }
    }

    // `pop` on a chain that is not empty.
    method PopSome() returns (r: Option<T>)
      requires Valid() && base < |chain|
      modifies this, recycled, nodes
      ensures Valid() && nodes + recycled.nodes == old(nodes + recycled.nodes) && unchanged(`given)
      ensures taken == old(base) + 1
      ensures var k := if old(base + 1 == |chain|) then 0 else 1;
              base == old(base) + k && |recycled.stack| == old(|recycled.stack|) + k
      ensures r == old(if taken == base then Some(given[base]) else None)
    {
      var t, next;
      t, next, r := TakeFront();
      Retire(t, next);
    }

    method Pop() returns (r: Option<T>)
      requires Valid()
      modifies this, recycled, All()
      ensures Valid() && All() == old(All())
      ensures Abs() == QueueSpec.Pop(old(Abs())).0
      ensures r == QueueSpec.Pop(old(Abs())).1
    {
      if tail == null {
        return None;
      }
      PopView(given, base, taken, |recycled.stack|);
      r := PopSome();
    }

    // The destructor's two walks: they end, and delete each allocated node exactly once.
    method Destroy() returns (deleted: seq<Entry<T>>)
      requires Valid()
      ensures Distinct(deleted) && Elements(deleted) == All()
    {
      deleted := [];
      var entry := tail;
      ghost var k := base;
      while entry != null
        invariant base <= k <= |chain| && deleted == chain[base..k]
        invariant entry == if k < |chain| then chain[k] else null
        decreases |chain| - k
      {
        var next := entry.next;
        deleted := deleted + [entry];
        entry, k := next, k + 1;
      }
      ghost var spares := [];
      ghost var left := |recycled.stack|;
      entry := recycled.free;
      while entry != null
        invariant 0 <= left <= |recycled.stack| && |spares| == |recycled.stack| - left
        invariant deleted == chain[base..] + spares
        invariant forall i :: 0 <= i < |spares| ==> spares[i] == recycled.stack[|recycled.stack| - 1 - i]
        invariant entry == if left > 0 then recycled.stack[left - 1] else null
        decreases left
      {
        var next := entry.next;
        deleted, spares := deleted + [entry], spares + [entry];
        entry, left := next, left - 1;
      }
      BothWalks(deleted, spares);
    }

    lemma BothWalks(deleted: seq<Entry<T>>, spares: seq<Entry<T>>)
      requires Valid()
      requires deleted == chain[base..] + spares && |spares| == |recycled.stack|
      requires forall i :: 0 <= i < |spares| ==> spares[i] == recycled.stack[|recycled.stack| - 1 - i]
      ensures Distinct(deleted) && Elements(deleted) == All()
    {
      AllocatedNodes();
      Backwards(spares, recycled.stack);
      SameElements(deleted, chain[base..] + recycled.stack);
    }
  }
}
