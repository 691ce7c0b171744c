/**
 The slab allocator: an intrusive free list threaded through the free slots, a live flag and a
 generation per slot. `Pool` is the value of the pool and `Step` what an operation does to it;
 the class keeps the arrays and is proved to follow it.
 */
module ThreadLocalPool {

  /** The free slots in list order, and each slot's flag and generation. */
  datatype Pool = Pool(free: seq<nat>, live: seq<bool>, generations: seq<nat>)

  datatype Op = Allocate | Deallocate(slot: nat)

  function Fresh(capacity: nat): Pool {
    Pool(seq(capacity, i => i), seq(capacity, i => false), seq(capacity, i => 0))
  }

  /** Every index is a slot, and only a live object is returned. */
  predicate Legal(p: Pool, op: Op) {
    op.Deallocate? ==> op.slot < |p.live| == |p.generations| && p.live[op.slot]
  }

  function Step(p: Pool, op: Op): Pool
    requires Legal(p, op)
  {
    match op
    case Allocate =>
      if p.free == [] || p.free[0] >= |p.live| then p
      else p.(free := p.free[1..], live := p.live[p.free[0] := true])
    case Deallocate(slot) =>
      Pool([slot] + p.free, p.live[slot := false], p.generations[slot := p.generations[slot] + 1])
  }

  // ---------------------------------------------------------------------------------------
  // The invariant

  /** The free list has no repetition and holds exactly the slots that are not live. */
  ghost predicate Ok(p: Pool) {
    && |p.live| == |p.generations|
    && (forall i, j :: 0 <= i < j < |p.free| ==> p.free[i] != p.free[j])
    && (forall s: nat :: s in p.free <==> s < |p.live| && !p.live[s])
  }

  function CountLive(live: seq<bool>): nat {
    if live == [] then 0 else CountLive(live[..|live| - 1]) + (if live[|live| - 1] then 1 else 0)
  }

  lemma FreshOk(capacity: nat)
    ensures Ok(Fresh(capacity))
  {
    var p := Fresh(capacity);
    forall s: nat | s < capacity ensures s in p.free {
      assert p.free[s] == s;
    }
  }

  lemma StepOk(p: Pool, op: Op)
    requires Ok(p) && Legal(p, op)
    ensures Ok(Step(p, op)) && |Step(p, op).live| == |p.live|
  {
    var p' := Step(p, op);
    if op.Allocate? && p.free != [] {
      assert p.free[0] in p.free;
      forall s: nat ensures s in p'.free <==> s in p.free && s != p.free[0] {
        if s in p'.free {
          var i :| 0 <= i < |p'.free| && p'.free[i] == s;
          assert p.free[i + 1] == s;
        }
        if s in p.free && s != p.free[0] {
          var i :| 0 <= i < |p.free| && p.free[i] == s;
          assert p'.free[i - 1] == s;
        }
      }
    }
  }

  lemma NotFree(p: Pool, slot: nat)
    requires Ok(p) && slot < |p.live| && p.live[slot]
    ensures slot !in p.free
  {
  }

  lemma {:induction false} CountUpdate(live: seq<bool>, i: nat, b: bool)
    requires i < |live|
    ensures CountLive(live[i := b]) == CountLive(live) - (if live[i] then 1 else 0) + (if b then 1 else 0)
    decreases |live|
  {
    var n := |live| - 1;
    if i < n {
      CountUpdate(live[..n], i, b);
      assert live[i := b][..n] == live[..n][i := b];
    } else {
      assert live[i := b][..n] == live[..n];
    }
  }

  lemma {:induction false} NoneLive(n: nat)
    ensures CountLive(seq(n, i => false)) == 0
    decreases n
  {
    if n > 0 {
      NoneLive(n - 1);
      assert seq(n, i => false)[..n - 1] == seq(n - 1, i => false);
    }
  }

  lemma StepCounts(p: Pool, op: Op)
    requires Ok(p) && Legal(p, op) && |p.free| + CountLive(p.live) == |p.live|
    ensures |Step(p, op).free| + CountLive(Step(p, op).live) == |p.live|
  {
    match op {
      case Allocate =>
        if p.free != [] {
          assert p.free[0] in p.free;
          CountUpdate(p.live, p.free[0], true);
        }
      case Deallocate(slot) => CountUpdate(p.live, slot, false);
    }
  }

  // ---------------------------------------------------------------------------------------
  // Runs

  ghost predicate LegalRun(p: Pool, run: seq<Op>)
    decreases |run|
  {
    run == [] || (Legal(p, run[0]) && LegalRun(Step(p, run[0]), run[1..]))
  }

  ghost function After(p: Pool, run: seq<Op>): Pool
    requires LegalRun(p, run)
    decreases |run|
  {
    if run == [] then p else After(Step(p, run[0]), run[1..])
  }

  lemma {:induction false} RunOk(p: Pool, run: seq<Op>)
    requires Ok(p) && LegalRun(p, run) && |p.free| + CountLive(p.live) == |p.live|
    ensures Ok(After(p, run)) && |After(p, run).live| == |p.live|
    ensures |After(p, run).free| + CountLive(After(p, run).live) == |p.live|
    decreases |run|
  {
    hide Ok, Step, Legal;
    if run != [] {
      StepOk(p, run[0]);
      StepCounts(p, run[0]);
      RunOk(Step(p, run[0]), run[1..]);
    }
  }

  /** Over every sequence of allocations and returns of live objects: the free list is without
      repetition and holds exactly the free slots, free and live slots make up the capacity,
      and the next slot to be handed out is not live. */
  lemma PoolIsSound(capacity: nat, run: seq<Op>)
    requires LegalRun(Fresh(capacity), run)
    ensures var p := After(Fresh(capacity), run);
            && Ok(p) && |p.live| == capacity && |p.free| + CountLive(p.live) == capacity
            && (p.free != [] ==> p.free[0] < capacity && !p.live[p.free[0]])
  {
    hide Step, Legal;
    FreshOk(capacity);
    NoneLive(capacity);
    RunOk(Fresh(capacity), run);
    var p := After(Fresh(capacity), run);
    assert p.free != [] ==> p.free[0] in p.free;
  }

  predicate IsLive(p: Pool, slot: nat, generation: nat) {
    slot < |p.live| == |p.generations| && p.live[slot] && p.generations[slot] == generation
  }

  ghost predicate Freed(run: seq<Op>, slot: nat) {
    exists i :: 0 <= i < |run| && run[i] == Deallocate(slot)
  }

  /** A generation captured from a live object is recognised for exactly as long as the object
      has not been returned, however often the slot is handed out again. */
  lemma {:induction false} GenerationTells(p: Pool, run: seq<Op>, slot: nat)
    requires Ok(p) && LegalRun(p, run) && slot < |p.live| && p.live[slot]
    ensures IsLive(After(p, run), slot, p.generations[slot]) <==> !Freed(run, slot)
    decreases |run|
  {
    if run != [] {
      var p', rest := Step(p, run[0]), run[1..];
      StepOk(p, run[0]);
      assert Freed(run, slot) <==> run[0] == Deallocate(slot) || Freed(rest, slot) by {
        FreedStep(run, slot);
      }
      if run[0] == Deallocate(slot) {
        GenerationsGrow(p', rest, slot);
      } else {
        GenerationTells(p', rest, slot);
      }
    }
  }

  lemma FreedStep(run: seq<Op>, slot: nat)
    requires run != []
    ensures Freed(run, slot) <==> run[0] == Deallocate(slot) || Freed(run[1..], slot)
  {
    if Freed(run[1..], slot) {
      var i :| 0 <= i < |run| - 1 && run[1..][i] == Deallocate(slot);
      assert run[i + 1] == Deallocate(slot);
    }
    if Freed(run, slot) && run[0] != Deallocate(slot) {
      var i :| 0 <= i < |run| && run[i] == Deallocate(slot);
      assert run[1..][i - 1] == Deallocate(slot);
    }
  }

  lemma {:induction false} GenerationsGrow(p: Pool, run: seq<Op>, slot: nat)
    requires Ok(p) && LegalRun(p, run) && slot < |p.live|
    ensures |After(p, run).generations| == |p.generations| && After(p, run).generations[slot] >= p.generations[slot]
    decreases |run|
  {
    if run != [] {
      StepOk(p, run[0]);
      GenerationsGrow(Step(p, run[0]), run[1..], slot);
    }
  }

  // ---------------------------------------------------------------------------------------
  // The pool object

  /** A slot is a link while it is free and an object's storage while it is live; NIL ends the
      list. */
  const NIL: int := -1

  class Slab {
    const capacity: nat
    const next: array<int>
    const live: array<bool>
    const generations: array<nat>
    var freeHead: int
    ghost var free: seq<nat>

    ghost predicate Linked()
      reads this, next
    {
      && next.Length == capacity && freeHead == Link(0)
      && (forall i :: 0 <= i < |free| ==> free[i] < capacity && next[free[i]] == Link(i + 1))
    }

    /** The link to the i-th free slot. */
    ghost function Link(i: nat): int
      reads this
    {
      if i < |free| then free[i] else NIL
    }

    ghost function View(): Pool
      reads this, live, generations
    {
      Pool(free, live[..], generations[..])
    }

    ghost predicate Valid()
      reads this, next, live, generations
    {
      live.Length == capacity && generations.Length == capacity && Linked() && Ok(View())
    }

    constructor (capacity: nat)
      ensures Valid() && View() == Fresh(capacity) && this.capacity == capacity
      ensures fresh(next) && fresh(live) && fresh(generations)
    {
      this.capacity := capacity;
      var links := new int[capacity];
      for i := 0 to capacity
        invariant forall k :: 0 <= k < i ==> links[k] == if k + 1 < capacity then k + 1 else NIL
      {
        links[i] := if i + 1 < capacity then i + 1 else NIL;
      }
      next := links;
      live := new bool[capacity](i => false);
      generations := new nat[capacity](i => 0);
      freeHead := if capacity == 0 then NIL else 0;
      free := seq(capacity, i => i);
      new;
      FreshOk(capacity);
      assert live[..] == Fresh(capacity).live && generations[..] == Fresh(capacity).generations;
    }

    /** Pops the free list. The object is built over the link, so what the slot's link says
        afterwards is arbitrary. */
    method Allocate() returns (slot: int)
      requires Valid()
      modifies this`freeHead, this`free, next, live
      ensures Valid() && View() == Step(old(View()), Op.Allocate)
      ensures if old(free) == [] then slot == NIL else slot == old(free)[0] && !old(live[slot]) && live[slot]
    {
      if freeHead == NIL {
        assert free == [];
        return NIL;
      }
      ghost var p := View();
      StepOk(p, Op.Allocate);
      slot := freeHead;
      assert slot in p.free && p.free[0] == slot;
      freeHead := next[slot];
      free := free[1..];
      live[slot] := true;
      next[slot] := *;
      assert View() == Step(p, Op.Allocate);
    }

    /** Destroys the object and pushes its slot; a null pointer is ignored. */
    method Deallocate(slot: int)
      requires Valid() && (slot != NIL ==> 0 <= slot < capacity && live[slot])
      modifies this`freeHead, this`free, next, live, generations
      ensures Valid()
      ensures View() == if slot == NIL then old(View()) else Step(old(View()), Op.Deallocate(slot))
    {
      hide Valid;
      if slot != NIL {
        Free(slot);
      }
    }

    method Free(slot: nat)
      requires Valid() && slot < capacity && live[slot]
      modifies this`freeHead, this`free, next, live, generations
      ensures Valid() && View() == Step(old(View()), Op.Deallocate(slot))
    {
      hide Ok;
      ghost var p := View();
      StepOk(p, Op.Deallocate(slot));
      NotFree(p, slot);
      live[slot] := false;
      generations[slot] := generations[slot] + 1;
      next[slot] := freeHead;
      freeHead := slot;
      free := [slot] + free;
      assert View() == Step(p, Op.Deallocate(slot));
    }

    method GenerationOf(slot: nat) returns (generation: nat)
      requires Valid() && slot < capacity
      ensures generation == View().generations[slot]
    {
      generation := generations[slot];
    }

    /** Any pointer may be asked about, including one that is not from this slab. */
    method IsLiveNow(slot: int, generation: nat) returns (r: bool)
      requires Valid()
      ensures r <==> slot >= 0 && IsLive(View(), slot, generation)
    {
      if slot < 0 || slot >= capacity {
        return false;
      }
      r := live[slot] && generations[slot] == generation;
    }

    /** Walks the free list; the walk ends because the list has no repetition. */
    method Available() returns (count: nat)
      requires Valid()
      ensures count == |View().free|
    {
      count := 0;
      var current := freeHead;
      while current != NIL
        invariant count <= |free| && current == Link(count)
        decreases |free| - count
      {
        count := count + 1;
        current := next[current];
      }
    }

    method Allocated() returns (count: int)
      requires Valid()
      ensures count == capacity - |View().free|
    {
      var available := Available();
      count := capacity - available;
    }

    /** Visits every live object, in slot order. */
    method SweepLive() returns (visited: seq<nat>)
      requires Valid()
      ensures forall s: nat :: s in visited <==> s < capacity && live[s]
      ensures forall i, j :: 0 <= i < j < |visited| ==> visited[i] < visited[j]
    {
      visited := [];
      for i := 0 to capacity
        invariant forall s: nat :: s in visited <==> s < i && live[s]
        invariant forall k :: 0 <= k < |visited| ==> visited[k] < i
        invariant forall k, j :: 0 <= k < j < |visited| ==> visited[k] < visited[j]
      {
        if live[i] {
          visited := visited + [i];
        }
      }
    }
  }
}
