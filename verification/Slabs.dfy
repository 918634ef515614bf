/** Memory slabs (mem_slab.c): blocks of one size whose free ones are chained through their
    own first words, with threads waiting while there are none. */
module Slabs {
  import opened Rings

  /** The slab as a value: the free blocks in list order, who holds each other block, and
      the waiting threads. */
  datatype Slab = Slab(blocks: nat, free: seq<nat>, held: map<nat, Tid>, waiting: seq<Tid>)

  /** 0 with a block, -ENOMEM, or the caller waits. */
  datatype AllocResult = Got(b: nat) | NoMemory | Waits

  datatype AllocEffect = AllocEffect(s: Slab, out: AllocResult)

  /** k_mem_slab_alloc. */
  function Alloc(s: Slab, t: Tid, noWait: bool, place: nat): AllocEffect
    requires place <= |s.waiting|
  {
    if s.free != [] then AllocEffect(s.(free := s.free[1..], held := s.held[s.free[0] := t]), Got(s.free[0]))
    else if noWait then AllocEffect(s, NoMemory)
    else AllocEffect(s.(waiting := Place(s.waiting, place, t)), Waits)
  }

  /** k_mem_slab_free: the block goes to the first waiter, or back on the list. */
  function Free(s: Slab, b: nat): Slab {
    if s.free == [] && s.waiting != [] then
      s.(held := s.held[b := s.waiting[0]], waiting := s.waiting[1..])
    else s.(free := [b] + s.free, held := s.held - {b})
  }

  /** A waiter's timeout. */
  function Leave(s: Slab, i: nat): Slab {
    if i < |s.waiting| then s.(waiting := Without(s.waiting, i)) else s
  }

  /** Every block is free or held, never both and never twice; threads wait only while no
      block is free. */
  ghost predicate Inv(s: Slab) {
    && Distinct(s.free)
    && (forall b :: b in s.free || b in s.held.Keys <==> 0 <= b < s.blocks)
    && (forall b :: b in s.free ==> b !in s.held.Keys)
    && (s.waiting != [] ==> s.free == [])
  }

  // ---- one call -----------------------------------------------------------------------------

  lemma {:induction false} AllocKeeps(s: Slab, t: Tid, noWait: bool, place: nat)
    requires Inv(s) && place <= |s.waiting|
    ensures var e := Alloc(s, t, noWait, place);
      && Inv(e.s)
      && (e.out.Got? ==> e.out.b < s.blocks && e.out.b !in s.held.Keys && e.s.held.Keys == s.held.Keys + {e.out.b})
      && (!e.out.Got? ==> forall b :: 0 <= b < s.blocks ==> b in s.held.Keys)
  {
    var e := Alloc(s, t, noWait, place);
    if s.free != [] {
      assert s.free == [s.free[0]] + e.s.free;
      assert s.free[0] in s.free;
      assert forall b :: b in e.s.free ==> b in s.free;
    }
  }

  /** A freed block goes to the thread that waits first, which then no longer waits, and otherwise
      back on the list. */
  lemma {:induction false} FreeKeeps(s: Slab, b: nat)
    requires Inv(s) && b in s.held.Keys
    ensures var s' := Free(s, b);
      && Inv(s') && s'.blocks == s.blocks
      && (s.waiting != [] ==>
            s'.held == s.held[b := s.waiting[0]] && [s.waiting[0]] + s'.waiting == s.waiting && s'.free == [])
      && (s.waiting == [] ==> s'.held.Keys == s.held.Keys - {b} && s'.waiting == [] && s'.free == [b] + s.free)
  {
  }

  /** Freeing is safe if and only if somebody holds the block: one that is free already would
      be on the list twice. */
  lemma {:induction false} FreeIff(s: Slab, b: nat)
    requires Inv(s) && b < s.blocks
    ensures Inv(Free(s, b)) <==> b in s.held.Keys
  {
    if b in s.held.Keys {
      FreeKeeps(s, b);
    } else {
      assert b in s.free;
      var i :| 0 <= i < |s.free| && s.free[i] == b;
      var free' := Free(s, b).free;
      assert free'[0] == b && free'[i + 1] == b;
    }
  }

  /** An alloc has a block for its caller exactly while one is free; otherwise it returns -ENOMEM
      exactly if it may not wait, and else its thread waits at its place. */
  lemma {:induction false} AllocAnswers(s: Slab, t: Tid, noWait: bool, place: nat)
    requires Inv(s) && place <= |s.waiting|
    ensures var e := Alloc(s, t, noWait, place);
      && e.s.blocks == s.blocks
      && (e.out.Got? <==> |s.held.Keys| < s.blocks)
      && (e.out.NoMemory? <==> |s.held.Keys| == s.blocks && noWait)
      && (e.out.Waits? <==> |s.held.Keys| == s.blocks && !noWait)
      && (e.out.Got? ==> e.s.waiting == s.waiting && e.s.held == s.held[e.out.b := t] && [e.out.b] + e.s.free == s.free)
      && (e.out.NoMemory? ==> e.s == s)
      && (e.out.Waits? ==>
            && e.s.held == s.held && e.s.free == [] && |e.s.waiting| == |s.waiting| + 1
            && e.s.waiting[place] == t && e.s.waiting[..place] + e.s.waiting[place + 1..] == s.waiting)
  {
    Adds(s);
  }

  /** The block freed last is handed out first, and a block given back at once leaves the slab as
      it was. */
  lemma {:induction false} LastFreedFirst(s: Slab, b: nat, t: Tid, noWait: bool)
    requires Inv(s) && s.waiting == []
    ensures b in s.held.Keys ==> Alloc(Free(s, b), t, noWait, 0) == AllocEffect(s.(held := s.held[b := t]), Got(b))
    ensures s.free != [] ==> Free(Alloc(s, t, noWait, 0).s, s.free[0]) == s
  {
    if b in s.held.Keys {
      var s1 := Free(s, b);
      assert s1.free == [b] + s.free && s1.free[1..] == s.free;
      assert s1.held[b := t] == s.held[b := t];
    }
    if s.free != [] {
      var s1 := Alloc(s, t, noWait, 0).s;
      assert s.free[0] in s.free && [s.free[0]] + s.free[1..] == s.free;
      assert s1.held - {s.free[0]} == s.held;
    }
  }

  /** A waiter whose wait times out leaves the queue, and nothing else changes. */
  lemma {:induction false} LeaveKeeps(s: Slab, i: nat)
    requires Inv(s)
    ensures var s' := Leave(s, i);
      && Inv(s') && s' == s.(waiting := s'.waiting)
      && s.waiting == if i < |s.waiting| then s'.waiting[..i] + [s.waiting[i]] + s'.waiting[i..] else s'.waiting
  {
    var ts := Leave(s, i).waiting;
    assert i < |s.waiting| ==> ts[..i] == s.waiting[..i] && ts[i..] == s.waiting[i + 1..];
  }

  function UpTo(n: nat): (r: set<nat>)
    ensures |r| == n && forall b :: b in r <==> 0 <= b < n
  {
    if n == 0 then {} else UpTo(n - 1) + {n - 1}
  }

  function Elements(bs: seq<nat>): (r: set<nat>)
    ensures forall b :: b in r <==> b in bs
  {
    if bs == [] then {} else {bs[0]} + Elements(bs[1..])
  }

  lemma {:induction false} CountDistinct(bs: seq<nat>)
    requires Distinct(bs)
    ensures |Elements(bs)| == |bs|
    decreases |bs|
  {
    if bs != [] {
      CountDistinct(bs[1..]);
      assert bs[0] !in bs[1..];
    }
  }

  /** num_used and the length of the free list make up the number of blocks. */
  lemma {:induction false} Adds(s: Slab)
    requires Inv(s)
    ensures |s.free| == s.blocks - |s.held.Keys|
  {
    hide UpTo, Elements;
    CountDistinct(s.free);
    assert UpTo(s.blocks) == Elements(s.free) + s.held.Keys;
    assert Elements(s.free) !! s.held.Keys;
  }

  // ---- whole runs ------------------------------------------------------------------------------

  datatype Call = AllocCall(t: Tid, noWait: bool, place: nat) | FreeCall(b: nat) | TimedOut(i: nat)

  /** Only a held block may be freed. */
  predicate Legal(s: Slab, c: Call) {
    c.FreeCall? ==> c.b in s.held.Keys
  }

  function Step(s: Slab, c: Call): Slab {
    match c
    case AllocCall(t, noWait, place) => Alloc(s, t, noWait, Min(place, |s.waiting|)).s
    case FreeCall(b) => Free(s, b)
    case TimedOut(i) => Leave(s, i)
  }

  ghost predicate Reaches(s: Slab, cs: seq<Call>, s': Slab)
    decreases |cs|
  {
    if cs == [] then s' == s else Legal(s, cs[0]) && Reaches(Step(s, cs[0]), cs[1..], s')
  }

  lemma {:induction false} StepKeeps(s: Slab, c: Call)
    requires Inv(s) && Legal(s, c)
    ensures Inv(Step(s, c)) && Step(s, c).blocks == s.blocks
  {
    hide Inv;
    match c
    case AllocCall(t, noWait, place) => AllocKeeps(s, t, noWait, Min(place, |s.waiting|));
    case FreeCall(b) => FreeKeeps(s, b);
    case TimedOut(i) => LeaveKeeps(s, i);
  }

  /** In every run of allocs, waits, timeouts and frees of held blocks, every block is
      free once or held once, and threads wait only while all are held. */
  lemma {:induction false} EveryRun(s: Slab, cs: seq<Call>, s': Slab)
    requires Inv(s) && Reaches(s, cs, s')
    ensures Inv(s') && s'.blocks == s.blocks && |s'.free| == s'.blocks - |s'.held.Keys|
    decreases |cs|
  {
    hide Inv, Step, Legal;
    if cs == [] {
      Adds(s);
    } else {
      StepKeeps(s, cs[0]);
      EveryRun(Step(s, cs[0]), cs[1..], s');
    }
  }
}
