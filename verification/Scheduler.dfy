/** The scheduler as sched.c runs it: state bits in one byte, the lock count counting down in
    another, 32-bit deadlines, and queues and cache changed in place, one call after
    another. */
module Scheduler {
  import opened Rings
  import opened RunQueues
  import opened SchedState
  import SchedSteps

  /** Bits of thread_state. */
  const PENDING: bv8 := 0x02
  const PRESTART: bv8 := 0x04
  const DEAD: bv8 := 0x08
  const SUSPENDED: bv8 := 0x10
  const QUEUED: bv8 := 0x80

  /** Bits that stay clear on one processor: dummy, aborting, suspending. */
  const UNUSED: bv8 := 0x61

  /** A thread as the kernel keeps it. sched_locked counts down from 0, in one byte;
      prio_deadline is 32 bits wide. */
  datatype Tcb = Tcb(state: bv8, prio: int, schedLocked: nat, deadline: nat, timeout: bool, pendedOn: WaitQ)

  predicate Has(x: Tcb, m: bv8) {
    x.state & m != 0
  }

  /** How often the scheduler is locked. */
  function Locks(schedLocked: nat): int {
    if schedLocked == 0 then 0 else 256 - schedLocked
  }

  /** A byte counted down or up. */
  function Down(b: nat): nat {
    if b == 0 then 255 else b - 1
  }

  function Up(b: nat): nat {
    if b == 255 then 0 else b + 1
  }

  /** The thread a control block stands for; the deadline before it was cut to 32 bits, and
      the time of arrival, are history. */
  function Decode(x: Tcb, r: Rank): (th: Thread)
    requires x.schedLocked < 256
    ensures th.rank == r
  {
    Thread(r, Locks(x.schedLocked), Has(x, QUEUED), Has(x, PENDING), Has(x, SUSPENDED), Has(x, DEAD), Has(x, PRESTART),
           x.timeout, x.pendedOn)
  }

  ghost predicate Stands(x: Tcb, r: Rank) {
    && x.schedLocked < 256 && -128 <= x.prio < 128 && x.prio == r.prio && x.deadline == r.deadline % MOD32
    && x.state & UNUSED == 0
  }

  ghost predicate StandAll(xs: seq<Tcb>, rs: seq<Rank>) {
    |rs| == |xs| && forall i :: 0 <= i < |xs| ==> Stands(xs[i], rs[i])
  }

  ghost function DecodeAll(xs: seq<Tcb>, rs: seq<Rank>): (ts: seq<Thread>)
    requires StandAll(xs, rs)
    ensures |ts| == |xs|
  {
    seq(|xs|, i requires 0 <= i < |xs| => Decode(xs[i], rs[i]))
  }

  /** z_is_thread_ready: no blocking bit, no timeout. */
  predicate IsReady(x: Tcb) {
    x.state & (PENDING | PRESTART | DEAD | SUSPENDED) == 0 && !x.timeout
  }

  /** prio and sched_locked, read as one 16-bit word. */
  function PreemptWord(x: Tcb): int {
    x.schedLocked * 256 + if x.prio < 0 then x.prio + 256 else x.prio
  }

  /** z_sched_prio_cmp on 32-bit deadlines. */
  function Compare(a: Tcb, b: Tcb): int {
    if a.prio != b.prio then b.prio - a.prio else Signed32(b.deadline - a.deadline)
  }

  function WithBit(th: Thread, m: bv8, on: bool): Thread {
    if m == QUEUED then th.(queued := on) else if m == PENDING then th.(pending := on)
    else if m == SUSPENDED then th.(suspended := on) else if m == DEAD then th.(dead := on)
    else if m == PRESTART then th.(prestart := on) else th
  }

  predicate StateBit(m: bv8) {
    m == QUEUED || m == PENDING || m == SUSPENDED || m == DEAD || m == PRESTART
  }

  /** Setting or clearing one bit of the byte changes that bit of the thread. */
  lemma {:induction false} BitChanges(x: Tcb, r: Rank, m: bv8)
    requires x.schedLocked < 256 && StateBit(m)
    ensures Decode(x.(state := x.state | m), r) == WithBit(Decode(x, r), m, true)
    ensures Decode(x.(state := x.state & !m), r) == WithBit(Decode(x, r), m, false)
    ensures x.state & UNUSED == 0 ==> (x.state | m) & UNUSED == 0 && (x.state & !m) & UNUSED == 0
  {
  }

  lemma {:induction false} QueuedBlock(x: Tcb, r: Rank, r': Rank)
    requires x.schedLocked < 256
    ensures Decode(x.(state := x.state | QUEUED), r') == Decode(x, r).(queued := true, rank := r')
    ensures x.state & UNUSED == 0 ==> (x.state | QUEUED) & UNUSED == 0
  {
    BitChanges(x, r', QUEUED);
  }

  /** One mask decides readiness, one comparison of the 16-bit word preemptibility. */
  lemma {:induction false} MasksDecide(x: Tcb, r: Rank)
    requires Stands(x, r)
    ensures IsReady(x) <==> Ready(Decode(x, r))
    ensures IsReady(x.(timeout := false)) <==> !Prevented(Decode(x, r))
    ensures PreemptWord(x) <= 127 <==> Preemptible(Decode(x, r))
  {
  }

  /** Comparing in 32 bits is the comparison of ranks. */
  lemma {:induction false} CompareRanks(a: Tcb, ra: Rank, b: Tcb, rb: Rank)
    requires Stands(a, ra) && Stands(b, rb)
    ensures Compare(a, b) == PrioCmp(ra, rb)
  {
  }

  /** Counting the byte down locks once more, unless it was at 1; counting it up unlocks. */
  lemma {:induction false} LockCounts(l: nat)
    requires l < 256
    ensures Locks(Down(l)) == Locks(l) + 1 <==> l != 1
    ensures l != 0 ==> Locks(Up(l)) == Locks(l) - 1
  {
  }

  /** Every queue names existing threads. */
  ghost predicate Fits(k: Sched) {
    k.current < |k.threads| && InRange(k, k.runq) && forall w :: InRange(k, Queue(k, w))
  }

  datatype JoinOutcome = Joined | Busy | Deadlock | Waits

  class Kernel {
    var tcbs: seq<Tcb>
    var runq: seq<Tid>
    var waitqs: map<WaitQ, seq<Tid>>
    var cache: Tid
    var current: Tid
    ghost var ranks: seq<Rank>
    ghost var clock: nat
    ghost var inWindow: bool

    ghost predicate Concrete()
      reads this
    {
      StandAll(tcbs, ranks)
    }

    /** The state this object stands for. */
    ghost function Here(): Sched
      reads this
      requires Concrete()
    {
      Sched(DecodeAll(tcbs, ranks), runq, waitqs, cache, current, clock, inWindow)
    }

    ghost predicate Valid()
      reads this
    {
      Concrete() && SchedSteps.Good(Here()) && SchedSteps.CacheReady(Here())
    }

    /** The queues name existing threads, and so does the caller. */
    ghost predicate Sized(t: Tid)
      reads this
    {
      Concrete() && t < |tcbs| && Fits(Here())
    }

    /** The walk of z_priq_dumb_add over a queue. */
    method FindSlot(q: seq<Tid>, x: Tcb, ghost r: Rank) returns (p: nat)
      requires Concrete() && InRange(Here(), q) && Stands(x, r)
      ensures p == Slot(Ranks(Here(), q), r) && p <= |q|
    {
      hide PrioCmp, Compare, Stands;
      ghost var rs := Ranks(Here(), q);
      p := 0;
      if q != [] { CompareAt(q, 0, x, r); }
      while p < |q| && Compare(x, tcbs[q[p]]) <= 0
        invariant p <= |q| && p + Slot(rs[p..], r) == Slot(rs, r)
        invariant p < |q| ==> Compare(x, tcbs[q[p]]) == PrioCmp(r, rs[p])
      {
        assert rs[p..][0] == rs[p] && rs[p..][1..] == rs[p + 1..];
        p := p + 1;
        if p < |q| { CompareAt(q, p, x, r); }
      }
      if p < |q| {
        assert rs[p..][0] == rs[p];
      }
    }

    lemma CompareAt(q: seq<Tid>, p: nat, x: Tcb, r: Rank)
      requires Concrete() && InRange(Here(), q) && Stands(x, r) && p < |q|
      ensures Compare(x, tcbs[q[p]]) == PrioCmp(r, Ranks(Here(), q)[p])
    {
      CompareRanks(x, r, tcbs[q[p]], ranks[q[p]]);
    }

    /** A write to a control block, with what it means for the rank. */
    method Write(t: Tid, x: Tcb, ghost r: Rank)
      requires Sized(t) && Stands(x, r)
      modifies this`tcbs, this`ranks
      ensures Sized(t) && |tcbs| == old(|tcbs|) && tcbs == old(tcbs)[t := x] && ranks == old(ranks)[t := r]
      ensures Here() == Set(old(Here()), t, Decode(x, r))
    {
      hide Fits, Decode;
      SetFits(Here(), t, Decode(x, r));
      tcbs := tcbs[t := x];
      ranks := ranks[t := r];
      assert DecodeAll(tcbs, ranks) == old(DecodeAll(tcbs, ranks))[t := Decode(x, r)];
    }

    /** thread_state |= m. */
    method Mark(t: Tid, m: bv8)
      requires Sized(t) && StateBit(m)
      modifies this`tcbs, this`ranks
      ensures Sized(t) && |tcbs| == old(|tcbs|) && ranks == old(ranks)
      ensures Here() == Set(old(Here()), t, WithBit(old(Here().threads[t]), m, true))
    {
      hide Fits, Decode, WithBit, StateBit;
      BitChanges(tcbs[t], ranks[t], m);
      Write(t, tcbs[t].(state := tcbs[t].state | m), ranks[t]);
    }

    /** thread_state &= ~m. */
    method Unmark(t: Tid, m: bv8)
      requires Sized(t) && StateBit(m)
      modifies this`tcbs, this`ranks
      ensures Sized(t) && |tcbs| == old(|tcbs|) && ranks == old(ranks)
      ensures Here() == Set(old(Here()), t, WithBit(old(Here().threads[t]), m, false))
    {
      hide Fits, Decode, WithBit, StateBit;
      BitChanges(tcbs[t], ranks[t], m);
      Write(t, tcbs[t].(state := tcbs[t].state & !m), ranks[t]);
    }

    /** queue_thread. */
    method QueueThread(t: Tid)
      requires Sized(t)
      modifies this`tcbs, this`ranks, this`runq, this`clock, this`inWindow
      ensures Sized(t) && |tcbs| == old(|tcbs|) && Here() == Enqueue(old(Here()), t)
    {
      hide Slot, Ranks, Fits, Near, Decode;
      ghost var k, r := Here(), ranks[t].(arrival := clock);
      EnqueueFits(k, t);
      FitsCurrent(k);
      var p := FindSlot(runq, tcbs[t], r);
      QueuedBlock(tcbs[t], ranks[t], r);
      Write(t, tcbs[t].(state := tcbs[t].state | QUEUED), r);
      runq := runq[..p] + [t] + runq[p..];
      inWindow := Enqueue(k, t).inWindow;
      clock := clock + 1;
    }

    /** dequeue_thread. */
    method DequeueThread(t: Tid)
      requires Sized(t)
      modifies this`tcbs, this`ranks, this`runq
      ensures Sized(t) && |tcbs| == old(|tcbs|) && Here() == Dequeue(old(Here()), t)
    {
      hide Remove, Fits;
      DequeueFits(Here(), t);
      Unmark(t, QUEUED);
      runq := Unlink(runq, t);
    }

    /** next_up, should_preempt and update_cache on one processor. */
    method RefreshCache(preemptOk: bool)
      requires Sized(current)
      modifies this`cache
      ensures Sized(current) && Here() == UpdateCache(old(Here()), preemptOk)
    {
      hide Fits, Prevented, Preemptible;
      CacheFits(Here(), preemptOk);
      MasksDecide(tcbs[current], ranks[current]);
      var next := if runq != [] then runq[0] else IDLE;
      var preempt := preemptOk || !IsReady(tcbs[current].(timeout := false)) || PreemptWord(tcbs[current]) <= 127;
      cache := if preempt then next else current;
    }

    /** The timeout of a thread is armed or cancelled. */
    method SetTimeout(t: Tid, on: bool)
      requires Sized(t)
      modifies this`tcbs, this`ranks
      ensures Sized(t) && |tcbs| == old(|tcbs|) && Here() == Set(old(Here()), t, old(Here().threads[t]).(timeout := on))
    {
      hide Fits;
      Write(t, tcbs[t].(timeout := on), ranks[t]);
    }

    method SetPendedOn(t: Tid, w: WaitQ)
      requires Sized(t)
      modifies this`tcbs, this`ranks
      ensures Sized(t) && |tcbs| == old(|tcbs|) && Here() == Set(old(Here()), t, old(Here().threads[t]).(pendedOn := w))
    {
      hide Fits;
      Write(t, tcbs[t].(pendedOn := w), ranks[t]);
    }

    method ReadyThread(t: Tid)
      requires Sized(t)
      modifies this`tcbs, this`ranks, this`runq, this`clock, this`inWindow, this`cache
      ensures Sized(t) && |tcbs| == old(|tcbs|) && Here() == SchedSteps.ReadyThread(old(Here()), t)
    {
      hide Enqueue, Fits, Ready;
      FitsCurrent(Here());
      MasksDecide(tcbs[t], ranks[t]);
      if !Has(tcbs[t], QUEUED) && IsReady(tcbs[t]) {
        QueueThread(t);
        FitsCurrent(Here());
        RefreshCache(false);
      }
    }

    method UnreadyThread(t: Tid)
      requires Sized(t)
      modifies this`tcbs, this`ranks, this`runq, this`cache
      ensures Sized(t) && |tcbs| == old(|tcbs|) && Here() == SchedSteps.UnreadyThread(old(Here()), t)
    {
      hide Dequeue, UpdateCache, Fits;
      FitsCurrent(Here());
      if Has(tcbs[t], QUEUED) {
        DequeueThread(t);
      }
      FitsCurrent(Here());
      RefreshCache(t == current);
    }

    /** The second half of add_to_waitq_locked. */
    method AddToWaitq(t: Tid, w: WaitQ)
      requires Sized(t)
      modifies this`tcbs, this`ranks, this`waitqs
      ensures Sized(t) && |tcbs| == old(|tcbs|) && Here() == WaitAdd(old(Here()), t, w)
    {
      ghost var k := Here();
      WaitAddFits(k, t, w);
      assert InRange(k, Queue(k, w));
      hide Slot, Ranks, Fits, Decode;
      var q := if w in waitqs then waitqs[w] else [];
      var p := FindSlot(q, tcbs[t], ranks[t]);
      Mark(t, PENDING);
      if w != NoQueue {
        SetPendedOn(t, w);
        waitqs := waitqs[w := q[..p] + [t] + q[p..]];
        assert Here() == WaitAdd(k, t, w);
      }
    }

    /** unpend_thread_no_timeout. */
    method UnpendNoTimeout(t: Tid)
      requires Sized(t)
      modifies this`tcbs, this`ranks, this`waitqs
      ensures Sized(t) && |tcbs| == old(|tcbs|) && Here() == WaitRemove(old(Here()), t)
    {
      hide Remove, Fits;
      ghost var k := Here();
      WaitRemoveFits(k, t);
      var w := tcbs[t].pendedOn;
      var q := Unlink(if w in waitqs then waitqs[w] else [], t);
      Unmark(t, PENDING);
      SetPendedOn(t, NoQueue);
      waitqs := waitqs[w := q];
      assert Here() == WaitRemove(k, t);
    }

    method UnpendThread(t: Tid)
      requires Sized(t)
      modifies this`tcbs, this`ranks, this`waitqs
      ensures Sized(t) && |tcbs| == old(|tcbs|) && Here() == SchedSteps.UnpendThread(old(Here()), t)
    {
      hide WaitRemove, Fits;
      if tcbs[t].pendedOn != NoQueue {
        UnpendNoTimeout(t);
      }
      SetTimeout(t, false);
    }

    // ---- the calls ----------------------------------------------------------------------

    /** z_unpend_thread and z_ready_thread. */
    method WakeThread(t: Tid)
      requires Sized(t)
      modifies this`tcbs, this`ranks, this`runq, this`waitqs, this`clock, this`inWindow, this`cache
      ensures Sized(t) && |tcbs| == old(|tcbs|) && Here() == SchedSteps.WakeThread(old(Here()), t)
    {
      hide Fits, SchedSteps.UnpendThread, SchedSteps.ReadyThread;
      FitsCurrent(Here());
      UnpendThread(t);
      FitsCurrent(Here());
      ReadyThread(t);
    }

    /** z_unpend_first_thread and z_ready_thread. */
    method WakeFirst(w: WaitQ)
      requires Concrete() && Fits(Here())
      modifies this`tcbs, this`ranks, this`runq, this`waitqs, this`clock, this`inWindow, this`cache
      ensures Concrete() && Fits(Here()) && |tcbs| == old(|tcbs|) && Here() == SchedSteps.WakeFirst(old(Here()), w)
    {
      hide SchedSteps.WakeThread;
      var q := if w in waitqs then waitqs[w] else [];
      assert q == Queue(Here(), w) && InRange(Here(), q);
      if q != [] {
        hide Fits;
        WakeThread(q[0]);
      }
    }

    lemma ValidFits()
      requires Valid()
      ensures Concrete() && Fits(Here()) && current < |tcbs|
    {
      FitsGood(Here());
    }

    /** The first waiter of an object is woken. */
    method Signal(w: WaitQ)
      requires Valid()
      modifies this
      ensures Valid() && Here() == SchedSteps.WakeFirst(old(Here()), w)
    {
      hide Fits, SchedSteps.Good, SchedSteps.WakeFirst, SchedSteps.CacheReady, SchedSteps.Same;
      ValidFits();
      SchedSteps.WakeFirstKeeps(Here(), w);
      WakeFirst(w);
    }

    /** z_thread_timeout: z_sched_wake_thread for a timeout that has just fired. */
    method ThreadTimeout(t: Tid)
      requires Valid() && 0 < t < |tcbs|
      modifies this
      ensures Valid() && Here() == SchedSteps.TimeoutFires(old(Here()), t)
    {
      hide Fits, SchedSteps.Good, SchedSteps.UnpendThread, SchedSteps.ReadyThread, SchedSteps.CacheReady,
          SchedSteps.Same;
      ValidFits();
      SchedSteps.TimeoutKeeps(Here(), t);
      if tcbs[t].timeout {
        if Has(tcbs[t], DEAD) {
          SetTimeout(t, false);
        } else {
          UnpendThread(t);
          ghost var k := Here();
          Unmark(t, PRESTART);
          ghost var th := Here().threads[t];
          Unmark(t, SUSPENDED);
          SetTwice(k, t, th, Here().threads[t]);
          FitsCurrent(Here());
          ReadyThread(t);
        }
      }
    }

    /** z_sched_start. */
    method Start(t: Tid)
      requires Valid() && 0 < t < |tcbs|
      modifies this
      ensures Valid() && Here() == SchedSteps.StartThread(old(Here()), t)
    {
      hide Fits, SchedSteps.Good, SchedSteps.ReadyThread, SchedSteps.CacheReady, SchedSteps.Same;
      ValidFits();
      SchedSteps.StartKeeps(Here(), t);
      if Has(tcbs[t], PRESTART) {
        Unmark(t, PRESTART);
        FitsCurrent(Here());
        ReadyThread(t);
      }
    }

    /** z_impl_k_thread_resume. */
    method Resume(t: Tid)
      requires Valid() && 0 < t < |tcbs|
      modifies this
      ensures Valid() && Here() == SchedSteps.Resume(old(Here()), t)
    {
      hide Fits, SchedSteps.Good, SchedSteps.ReadyThread, SchedSteps.CacheReady, SchedSteps.Same;
      ValidFits();
      SchedSteps.ResumeKeeps(Here(), t);
      if Has(tcbs[t], SUSPENDED) {
        Unmark(t, SUSPENDED);
        FitsCurrent(Here());
        ReadyThread(t);
      }
    }

    /** z_impl_k_wakeup; a thread that sleeps for ever has the suspended bit and no other. */
    method Wakeup(t: Tid)
      requires Valid() && 0 < t < |tcbs|
      modifies this
      ensures Valid() && Here() == SchedSteps.Wakeup(old(Here()), t)
    {
      hide Fits, SchedSteps.Good, SchedSteps.ReadyThread, SchedSteps.CacheReady, SchedSteps.Same;
      ValidFits();
      SchedSteps.WakeupKeeps(Here(), t);
      if Has(tcbs[t], PENDING) {
        return;
      }
      OnlySuspended(tcbs[t], ranks[t]);
      if !tcbs[t].timeout && tcbs[t].state != SUSPENDED {
        return;
      }
      ghost var k := Here();
      SetTimeout(t, false);
      ghost var th := Here().threads[t];
      Unmark(t, SUSPENDED);
      SetTwice(k, t, th, Here().threads[t]);
      FitsCurrent(Here());
      ReadyThread(t);
    }

    /** z_impl_k_thread_suspend with halt_thread. */
    method Suspend(t: Tid)
      requires Valid() && 0 < t < |tcbs|
      modifies this
      ensures Valid() && Here() == SchedSteps.Suspend(old(Here()), t)
    {
      hide Fits, SchedSteps.Good, Dequeue, UpdateCache, SchedSteps.CacheReady, SchedSteps.Same;
      ValidFits();
      SchedSteps.SuspendKeeps(Here(), t);
      SetTimeout(t, false);
      if !Has(tcbs[t], SUSPENDED) {
        if Has(tcbs[t], QUEUED) {
          DequeueThread(t);
        }
        Mark(t, SUSPENDED);
        FitsCurrent(Here());
        RefreshCache(true);
      }
    }

    /** A preemption point: z_swap to the cached thread. */
    method Swap()
      requires Valid()
      modifies this`current
      ensures Valid() && Here() == SchedSteps.Switch(old(Here()))
    {
      hide SchedSteps.Good, SchedSteps.CacheReady, SchedSteps.Same;
      SchedSteps.AnySwitchKeeps(Here());
      current := cache;
    }

    /** z_pend_curr. */
    method PendCurrent(w: WaitQ, timed: bool)
      requires Valid() && SchedSteps.MayBlock(Here())
      modifies this
      ensures Valid() && Here() == SchedSteps.PendCurrent(old(Here()), w, timed)
    {
      hide Fits, SchedSteps.Good, SchedSteps.UnreadyThread, WaitAdd, SchedSteps.CacheReady, SchedSteps.Same;
      ValidFits();
      SchedSteps.PendKeeps(Here(), w, timed);
      UnreadyThread(current);
      AddToWaitq(current, w);
      SetTimeout(current, timed);
      current := cache;
    }

    /** z_tick_sleep. */
    method Sleep()
      requires Valid() && SchedSteps.MayBlock(Here())
      modifies this
      ensures Valid() && Here() == SchedSteps.Sleep(old(Here()))
    {
      hide Fits, SchedSteps.Good, SchedSteps.UnreadyThread, SchedSteps.CacheReady, SchedSteps.Same;
      ValidFits();
      SchedSteps.SleepKeeps(Here());
      UnreadyThread(current);
      ghost var k := Here();
      SetTimeout(current, true);
      ghost var th := Here().threads[current];
      Mark(current, SUSPENDED);
      SetTwice(k, current, th, Here().threads[current]);
      current := cache;
    }

    /** z_impl_k_yield. */
    method Yield()
      requires Valid() && SchedSteps.MayBlock(Here())
      modifies this
      ensures Valid() && Here() == SchedSteps.Yield(old(Here()))
    {
      hide Fits, SchedSteps.Good, Dequeue, Enqueue, UpdateCache, SchedSteps.CacheReady, SchedSteps.Same;
      ValidFits();
      SchedSteps.YieldKeeps(Here());
      DequeueThread(current);
      QueueThread(current);
      RefreshCache(true);
      current := cache;
    }

    /** move_thread_to_end_of_prio_q of a thread that can run. */
    method MoveToEnd(t: Tid)
      requires Valid() && 0 < t < |tcbs| && Has(tcbs[t], QUEUED)
      modifies this
      ensures Valid() && Here() == SchedSteps.MoveToEnd(old(Here()), t)
    {
      hide Fits, SchedSteps.Good, Dequeue, Enqueue, UpdateCache, SchedSteps.CacheReady, SchedSteps.Same;
      ValidFits();
      SchedSteps.MoveToEndKeeps(Here(), t);
      DequeueThread(t);
      QueueThread(t);
      FitsCurrent(Here());
      RefreshCache(t == current);
    }

    /** z_thread_prio_set. */
    method PrioSet(t: Tid, prio: int)
      requires Valid() && 0 < t < |tcbs| && -128 <= prio < 128
      modifies this
      ensures Valid() && Here() == SchedSteps.PrioSet(old(Here()), t, prio)
    {
      hide Fits, SchedSteps.Good, Dequeue, Enqueue, UpdateCache, SchedSteps.CacheReady, SchedSteps.Same, Ready;
      ValidFits();
      SchedSteps.PrioSetKeeps(Here(), t, prio);
      MasksDecide(tcbs[t], ranks[t]);
      if IsReady(tcbs[t]) {
        DequeueThread(t);
        Write(t, tcbs[t].(prio := prio), ranks[t].(prio := prio));
        QueueThread(t);
        FitsCurrent(Here());
        RefreshCache(true);
      } else {
        Write(t, tcbs[t].(prio := prio), ranks[t].(prio := prio));
      }
    }

    /** z_impl_k_thread_deadline_set: `ticks` from the cycle counter, of which the lower 32
        bits can be read. */
    method DeadlineSet(t: Tid, ghost cycles: int, cycles32: nat, ticks: int)
      requires Valid() && 0 < t < |tcbs| && cycles32 == cycles % MOD32
      modifies this
      ensures Valid() && Here() == SchedSteps.DeadlineSet(old(Here()), t, cycles + ticks)
    {
      hide Fits, SchedSteps.Good, Dequeue, Enqueue, SchedSteps.CacheReady, SchedSteps.Same;
      ValidFits();
      SchedSteps.DeadlineKeeps(Here(), t, cycles + ticks);
      var deadline := (cycles32 + ticks) % MOD32;
      CutSum(cycles, ticks);
      if Has(tcbs[t], QUEUED) {
        DequeueThread(t);
        Write(t, tcbs[t].(deadline := deadline), ranks[t].(deadline := cycles + ticks));
        QueueThread(t);
      } else {
        Write(t, tcbs[t].(deadline := deadline), ranks[t].(deadline := cycles + ticks));
      }
    }

    /** unpend_all: until the queue is empty. */
    method UnpendAll(w: WaitQ)
      requires Concrete() && SchedSteps.Good(Here())
      modifies this`tcbs, this`ranks, this`runq, this`waitqs, this`clock, this`inWindow, this`cache
      ensures Concrete() && SchedSteps.Good(Here()) && |tcbs| == old(|tcbs|)
      ensures Here() == SchedSteps.UnpendAll(old(Here()), w, |Queue(old(Here()), w)|)
      ensures Queue(Here(), w) == []
    {
      hide Fits, SchedSteps.Good, SchedSteps.WakeFirst, SchedSteps.CacheReady, SchedSteps.Same;
      FitsGood(Here());
      ghost var all := SchedSteps.UnpendAll(Here(), w, |Queue(Here(), w)|);
      while w in waitqs && waitqs[w] != []
        invariant Concrete() && SchedSteps.Good(Here()) && Fits(Here()) && |tcbs| == old(|tcbs|) && current < |tcbs|
        invariant all == SchedSteps.UnpendAll(Here(), w, |Queue(Here(), w)|)
        decreases if Concrete() then |Queue(Here(), w)| else 0
      {
        SchedSteps.WakeFirstKeeps(Here(), w);
        SchedSteps.WakeFirstShortens(Here(), w);
        WakeFirst(w);
        FitsCurrent(Here());
      }
    }

    /** z_thread_abort and halt_thread. */
    method Abort(t: Tid)
      requires Valid() && 0 < t < |tcbs|
      modifies this
      ensures Valid() && Here() == SchedSteps.AbortThread(old(Here()), t)
    {
      hide Fits, SchedSteps.Good, Dequeue, UpdateCache, SchedSteps.UnpendAll, SchedSteps.UnpendThread,
          SchedSteps.CacheReady, SchedSteps.Same;
      ValidFits();
      SchedSteps.AbortKeeps(Here(), t);
      if !Has(tcbs[t], DEAD) {
        SchedSteps.DyingIsGood(Here(), t);
        if Has(tcbs[t], QUEUED) {
          DequeueThread(t);
        }
        Mark(t, DEAD);
        UnpendThread(t);
        UnpendAll(Join(t));
        FitsGood(Here());
        RefreshCache(true);
      }
    }

    /** z_impl_k_thread_join: 0 for a dead thread, -EBUSY, -EDEADLK, or the caller waits. */
    method JoinThread(t: Tid, noWait: bool, timed: bool) returns (r: JoinOutcome)
      requires Valid() && 0 < t < |tcbs| && (SchedSteps.JoinWaits(Here(), t, noWait) ==> SchedSteps.MayBlock(Here()))
      modifies this
      ensures Valid() && Here() == SchedSteps.JoinThread(old(Here()), t, noWait, timed)
      ensures r.Waits? || Here() == old(Here())
      ensures r.Joined? <==> old(Here().threads[t].dead)
      ensures r.Busy? <==> !old(Here().threads[t].dead) && noWait
      ensures r.Deadlock? <==>
        !old(Here().threads[t].dead) && !noWait && (t == old(current) || t in old(Queue(Here(), Join(current))))
    {
      hide SchedSteps.PendCurrent, SchedSteps.CacheReady, Settled;
      SchedSteps.WaitsIffListed(Here(), t, Join(current));
      hide SchedSteps.Good, Queue;
      if Has(tcbs[t], DEAD) {
        r := Joined;
      } else if noWait {
        r := Busy;
      } else if t == current || tcbs[t].pendedOn == Join(current) {
        r := Deadlock;
      } else {
        r := Waits;
        PendCurrent(Join(t), timed);
      }
    }

    /** k_sched_lock: the byte counts down, and must not be at 1. */
    method Lock()
      requires Valid() && current != IDLE && current < |tcbs| && tcbs[current].schedLocked != 1
      modifies this
      ensures Valid() && Here() == SchedSteps.SchedLock(old(Here()))
    {
      hide Fits, SchedSteps.Good, SchedSteps.CacheReady, SchedSteps.Same;
      ValidFits();
      SchedSteps.LockKeeps(Here());
      LockCounts(tcbs[current].schedLocked);
      Write(current, tcbs[current].(schedLocked := Down(tcbs[current].schedLocked)), ranks[current]);
    }

    /** k_sched_unlock: the byte counts up, and must not be at 0. */
    method Unlock()
      requires Valid() && current != IDLE && current < |tcbs| && tcbs[current].schedLocked != 0
      modifies this
      ensures Valid() && old(Here().threads[current]).locked > 0 && Here() == SchedSteps.SchedUnlock(old(Here()))
    {
      hide Fits, SchedSteps.Good, SchedSteps.CacheReady, SchedSteps.Same, UpdateCache;
      ValidFits();
      SchedSteps.UnlockKeeps(Here());
      LockCounts(tcbs[current].schedLocked);
      Write(current, tcbs[current].(schedLocked := Up(tcbs[current].schedLocked)), ranks[current]);
      RefreshCache(false);
    }
  }

  lemma {:induction false} OnlySuspended(x: Tcb, r: Rank)
    requires Stands(x, r)
    ensures x.state == SUSPENDED <==>
      var th := Decode(x, r); th.suspended && !th.pending && !th.dead && !th.prestart && !th.queued
  {
  }

  lemma {:induction false} SetTwice(k: Sched, t: Tid, a: Thread, b: Thread)
    requires t < |k.threads|
    ensures Set(Set(k, t, a), t, b) == Set(k, t, b)
  {
    assert k.threads[t := a][t := b] == k.threads[t := b];
  }

  lemma {:induction false} CutSum(a: int, b: int)
    ensures (a % MOD32 + b) % MOD32 == (a + b) % MOD32
  {
    assert a + b == a / MOD32 * MOD32 + (a % MOD32 + b);
  }

  lemma {:induction false} FitsGood(k: Sched)
    requires SchedSteps.Good(k)
    ensures Fits(k) && k.current < |k.threads|
  {
  }

  lemma {:induction false} FitsCurrent(k: Sched)
    requires Fits(k)
    ensures k.current < |k.threads| && InRange(k, k.runq)
  {
  }

  lemma {:induction false} QueueFits(k: Sched, k': Sched, w: WaitQ)
    requires Fits(k) && |k'.threads| == |k.threads| && k'.current == k.current && k'.runq == k.runq
    requires forall v :: v != w ==> Queue(k', v) == Queue(k, v)
    requires InRange(k', Queue(k', w))
    ensures Fits(k')
  {
    forall v ensures InRange(k', Queue(k', v)) {
      assert InRange(k, Queue(k, v));
    }
  }

  lemma {:induction false} SetFits(k: Sched, t: Tid, th: Thread)
    requires Fits(k) && t < |k.threads|
    ensures Fits(Set(k, t, th))
  {
    assert InRange(k, Queue(k, NoQueue));
    QueueFits(k, Set(k, t, th), NoQueue);
  }

  lemma {:induction false} CacheFits(k: Sched, preemptOk: bool)
    requires Fits(k)
    ensures Fits(UpdateCache(k, preemptOk))
  {
    assert InRange(k, Queue(k, NoQueue));
    QueueFits(k, UpdateCache(k, preemptOk), NoQueue);
  }

  lemma {:induction false} RunFits(k: Sched, k': Sched)
    requires Fits(k) && |k'.threads| == |k.threads| && k'.current == k.current && k'.waitqs == k.waitqs
    requires InRange(k', k'.runq)
    ensures Fits(k')
  {
    forall v ensures InRange(k', Queue(k', v)) {
      assert InRange(k, Queue(k, v));
    }
  }

  lemma {:induction false} EnqueueFits(k: Sched, t: Tid)
    requires Fits(k) && t < |k.threads|
    ensures Fits(Enqueue(k, t)) && |Enqueue(k, t).threads| == |k.threads| && Enqueue(k, t).current == k.current
  {
    var p := Slot(Ranks(k, k.runq), k.threads[t].rank.(arrival := k.clock));
    InRangeIn(k, k.runq);
    PlacedIn(k.runq, p, t);
    InRangeOf(Enqueue(k, t), Enqueue(k, t).runq);
    RunFits(k, Enqueue(k, t));
  }

  lemma {:induction false} RemoveFits(k: Sched, s: seq<Tid>, t: Tid)
    requires InRange(k, s)
    ensures InRange(k, Remove(s, t))
  {
    var r, p := Remove(s, t), Index(s, t);
    assert p < |s| ==> forall i :: 0 <= i < |r| ==> r[i] == s[if i < p then i else i + 1];
  }

  lemma {:induction false} DequeueFits(k: Sched, t: Tid)
    requires Fits(k) && t < |k.threads|
    ensures Fits(Dequeue(k, t))
  {
    RemoveFits(k, k.runq, t);
    InRangeIn(k, Remove(k.runq, t));
    InRangeOf(Dequeue(k, t), Remove(k.runq, t));
    RunFits(k, Dequeue(k, t));
  }

  lemma {:induction false} WaitAddFits(k: Sched, t: Tid, w: WaitQ)
    requires Fits(k) && t < |k.threads|
    ensures Fits(WaitAdd(k, t, w))
  {
    var q, k' := Queue(k, w), WaitAdd(k, t, w);
    if w == NoQueue {
      SetFits(k, t, k.threads[t].(pending := true));
      return;
    }
    var p := Slot(Ranks(k, q), k.threads[t].rank);
    assert InRange(k, q);
    InRangeIn(k, q);
    PlacedIn(q, p, t);
    assert Queue(k', w) == q[..p] + [t] + q[p..];
    InRangeOf(k', Queue(k', w));
    QueueFits(k, k', w);
  }

  lemma {:induction false} WaitRemoveFits(k: Sched, t: Tid)
    requires Fits(k) && t < |k.threads|
    ensures Fits(WaitRemove(k, t))
  {
    var w, k' := k.threads[t].pendedOn, WaitRemove(k, t);
    assert InRange(k, Queue(k, w));
    RemoveFits(k, Queue(k, w), t);
    assert Queue(k', w) == Remove(Queue(k, w), t);
    InRangeIn(k, Queue(k', w));
    InRangeOf(k', Queue(k', w));
    QueueFits(k, k', w);
  }
}
