/** When the run queue is in order for good (sched.c): as long as all deadlines lie within one
    window of half the 32-bit range, and so whenever deadlines are not used. */
module SchedWindows {
  import opened Rings
  import opened RunQueues
  import opened SchedState
  import opened SchedSteps
  import opened SchedEffects

  predicate InWindow(lo: int, deadline: int) {
    lo <= deadline < lo + HALF32
  }

  /** All deadlines lie in the window from `lo` on, and always did since the run queue was last
      empty. */
  ghost predicate Within(k: Sched, lo: int) {
    && (k.runq == [] || k.inWindow) && InRange(k, k.runq) && k.current < |k.threads|
    && forall t :: 0 <= t < |k.threads| ==> InWindow(lo, k.threads[t].rank.deadline)
  }

  /** A call asks for no deadline outside the window. */
  predicate Asks(lo: int, c: Call) {
    c.CallDeadline? ==> InWindow(lo, c.deadline)
  }

  lemma {:induction false} SetWithin(k: Sched, t: Tid, th: Thread, lo: int)
    requires Within(k, lo) && t < |k.threads| && InWindow(lo, th.rank.deadline)
    ensures Within(Set(k, t, th), lo)
  {
  }

  lemma {:induction false} EnqueueWithin(k: Sched, t: Tid, lo: int)
    requires Within(k, lo) && t < |k.threads|
    ensures Within(Enqueue(k, t), lo)
  {
    hide Slot, Ranks;
    var k' := Enqueue(k, t);
    forall i | 0 <= i < |k.runq| ensures Near(k'.threads[t].rank, RankOf(k, k.runq[i])) {
      assert InWindow(lo, k.threads[k.runq[i]].rank.deadline);
    }
    assert InWindow(lo, k.threads[t].rank.deadline);
  }

  lemma {:induction false} DequeueWithin(k: Sched, t: Tid, lo: int)
    requires Within(k, lo) && t < |k.threads|
    ensures Within(Dequeue(k, t), lo)
  {
    var k', p := Dequeue(k, t), Index(k.runq, t);
    assert p < |k.runq| ==> forall i :: 0 <= i < |k'.runq| ==> k'.runq[i] == k.runq[if i < p then i else i + 1];
  }

  /** Threads keep their deadlines and the run queue stays. */
  lemma {:induction false} SameWithin(k: Sched, k': Sched, lo: int)
    requires Within(k, lo) && |k'.threads| == |k.threads| && k'.runq == k.runq && k'.inWindow == k.inWindow
    requires forall t :: 0 <= t < |k.threads| ==> k'.threads[t].rank == k.threads[t].rank
    requires k'.current < |k'.threads|
    ensures Within(k', lo)
  {
  }

  lemma {:induction false} ReadyWithin(k: Sched, t: Tid, lo: int)
    requires Within(k, lo) && t < |k.threads|
    ensures Within(ReadyThread(k, t), lo)
  {
    hide Within, Enqueue, Best;
    if !k.threads[t].queued && Ready(k.threads[t]) {
      EnqueueWithin(k, t, lo);
      CacheWithin(Enqueue(k, t), false, lo);
    }
  }

  lemma {:induction false} CacheWithin(k: Sched, preemptOk: bool, lo: int)
    requires Within(k, lo)
    ensures k.current < |k.threads| && Within(UpdateCache(k, preemptOk), lo)
  {
    hide Best;
  }

  lemma {:induction false} BitsWithin(k: Sched, t: Tid, th: Thread, lo: int)
    requires Within(k, lo) && t < |k.threads| && th.rank == k.threads[t].rank
    ensures Within(Set(k, t, th), lo)
    ensures k.current < |k.threads| && Within(ReadyThread(Set(k, t, th), t), lo)
  {
    assert InWindow(lo, k.threads[t].rank.deadline);
    SetWithin(k, t, th, lo);
    hide ReadyThread;
    ReadyWithin(Set(k, t, th), t, lo);
  }

  lemma {:induction false} UnpendWithin(k: Sched, t: Tid, lo: int)
    requires Within(k, lo) && t < |k.threads|
    ensures Within(UnpendThread(k, t), lo) && UnpendThread(k, t).threads[t].rank == k.threads[t].rank
    ensures |UnpendThread(k, t).threads| == |k.threads|
  {
    hide Remove, Queue;
    SameWithin(k, UnpendThread(k, t), lo);
  }

  lemma {:induction false} WakeWithin(k: Sched, t: Tid, lo: int)
    requires Within(k, lo) && t < |k.threads|
    ensures k.current < |k.threads| && Within(WakeThread(k, t), lo)
  {
    UnpendWithin(k, t, lo);
    hide ReadyThread, UnpendThread;
    ReadyWithin(UnpendThread(k, t), t, lo);
  }

  lemma {:induction false} WakeFirstWithin(k: Sched, w: WaitQ, lo: int)
    requires Within(k, lo)
    ensures k.current < |k.threads| && Within(WakeFirst(k, w), lo)
  {
    hide WakeThread;
    var q := Queue(k, w);
    if q != [] && q[0] < |k.threads| {
      WakeWithin(k, q[0], lo);
    }
  }

  lemma {:induction false} UnpendAllWithin(k: Sched, w: WaitQ, n: nat, lo: int)
    requires Within(k, lo)
    ensures k.current < |k.threads| && Within(UnpendAll(k, w, n), lo)
    decreases n
  {
    hide WakeFirst;
    if n > 0 {
      WakeFirstWithin(k, w, lo);
      UnpendAllWithin(WakeFirst(k, w), w, n - 1, lo);
    }
  }

  lemma {:induction false} TimeoutWithin(k: Sched, t: Tid, lo: int)
    requires Within(k, lo) && t < |k.threads|
    ensures k.current < |k.threads| && Within(TimeoutFires(k, t), lo)
  {
    hide ReadyThread, UnpendThread;
    if k.threads[t].timeout {
      if k.threads[t].dead {
        BitsWithin(k, t, k.threads[t].(timeout := false), lo);
      } else {
        UnpendWithin(k, t, lo);
        var k1 := UnpendThread(k, t);
        BitsWithin(k1, t, k1.threads[t].(prestart := false, suspended := false), lo);
      }
    }
  }

  /** A thread leaves the run queue, if it is in it, and its bits change. */
  lemma {:induction false} HaltWithin(k: Sched, t: Tid, lo: int)
    requires Within(k, lo) && t < |k.threads|
    ensures var k1 := if k.threads[t].queued then Dequeue(k, t) else k;
      && Within(k1, lo) && |k1.threads| == |k.threads| && k1.current == k.current
      && k1.threads[t].rank == k.threads[t].rank
  {
    DequeueWithin(k, t, lo);
    hide Remove;
  }

  lemma {:induction false} SuspendWithin(k: Sched, t: Tid, lo: int)
    requires Within(k, lo) && t < |k.threads|
    ensures k.current < |k.threads| && Within(Suspend(k, t), lo)
  {
    var k0 := NoTimeout(k, t);
    BitsWithin(k, t, k.threads[t].(timeout := false), lo);
    if !k.threads[t].suspended {
      HaltWithin(k0, t, lo);
      var k1 := if k0.threads[t].queued then Dequeue(k0, t) else k0;
      hide Within, Dequeue, UpdateCache, ReadyThread;
      BitsWithin(k1, t, k1.threads[t].(suspended := true), lo);
      CacheWithin(Set(k1, t, k1.threads[t].(suspended := true)), true, lo);
    }
  }

  lemma {:induction false} AbortWithin(k: Sched, t: Tid, lo: int)
    requires Within(k, lo) && t < |k.threads|
    ensures k.current < |k.threads| && Within(AbortThread(k, t), lo)
  {
    if !k.threads[t].dead {
      HaltWithin(k, t, lo);
      var k1 := if k.threads[t].queued then Dequeue(k, t) else k;
      hide Within, Dequeue, UpdateCache, ReadyThread, UnpendThread, UnpendAll, Queue;
      BitsWithin(k1, t, k1.threads[t].(dead := true), lo);
      UnpendWithin(Set(k1, t, k1.threads[t].(dead := true)), t, lo);
      AbortIs(k, t);
      var k2 := Dead(k, t);
      UnpendAllWithin(k2, Join(t), |Queue(k2, Join(t))|, lo);
      CacheWithin(UnpendAll(k2, Join(t), |Queue(k2, Join(t))|), true, lo);
    }
  }

  /** Out of the run queue and in again, perhaps with another rank. */
  lemma {:induction false} RequeueWithin(k: Sched, t: Tid, r: Rank, lo: int)
    requires Within(k, lo) && t < |k.threads| && InWindow(lo, r.deadline)
    ensures var k1 := Dequeue(k, t);
      Within(Enqueue(k1, t), lo) && Within(Enqueue(Set(k1, t, k1.threads[t].(rank := r)), t), lo)
  {
    DequeueWithin(k, t, lo);
    var k1 := Dequeue(k, t);
    hide Remove, Enqueue;
    EnqueueWithin(k1, t, lo);
    SetWithin(k1, t, k1.threads[t].(rank := r), lo);
    EnqueueWithin(Set(k1, t, k1.threads[t].(rank := r)), t, lo);
  }

  lemma {:induction false} UnreadyWithin(k: Sched, lo: int)
    requires Within(k, lo)
    ensures k.current < |k.threads|
    ensures var k1 := UnreadyThread(k, k.current);
      Within(k1, lo) && |k1.threads| == |k.threads| && k1.current == k.current
  {
    HaltWithin(k, k.current, lo);
    hide Dequeue, Best;
  }

  /** The calls by which the current thread steps aside. */
  lemma {:induction false} SleepWithin(k: Sched, lo: int)
    requires Good(k) && MayBlock(k) && Within(k, lo)
    ensures Within(Sleep(k), lo)
  {
    UnreadyWithin(k, lo);
    SleepReal(k);
    hide Good, UnreadyThread, Within;
    SameWithin(UnreadyThread(k, k.current), Sleep(k), lo);
  }

  lemma {:induction false} SleepReal(k: Sched)
    requires Good(k) && MayBlock(k)
    ensures Sleep(k).current < |Sleep(k).threads|
  {
    SleepKeeps(k);
    hide Sleep;
  }

  lemma {:induction false} PendWithin(k: Sched, w: WaitQ, timed: bool, lo: int)
    requires Good(k) && MayBlock(k) && Within(k, lo)
    ensures Within(PendCurrent(k, w, timed), lo)
  {
    UnreadyWithin(k, lo);
    PendReal(k, w, timed);
    hide Good, UnreadyThread, Slot, Ranks, Queue, Within;
    SameWithin(UnreadyThread(k, k.current), PendCurrent(k, w, timed), lo);
  }

  lemma {:induction false} PendReal(k: Sched, w: WaitQ, timed: bool)
    requires Good(k) && MayBlock(k)
    ensures PendCurrent(k, w, timed).current < |PendCurrent(k, w, timed).threads|
  {
    PendKeeps(k, w, timed);
    hide PendCurrent;
  }

  /** The calls that queue a thread again. */
  lemma {:induction false} YieldWithin(k: Sched, lo: int)
    requires Good(k) && MayBlock(k) && Within(k, lo)
    ensures Within(Yield(k), lo)
  {
    YieldKeeps(k);
    RequeueWithin(k, k.current, k.threads[k.current].rank, lo);
    var k1 := UpdateCache(Enqueue(Dequeue(k, k.current), k.current), true);
    CacheWithin(Enqueue(Dequeue(k, k.current), k.current), true, lo);
    hide Good, Dequeue, Enqueue, UpdateCache, Fresh;
    SameWithin(k1, Switch(k1), lo);
  }

  lemma {:induction false} MoveWithin(k: Sched, t: Tid, lo: int)
    requires Within(k, lo) && t < |k.threads| && k.threads[t].queued
    ensures k.current < |k.threads| && Within(MoveToEnd(k, t), lo)
  {
    RequeueWithin(k, t, k.threads[t].rank, lo);
    hide Within, Dequeue, Enqueue, UpdateCache;
    CacheWithin(Enqueue(Dequeue(k, t), t), t == k.current, lo);
  }

  lemma {:induction false} PrioWithin(k: Sched, t: Tid, prio: int, lo: int)
    requires Within(k, lo) && t < |k.threads|
    ensures k.current < |k.threads| && Within(PrioSet(k, t, prio), lo)
  {
    var r := k.threads[t].rank.(prio := prio);
    assert InWindow(lo, k.threads[t].rank.deadline);
    RequeueWithin(k, t, r, lo);
    SetWithin(k, t, k.threads[t].(rank := r), lo);
    var k1 := Dequeue(k, t);
    assert k1.threads[t].rank.(prio := prio) == r;
    hide Within, Dequeue, Enqueue, UpdateCache;
    CacheWithin(Enqueue(Set(k1, t, k1.threads[t].(rank := r)), t), true, lo);
  }

  lemma {:induction false} DeadlineWithin(k: Sched, t: Tid, deadline: int, lo: int)
    requires Within(k, lo) && t < |k.threads| && InWindow(lo, deadline)
    ensures Within(DeadlineSet(k, t, deadline), lo)
  {
    var r := k.threads[t].rank.(deadline := deadline);
    RequeueWithin(k, t, r, lo);
    SetWithin(k, t, k.threads[t].(rank := r), lo);
    var k1 := Dequeue(k, t);
    assert k1.threads[t].rank.(deadline := deadline) == r;
    hide Within, Dequeue, Enqueue;
  }

  lemma {:induction false} PerformWithin(k: Sched, c: Call, lo: int)
    requires Good(k) && CacheReady(k) && Within(k, lo) && Legal(k, c) && Asks(lo, c)
    ensures Within(Perform(k, c), lo)
  {
    hide Good, Within, ReadyThread, WakeThread, WakeFirst, TimeoutFires, Suspend, AbortThread, Sleep, PendCurrent,
        Yield, MoveToEnd, PrioSet, DeadlineSet, Ready;
    match c
    case CallStart(t) => BitsWithin(k, t, k.threads[t].(prestart := false), lo);
    case CallWakeFirst(w) => WakeFirstWithin(k, w, lo);
    case CallWake(t) => WakeWithin(k, t, lo);
    case CallTimeout(t) => TimeoutWithin(k, t, lo);
    case CallSuspend(t) => SuspendWithin(k, t, lo);
    case CallResume(t) => BitsWithin(k, t, k.threads[t].(suspended := false), lo);
    case CallWakeup(t) => BitsWithin(k, t, k.threads[t].(timeout := false, suspended := false), lo);
    case CallAbort(t) => AbortWithin(k, t, lo);
    case CallLock => BitsWithin(k, k.current, k.threads[k.current].(locked := k.threads[k.current].locked + 1), lo);
    case CallUnlock =>
      var th := k.threads[k.current].(locked := k.threads[k.current].locked - 1);
      BitsWithin(k, k.current, th, lo);
      CacheWithin(Set(k, k.current, th), false, lo);
    case CallSwitch => SameWithin(k, Switch(k), lo);
    case CallYield => YieldWithin(k, lo);
    case CallMoveToEnd(t) => MoveWithin(k, t, lo);
    case CallPrioSet(t, prio) => PrioWithin(k, t, prio, lo);
    case CallDeadline(t, d) => DeadlineWithin(k, t, d, lo);
    case CallSleep => SleepWithin(k, lo);
    case CallPend(w, timed) => PendWithin(k, w, timed, lo);
    case CallJoin(t, noWait, timed) =>
      if JoinWaits(k, t, noWait) { PendWithin(k, Join(t), timed, lo); }
  }

  /** As long as all deadlines lie within half the 32-bit range, the run queue is sorted in
      every run: by priority, then by deadline, and equals in order of arrival. */
  lemma {:induction false} SortedInEveryRun(k: Sched, cs: seq<Call>, k': Sched, lo: int)
    requires Good(k) && CacheReady(k) && Within(k, lo) && Reaches(k, cs, k')
    requires forall i :: 0 <= i < |cs| ==> Asks(lo, cs[i])
    ensures Within(k', lo) && Sorted(Ranks(k', k'.runq))
    decreases |cs|
  {
    if cs == [] {
      QueueSorted(k);
    } else {
      hide Good, CacheReady, Within, Legal, Perform, Asks, Sorted, Ranks;
      PerformKeeps(k, cs[0]);
      PerformWithin(k, cs[0], lo);
      SortedInEveryRun(Perform(k, cs[0]), cs[1..], k', lo);
    }
  }

  lemma {:induction false} QueueSorted(k: Sched)
    requires Good(k) && (k.runq == [] || k.inWindow)
    ensures Sorted(Ranks(k, k.runq))
  {
  }
}
