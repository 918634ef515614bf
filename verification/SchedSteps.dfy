/** The scheduler's calls on the uniprocessor, each as one step, and what every run of
    them keeps. */
module SchedSteps {
  import opened Rings
  import opened RunQueues
  import opened SchedState

  // ---- the calls --------------------------------------------------------------------------

  /** ready_thread. */
  function ReadyThread(k: Sched, t: Tid): Sched
    requires t < |k.threads| && k.current < |k.threads|
  {
    if !k.threads[t].queued && Ready(k.threads[t]) then UpdateCache(Enqueue(k, t), false) else k
  }

  /** unready_thread. */
  function UnreadyThread(k: Sched, t: Tid): Sched
    requires t < |k.threads| && k.current < |k.threads|
  {
    UpdateCache(if k.threads[t].queued then Dequeue(k, t) else k, t == k.current)
  }

  function NoTimeout(k: Sched, t: Tid): Sched
    requires t < |k.threads|
  {
    Set(k, t, k.threads[t].(timeout := false))
  }

  /** z_unpend_thread: off its wait queue, and the timeout is cancelled. */
  function UnpendThread(k: Sched, t: Tid): Sched
    requires t < |k.threads|
  {
    NoTimeout(if k.threads[t].pendedOn != NoQueue then WaitRemove(k, t) else k, t)
  }

  /** z_unpend_thread and z_ready_thread. */
  function WakeThread(k: Sched, t: Tid): Sched
    requires t < |k.threads| && k.current < |k.threads|
  {
    ReadyThread(UnpendThread(k, t), t)
  }

  /** z_unpend_first_thread and z_ready_thread. */
  function WakeFirst(k: Sched, w: WaitQ): Sched
    requires k.current < |k.threads|
  {
    var q := Queue(k, w);
    if q == [] || q[0] >= |k.threads| then k else WakeThread(k, q[0])
  }

  /** z_thread_timeout: z_sched_wake_thread for a timeout that has just fired. */
  function TimeoutFires(k: Sched, t: Tid): Sched
    requires t < |k.threads| && k.current < |k.threads|
  {
    if !k.threads[t].timeout then k
    else
      var k1 := UnpendThread(k, t);
      if k.threads[t].dead then NoTimeout(k, t)
      else ReadyThread(Set(k1, t, k1.threads[t].(prestart := false, suspended := false)), t)
  }

  /** z_sched_start. */
  function StartThread(k: Sched, t: Tid): Sched
    requires t < |k.threads| && k.current < |k.threads|
  {
    if !k.threads[t].prestart then k
    else ReadyThread(Set(k, t, k.threads[t].(prestart := false)), t)
  }

  /** halt_thread for suspension. */
  function HaltSuspend(k: Sched, t: Tid): Sched
    requires t < |k.threads| && k.current < |k.threads|
  {
    var k1 := if k.threads[t].queued then Dequeue(k, t) else k;
    UpdateCache(Set(k1, t, k1.threads[t].(suspended := true)), true)
  }

  /** z_impl_k_thread_suspend; it cancels the timeout even of a suspended thread. */
  function Suspend(k: Sched, t: Tid): Sched
    requires t < |k.threads| && k.current < |k.threads|
  {
    if k.threads[t].suspended then NoTimeout(k, t) else HaltSuspend(NoTimeout(k, t), t)
  }

  /** z_impl_k_thread_resume. */
  function Resume(k: Sched, t: Tid): Sched
    requires t < |k.threads| && k.current < |k.threads|
  {
    if !k.threads[t].suspended then k
    else ReadyThread(Set(k, t, k.threads[t].(suspended := false)), t)
  }

  /** z_impl_k_wakeup. */
  function Wakeup(k: Sched, t: Tid): Sched
    requires t < |k.threads| && k.current < |k.threads|
  {
    var th := k.threads[t];
    var onlySuspended := th.suspended && !th.dead && !th.prestart && !th.queued;
    if th.pending || (!th.timeout && !onlySuspended) then k
    else ReadyThread(Set(k, t, th.(timeout := false, suspended := false)), t)
  }

  /** z_swap: the cached thread takes over. */
  function Switch(k: Sched): Sched {
    k.(current := k.cache)
  }

  /** z_pend_curr: the current thread waits, perhaps with a timeout. */
  function PendCurrent(k: Sched, w: WaitQ, timed: bool): Sched
    requires k.current < |k.threads|
  {
    var k1 := WaitAdd(UnreadyThread(k, k.current), k.current, w);
    Switch(Set(k1, k.current, k1.threads[k.current].(timeout := timed)))
  }

  /** z_tick_sleep for a non-zero number of ticks. */
  function Sleep(k: Sched): Sched
    requires k.current < |k.threads|
  {
    var k1 := UnreadyThread(k, k.current);
    Switch(Set(k1, k.current, k1.threads[k.current].(timeout := true, suspended := true)))
  }

  /** z_impl_k_yield. */
  function Yield(k: Sched): Sched
    requires k.current < |k.threads|
  {
    Switch(UpdateCache(Enqueue(Dequeue(k, k.current), k.current), true))
  }

  /** move_thread_to_end_of_prio_q. */
  function MoveToEnd(k: Sched, t: Tid): Sched
    requires t < |k.threads| && k.current < |k.threads|
  {
    UpdateCache(Enqueue(if k.threads[t].queued then Dequeue(k, t) else k, t), t == k.current)
  }

  /** z_thread_prio_set. */
  function PrioSet(k: Sched, t: Tid, prio: int): Sched
    requires t < |k.threads| && k.current < |k.threads|
  {
    if Ready(k.threads[t]) then
      var k1 := Dequeue(k, t);
      UpdateCache(Enqueue(Set(k1, t, k1.threads[t].(rank := k1.threads[t].rank.(prio := prio))), t), true)
    else Set(k, t, k.threads[t].(rank := k.threads[t].rank.(prio := prio)))
  }

  /** z_impl_k_thread_deadline_set; the cache is not refreshed. */
  function DeadlineSet(k: Sched, t: Tid, deadline: int): Sched
    requires t < |k.threads|
  {
    if k.threads[t].queued then
      var k1 := Dequeue(k, t);
      Enqueue(Set(k1, t, k1.threads[t].(rank := k1.threads[t].rank.(deadline := deadline))), t)
    else Set(k, t, k.threads[t].(rank := k.threads[t].rank.(deadline := deadline)))
  }

  /** unpend_all: the first `n` threads waiting on `w` become ready. */
  function UnpendAll(k: Sched, w: WaitQ, n: nat): (k': Sched)
    requires k.current < |k.threads|
    ensures k'.current == k.current && |k'.threads| == |k.threads|
    decreases n
  {
    if n == 0 then k else UnpendAll(WakeFirst(k, w), w, n - 1)
  }

  /** halt_thread for a dying thread. */
  function HaltDead(k: Sched, t: Tid): Sched
    requires t < |k.threads| && k.current < |k.threads|
  {
    var k1 := if k.threads[t].queued then Dequeue(k, t) else k;
    var k2 := UnpendThread(Set(k1, t, k1.threads[t].(dead := true)), t);
    UpdateCache(UnpendAll(k2, Join(t), |Queue(k2, Join(t))|), true)
  }

  /** z_thread_abort of a thread that is not essential. */
  function AbortThread(k: Sched, t: Tid): Sched
    requires t < |k.threads| && k.current < |k.threads|
  {
    if k.threads[t].dead then k else HaltDead(k, t)
  }

  /** z_impl_k_thread_join comes to wait: the thread lives, the caller may wait, and would not
      wait for itself. */
  predicate JoinWaits(k: Sched, t: Tid, noWait: bool)
    requires t < |k.threads|
  {
    !k.threads[t].dead && !noWait && t != k.current && k.threads[t].pendedOn != Join(k.current)
  }

  function JoinThread(k: Sched, t: Tid, noWait: bool, timed: bool): Sched
    requires t < |k.threads| && k.current < |k.threads|
  {
    if JoinWaits(k, t, noWait) then PendCurrent(k, Join(t), timed) else k
  }

  function SchedLock(k: Sched): Sched
    requires k.current < |k.threads|
  {
    Set(k, k.current, k.threads[k.current].(locked := k.threads[k.current].locked + 1))
  }

  function SchedUnlock(k: Sched): Sched
    requires k.current < |k.threads| && k.threads[k.current].locked > 0
  {
    UpdateCache(Set(k, k.current, k.threads[k.current].(locked := k.threads[k.current].locked - 1)), false)
  }

  // ---- what every run keeps ------------------------------------------------------------------

  /** The state at step boundaries. */
  ghost predicate Good(k: Sched) {
    Struct(k) && Settled(k, {}) && Awake(k)
  }

  /** A step went well: the structure holds, a current cache stays current, and the dead
      stay dead. */
  ghost predicate Keeps(k: Sched, k': Sched) {
    && Good(k') && Fresh(k, k') && Same(k, k')
  }

  /** The cached thread can run, whether or not it is the best one. */
  ghost predicate CacheReady(k: Sched) {
    k.cache < |k.threads| && Ready(k.threads[k.cache])
  }

  ghost predicate Fresh(k: Sched, k': Sched) {
    (Cached(k) ==> Cached(k')) && (CacheReady(k) ==> CacheReady(k'))
  }

  ghost predicate Same(k: Sched, k': Sched) {
    && |k'.threads| == |k.threads|
    && forall u :: 0 <= u < |k.threads| && k.threads[u].dead ==> k'.threads[u].dead
  }

  /** Between steps one thread `t` may be ready but not yet queued. */
  ghost predicate Almost(k: Sched, t: Tid) {
    Struct(k) && Settled(k, {t}) && Awake(k)
  }

  lemma {:induction false} ReadyKeeps(k: Sched, t: Tid)
    requires Almost(k, t) && 0 < t < |k.threads|
    ensures Keeps(k, ReadyThread(k, t))
  {
    hide Struct, Near, Preemptible, Prevented;
    if !k.threads[t].queued && Ready(k.threads[t]) {
      EnqueueKeeps(k, t);
      var k1 := Enqueue(k, t);
      CacheKeeps(k1, false);
      EnqueueOthers(k, t);
      CacheIsBest(k1, false);
      BestIsReady(UpdateCache(k1, false));
    }
  }

  /** A cache that is up to date names a thread that can run. */
  lemma {:induction false} BestIsReady(k: Sched)
    requires Struct(k) && Cached(k)
    ensures CacheReady(k)
  {
    assert k.runq != [] ==> k.runq[0] in k.runq;
  }

  lemma {:induction false} EnqueueOthers(k: Sched, t: Tid)
    requires 0 < t < |k.threads| && k.current < |k.threads| && Settled(k, {t})
    ensures var k1 := Enqueue(k, t);
      && Settled(k1, {}) && Same(k, k1) && k1.current == k.current
      && k1.threads[k.current].timeout == k.threads[k.current].timeout
  {
    hide Slot, Ranks;
  }

  lemma {:induction false} Chain(k: Sched, k1: Sched, k2: Sched)
    requires Fresh(k, k1) && Same(k, k1) && Keeps(k1, k2)
    ensures Keeps(k, k2)
  {
    hide Good, Cached, CacheReady;
  }

  /** Clearing bits of a thread that is not blocked by it. */
  lemma {:induction false} BitsKeep(k: Sched, t: Tid, th: Thread)
    requires Almost(k, t) && 0 < t < |k.threads|
    requires th.rank == k.threads[t].rank && th.locked == k.threads[t].locked && th.queued == k.threads[t].queued
    requires th.pending == k.threads[t].pending && th.pendedOn == k.threads[t].pendedOn && th.dead == k.threads[t].dead
    requires Ready(k.threads[t]) ==> Ready(th)
    requires k.threads[t].timeout || !th.timeout
    ensures Almost(Set(k, t, th), t) && Fresh(k, Set(k, t, th)) && Same(k, Set(k, t, th))
  {
    assert th.queued ==> Ready(th);
    SetKeeps(k, t, th);
    hide Struct, Near;
  }

  lemma {:induction false} WaitRemoveAlmost(k: Sched, t: Tid)
    requires Almost(k, t) && 0 < t < |k.threads|
    ensures var k1 := WaitRemove(k, t); Almost(k1, t) && Fresh(k, k1) && Same(k, k1) && k1.current == k.current
  {
    hide Struct, Queue, Remove, Near;
    WaitRemoveKeeps(k, t);
  }

  lemma {:induction false} FreshChain(k: Sched, k1: Sched, k2: Sched)
    requires Fresh(k, k1) && Same(k, k1) && Fresh(k1, k2) && Same(k1, k2)
    ensures Fresh(k, k2) && Same(k, k2)
  {
    hide Cached, CacheReady;
  }

  lemma {:induction false} UnpendKeeps(k: Sched, t: Tid)
    requires Almost(k, t) && 0 < t < |k.threads|
    ensures var k' := UnpendThread(k, t);
      Almost(k', t) && Fresh(k, k') && Same(k, k') && k'.current == k.current
  {
    hide Almost, Fresh, WaitRemove, Prevented;
    if k.threads[t].pendedOn != NoQueue {
      WaitRemoveAlmost(k, t);
      var k1 := WaitRemove(k, t);
      BitsKeep(k1, t, k1.threads[t].(timeout := false));
      FreshChain(k, k1, UnpendThread(k, t));
    } else {
      BitsKeep(k, t, k.threads[t].(timeout := false));
    }
  }

  lemma {:induction false} WakeKeeps(k: Sched, t: Tid)
    requires Almost(k, t) && 0 < t < |k.threads|
    ensures k.current < |k.threads| && Keeps(k, WakeThread(k, t))
  {
    hide Almost, Keeps, Cached, Same, UnpendThread, ReadyThread;
    GoodSize(k, t);
    UnpendKeeps(k, t);
    SameSize(k, UnpendThread(k, t));
    ReadyKeeps(UnpendThread(k, t), t);
    Chain(k, UnpendThread(k, t), WakeThread(k, t));
  }

  lemma {:induction false} SameSize(k: Sched, k': Sched)
    requires Same(k, k')
    ensures |k'.threads| == |k.threads|
  {
  }

  lemma {:induction false} GoodIsAlmost(k: Sched, t: Tid)
    requires Good(k)
    ensures Almost(k, t) && k.current < |k.threads|
  {
    hide Struct;
  }

  lemma {:induction false} WaitersAreReal(k: Sched, w: WaitQ)
    requires Struct(k) && Queue(k, w) != []
    ensures 0 < Queue(k, w)[0] < |k.threads|
  {
    var t := Queue(k, w)[0];
    assert InRange(k, Queue(k, w)) && ListsOwn(k, w);
    assert t in Queue(k, w);
  }

  lemma {:induction false} NothingDone(k: Sched)
    requires Good(k)
    ensures Keeps(k, k)
  {
    hide Good, Cached;
  }

  lemma {:induction false} WakeFirstKeeps(k: Sched, w: WaitQ)
    requires Good(k)
    ensures Keeps(k, WakeFirst(k, w))
  {
    hide Keeps, WakeThread, Same, Cached;
    NothingDone(k);
    if Queue(k, w) != [] {
      WaitersAreReal(k, w);
      GoodIsAlmost(k, Queue(k, w)[0]);
      WakeKeeps(k, Queue(k, w)[0]);
    }
  }

  lemma {:induction false} UnpendAllKeeps(k: Sched, w: WaitQ, n: nat)
    requires Good(k)
    ensures Keeps(k, UnpendAll(k, w, n))
    decreases n
  {
    hide Same, Cached, Struct, WakeFirst;
    NothingDone(k);
    if n > 0 {
      WakeFirstKeeps(k, w);
      UnpendAllKeeps(WakeFirst(k, w), w, n - 1);
      Chain(k, WakeFirst(k, w), UnpendAll(k, w, n));
    }
  }

  /** pended_on is the queue that holds the thread. */
  lemma {:induction false} WaitsIffListed(k: Sched, t: Tid, w: WaitQ)
    requires Good(k) && t < |k.threads| && w != NoQueue
    ensures t in Queue(k, w) <==> k.threads[t].pendedOn == w
  {
    hide Threads, RunOk;
    ListedIff(k, w, t);
  }

  /** Every round of unpend_all takes one thread off the queue. */
  lemma {:induction false} WakeFirstShortens(k: Sched, w: WaitQ)
    requires Good(k) && Queue(k, w) != []
    ensures |Queue(WakeFirst(k, w), w)| == |Queue(k, w)| - 1
  {
    var q := Queue(k, w);
    WaitersAreReal(k, w);
    assert q[0] in q && Index(q, q[0]) == 0;
    ListedIff(k, w, q[0]);
    hide Slot, Ranks, Near;
  }

  lemma {:induction false} BitsThenReady(k: Sched, t: Tid, th: Thread)
    requires Almost(k, t) && 0 < t < |k.threads|
    requires th.rank == k.threads[t].rank && th.locked == k.threads[t].locked && th.queued == k.threads[t].queued
    requires th.pending == k.threads[t].pending && th.pendedOn == k.threads[t].pendedOn && th.dead == k.threads[t].dead
    requires Ready(k.threads[t]) ==> Ready(th)
    requires k.threads[t].timeout || !th.timeout
    ensures k.current < |k.threads| && Keeps(k, ReadyThread(Set(k, t, th), t))
  {
    hide Almost, Keeps, Cached, Same, ReadyThread;
    BitsKeep(k, t, th);
    GoodSize(k, t);
    ReadyKeeps(Set(k, t, th), t);
    Chain(k, Set(k, t, th), ReadyThread(Set(k, t, th), t));
  }

  lemma {:induction false} GoodSize(k: Sched, t: Tid)
    requires Almost(k, t)
    ensures k.current < |k.threads|
  {
  }

  lemma {:induction false} StartKeeps(k: Sched, t: Tid)
    requires Good(k) && 0 < t < |k.threads|
    ensures Keeps(k, StartThread(k, t))
  {
    hide Good, Almost, Keeps, ReadyThread;
    GoodIsAlmost(k, t);
    NothingDone(k);
    if k.threads[t].prestart {
      BitsThenReady(k, t, k.threads[t].(prestart := false));
    }
  }

  lemma {:induction false} ResumeKeeps(k: Sched, t: Tid)
    requires Good(k) && 0 < t < |k.threads|
    ensures Keeps(k, Resume(k, t))
  {
    hide Good, Almost, Keeps, ReadyThread;
    GoodIsAlmost(k, t);
    NothingDone(k);
    if k.threads[t].suspended {
      BitsThenReady(k, t, k.threads[t].(suspended := false));
    }
  }

  lemma {:induction false} WakeupKeeps(k: Sched, t: Tid)
    requires Good(k) && 0 < t < |k.threads|
    ensures Keeps(k, Wakeup(k, t))
  {
    hide Good, Almost, Keeps, ReadyThread;
    GoodIsAlmost(k, t);
    NothingDone(k);
    BitsThenReady(k, t, k.threads[t].(timeout := false, suspended := false));
  }

  lemma {:induction false} TimeoutKeeps(k: Sched, t: Tid)
    requires Good(k) && 0 < t < |k.threads|
    ensures Keeps(k, TimeoutFires(k, t))
  {
    hide Good, Almost, Keeps, ReadyThread, Cached, Same, UnpendThread;
    GoodIsAlmost(k, t);
    NothingDone(k);
    if k.threads[t].timeout {
      if k.threads[t].dead {
        CancelKeeps(k, t);
      } else {
        var k1 := UnpendThread(k, t);
        UnpendKeeps(k, t);
        SameSize(k, k1);
        BitsThenReady(k1, t, k1.threads[t].(prestart := false, suspended := false));
        Chain(k, k1, TimeoutFires(k, t));
      }
    }
  }

  /** Cancelling the timeout of a thread that stays blocked. */
  lemma {:induction false} CancelKeeps(k: Sched, t: Tid)
    requires Good(k) && 0 < t < |k.threads| && Prevented(k.threads[t])
    ensures Keeps(k, NoTimeout(k, t))
  {
    GoodIsAlmost(k, t);
    BitsKeep(k, t, k.threads[t].(timeout := false));
    hide Struct, Cached, Same;
  }

  lemma {:induction false} DequeueSettled(k: Sched, t: Tid)
    requires Good(k) && 0 < t < |k.threads|
    ensures var k1 := Dequeue(k, t);
      && Struct(k1) && Settled(k1, {t}) && Awake(k1) && Same(k, k1) && k1.current == k.current
      && !k1.threads[t].queued && t !in k1.runq
  {
    DequeueKeeps(k, t);
    hide Struct, Remove;
  }

  /** After a halt or a requeue the cache is refreshed. */
  lemma {:induction false} Refreshed(k: Sched, preemptOk: bool)
    requires Good(k)
    ensures Good(UpdateCache(k, preemptOk)) && Cached(UpdateCache(k, preemptOk)) &&
        CacheReady(UpdateCache(k, preemptOk))
  {
    CacheKeeps(k, preemptOk);
    CacheIsBest(k, preemptOk);
    BestIsReady(UpdateCache(k, preemptOk));
    hide Struct, Cached, CacheReady;
  }

  lemma {:induction false} SuspendKeeps(k: Sched, t: Tid)
    requires Good(k) && 0 < t < |k.threads|
    ensures Keeps(k, Suspend(k, t))
  {
    hide Struct, Cached;
    if k.threads[t].suspended {
      CancelKeeps(k, t);
    } else {
      SuspendHalts(k, t);
    }
  }

  lemma {:induction false} SuspendHalts(k: Sched, t: Tid)
    requires Good(k) && 0 < t < |k.threads| && !k.threads[t].suspended
    ensures var k' := HaltSuspend(NoTimeout(k, t), t); Good(k') && Cached(k') && CacheReady(k') && Same(k, k')
  {
    var k0 := NoTimeout(k, t);
    GoodIsAlmost(k, t);
    BitsKeep(k, t, k.threads[t].(timeout := false));
    var k1 := if k0.threads[t].queued then Dequeue(k0, t) else k0;
    if k0.threads[t].queued {
      DequeueKeeps(k0, t);
    }
    var k2 := Set(k1, t, k1.threads[t].(suspended := true));
    assert k2.threads[t].rank.arrival < k1.clock;
    SetKeeps(k1, t, k2.threads[t]);
    hide Struct, Cached, Remove, Near;
    assert Settled(k2, {}) && Awake(k2);
    Refreshed(k2, true);
  }

  /** Once the current thread has stepped aside and the cache is the best thread, the
      switch is safe. */
  lemma {:induction false} SwitchKeeps(k: Sched)
    requires Struct(k) && Settled(k, {}) && k.cache == Best(k)
    ensures Good(Switch(k)) && Cached(Switch(k)) && CacheReady(Switch(k))
  {
    var k' := Switch(k);
    assert k.runq != [] ==> k.runq[0] in k.runq;
    WaitSame(k, k');
    hide WaitOk, Near, Sorted;
    assert Ranks(k', k'.runq) == Ranks(k, k.runq);
  }

  /** A switch at any moment, even to a cached thread that is no longer the best. */
  lemma {:induction false} AnySwitchKeeps(k: Sched)
    requires Good(k) && CacheReady(k)
    ensures Keeps(k, Switch(k)) && CacheReady(Switch(k))
  {
    var k' := Switch(k);
    WaitSame(k, k');
    hide WaitOk, Near, Sorted;
    assert Ranks(k', k'.runq) == Ranks(k, k.runq);
  }

  /** The current thread is able to block: it is not idle, and it is ready. */
  ghost predicate MayBlock(k: Sched) {
    0 < k.current < |k.threads| && k.threads[k.current].queued
  }

  lemma {:induction false} UnreadyCurrent(k: Sched)
    requires Good(k) && MayBlock(k)
    ensures var t, k1 := k.current, UnreadyThread(k, k.current);
      && Struct(k1) && Settled(k1, {t}) && Same(k, k1) && k1.current == t && k1.cache == Best(k1)
      && k1.threads == k.threads[t := k.threads[t].(queued := false)] && t !in k1.runq
  {
    DequeueSettled(k, k.current);
    CacheKeeps(Dequeue(k, k.current), true);
    hide Struct, Remove;
  }

  lemma {:induction false} PendKeeps(k: Sched, w: WaitQ, timed: bool)
    requires Good(k) && MayBlock(k)
    ensures Keeps(k, PendCurrent(k, w, timed))
  {
    var t, k1 := k.current, UnreadyThread(k, k.current);
    UnreadyCurrent(k);
    QueuedNotPended(k, t);
    WaitAddKeeps(k1, t, w);
    var k2 := WaitAdd(k1, t, w);
    var th := k2.threads[t].(timeout := timed);
    assert th.rank.arrival < k2.clock;
    SetKeeps(k2, t, th);
    hide Struct, Slot, Ranks, Queue, Near, Cached;
    PendSettled(k1, t, w, timed);
    SwitchKeeps(Set(k2, t, th));
  }

  lemma {:induction false} QueuedNotPended(k: Sched, t: Tid)
    requires Struct(k) && t < |k.threads| && k.threads[t].queued
    ensures Ready(k.threads[t]) && k.threads[t].pendedOn == NoQueue
  {
  }

  lemma {:induction false} PendSettled(k: Sched, t: Tid, w: WaitQ, timed: bool)
    requires t < |k.threads| && Settled(k, {t})
    ensures var k2 := WaitAdd(k, t, w);
      var k3 := Set(k2, t, k2.threads[t].(timeout := timed));
      Settled(k3, {}) && Same(k, k3) && k3.cache == k.cache && k3.runq == k.runq
  {
    hide Slot, Ranks, Queue;
  }

  lemma {:induction false} SleepKeeps(k: Sched)
    requires Good(k) && MayBlock(k)
    ensures Keeps(k, Sleep(k))
  {
    var t, k1 := k.current, UnreadyThread(k, k.current);
    UnreadyCurrent(k);
    var th := k1.threads[t].(timeout := true, suspended := true);
    assert th.rank.arrival < k1.clock;
    SetKeeps(k1, t, th);
    hide Struct, Near, Cached;
    assert Settled(Set(k1, t, th), {}) && Same(k1, Set(k1, t, th));
    SwitchKeeps(Set(k1, t, th));
  }

  /** Taking a ready thread out, changing its rank and queueing it again. */
  lemma {:induction false} RequeueKeeps(k: Sched, t: Tid, r: Rank)
    requires Good(k) && 0 < t < |k.threads| && k.threads[t].queued
    requires r.arrival == k.threads[t].rank.arrival
    ensures var k1 := Dequeue(k, t);
      var k2 := Enqueue(Set(k1, t, k1.threads[t].(rank := r)), t);
      Good(k2) && Same(k, k2) && k2.current == k.current
  {
    QueuedNotPended(k, t);
    DequeueSettled(k, t);
    var k1 := Dequeue(k, t);
    var th := k1.threads[t].(rank := r);
    assert th.rank.arrival < k1.clock;
    SetKeeps(k1, t, th);
    hide Struct, Remove, Near;
    var kk := Set(k1, t, th);
    EnqueueKeeps(kk, t);
    RequeueSettled(k1, t, th);
  }

  lemma {:induction false} RequeueSettled(k: Sched, t: Tid, th: Thread)
    requires 0 < t < |k.threads| && Settled(k, {t}) && Awake(k) && th.timeout == k.threads[t].timeout &&
        th.dead == k.threads[t].dead
    ensures var k2 := Enqueue(Set(k, t, th), t); Settled(k2, {}) && Awake(k2) && Same(k, k2) && k2.current == k.current
  {
    hide Slot, Ranks;
  }

  lemma {:induction false} YieldKeeps(k: Sched)
    requires Good(k) && MayBlock(k)
    ensures Keeps(k, Yield(k))
  {
    var t := k.current;
    hide Struct, Near, Cached, Remove, Slot, Ranks;
    RequeueKeeps(k, t, k.threads[t].rank);
    var k1 := Dequeue(k, t);
    assert Set(k1, t, k1.threads[t].(rank := k.threads[t].rank)) == k1;
    var k2 := Enqueue(k1, t);
    Refreshed(k2, true);
    SwitchKeeps(UpdateCache(k2, true));
  }

  lemma {:induction false} MoveToEndKeeps(k: Sched, t: Tid)
    requires Good(k) && 0 < t < |k.threads| && k.threads[t].queued
    ensures Keeps(k, MoveToEnd(k, t))
  {
    hide Struct, Near, Cached, Remove, Slot, Ranks;
    RequeueKeeps(k, t, k.threads[t].rank);
    var k1 := Dequeue(k, t);
    assert Set(k1, t, k1.threads[t].(rank := k.threads[t].rank)) == k1;
    Refreshed(Enqueue(k1, t), t == k.current);
  }

  lemma {:induction false} PrioSetKeeps(k: Sched, t: Tid, prio: int)
    requires Good(k) && 0 < t < |k.threads|
    ensures Keeps(k, PrioSet(k, t, prio))
  {
    var r := k.threads[t].rank.(prio := prio);
    if Ready(k.threads[t]) {
      hide Struct, Near, Cached, Remove, Slot, Ranks;
      RequeueKeeps(k, t, r);
      var k1 := Dequeue(k, t);
      Refreshed(Enqueue(Set(k1, t, k1.threads[t].(rank := r)), t), true);
    } else {
      assert !k.threads[t].queued && r.arrival < k.clock;
      SetKeeps(k, t, k.threads[t].(rank := r));
      hide Struct, Near;
    }
  }

  /** A new deadline keeps everything but the cache. */
  lemma {:induction false} DeadlineKeeps(k: Sched, t: Tid, deadline: int)
    requires Good(k) && 0 < t < |k.threads|
    ensures Good(DeadlineSet(k, t, deadline)) && Same(k, DeadlineSet(k, t, deadline))
    ensures CacheReady(k) ==> CacheReady(DeadlineSet(k, t, deadline))
  {
    var r := k.threads[t].rank.(deadline := deadline);
    if k.threads[t].queued {
      hide Struct, Remove, Slot, Ranks;
      RequeueKeeps(k, t, r);
    } else {
      assert r.arrival < k.clock;
      SetKeeps(k, t, k.threads[t].(rank := r));
      hide Struct;
    }
  }

  /** Where a requeued thread of rank `r` leads: it is first exactly if nobody else is queued,
      or it beats the first of the others. */
  lemma {:induction false} RequeuedBest(k: Sched, t: Tid, r: Rank)
    requires Good(k) && 0 < t < |k.threads| && k.threads[t].queued
    ensures var k1 := Dequeue(k, t);
      var best := Best(Enqueue(Set(k1, t, k1.threads[t].(rank := r)), t));
      var first := k.runq[0];
      && k.runq != []
      && (t == first ==> (best == t <==> |k.runq| == 1 || PrioCmp(r, RankOf(k, k.runq[1])) > 0))
      && (t != first ==> best == if PrioCmp(r, RankOf(k, first)) > 0 then t else first)
  {
    assert t in k.runq;
    var k1 := Dequeue(k, t);
    var kk := Set(k1, t, k1.threads[t].(rank := r));
    var rest, p := k1.runq, Index(k.runq, t);
    assert rest == k.runq[..p] + k.runq[p + 1..];
    RemoveIn(k.runq, t);
    hide Struct, Remove, Settled, PrioCmp, Ready;
    var ranks := Ranks(kk, rest);
    if rest != [] {
      assert rest[0] == (if p == 0 then k.runq[1] else k.runq[0]) && rest[0] != t;
      assert ranks[0] == RankOf(k, rest[0]);
    }
    assert Slot(ranks, r.(arrival := kk.clock)) == 0 <==>
        rest == [] || PrioCmp(r, ranks[0]) > 0 by { SlotZero(ranks, r, kk.clock); }
  }

  lemma {:induction false} SlotZero(q: seq<Rank>, r: Rank, arrival: nat)
    ensures Slot(q, r.(arrival := arrival)) == 0 <==> q == [] || PrioCmp(r, q[0]) > 0
  {
  }

  /** Exactly when a deadline change leaves the cache fresh: the thread is not queued; or the
      current thread holds the processor; or it is the cached thread and still beats the
      next; or it is another and does not beat the cached one. */
  lemma {:induction false} DeadlineCacheIff(k: Sched, t: Tid, deadline: int)
    requires Good(k) && Cached(k) && 0 < t < |k.threads|
    ensures var r := k.threads[t].rank.(deadline := deadline);
      Cached(DeadlineSet(k, t, deadline)) <==>
        || !k.threads[t].queued || Holds(k)
        || (t == k.cache && (|k.runq| <= 1 || PrioCmp(r, RankOf(k, k.runq[1])) > 0))
        || (t != k.cache && PrioCmp(r, RankOf(k, k.cache)) <= 0)
  {
    var r := k.threads[t].rank.(deadline := deadline);
    if k.threads[t].queued {
      RequeuedBest(k, t, r);
    }
    hide Struct, Settled, Slot, Ranks, Remove, PrioCmp;
  }

  /** Moving a thread to the end of its queue is safe exactly if it can run: one that cannot
      would be queued all the same. */
  lemma {:induction false} MoveToEndIff(k: Sched, t: Tid)
    requires Good(k) && 0 < t < |k.threads|
    ensures Good(MoveToEnd(k, t)) <==> Ready(k.threads[t])
  {
    if Ready(k.threads[t]) {
      hide MoveToEnd;
      MoveToEndKeeps(k, t);
    } else {
      var k' := MoveToEnd(k, t);
      assert !k.threads[t].queued;
      hide Settled, Threads, WaitOk, Sorted;
      var p := Slot(Ranks(k, k.runq), k.threads[t].rank.(arrival := k.clock));
      assert k'.runq[p] == t && t in k'.runq && !Ready(k'.threads[t]);
    }
  }

  // ---- what a call does to its thread -----------------------------------------------------------

  /** The thread is on no wait queue and has no timeout, and is queued exactly if nothing
      else stops it. */
  ghost predicate Released(k: Sched, t: Tid)
    requires t < |k.threads|
  {
    && k.threads[t].pendedOn == NoQueue && !k.threads[t].timeout && (forall w :: t !in Queue(k, w))
    && (t in k.runq <==> !Prevented(k.threads[t]))
  }

  lemma {:induction false} ReleasedBy(k: Sched, t: Tid)
    requires Good(k) && 0 < t < |k.threads| && k.threads[t].pendedOn == NoQueue && !k.threads[t].timeout
    ensures Released(k, t)
  {
    forall w ensures t !in Queue(k, w) {
      ListedIff(k, w, t);
    }
  }

  /** Waking a thread releases it; being suspended, dead or not yet started stays. */
  lemma {:induction false} WakeReleases(k: Sched, t: Tid)
    requires Good(k) && 0 < t < |k.threads|
    ensures var k' := WakeThread(k, t);
      && |k'.threads| == |k.threads| && Released(k', t)
      && k'.threads[t].suspended == k.threads[t].suspended && k'.threads[t].dead == k.threads[t].dead
      && k'.threads[t].prestart == k.threads[t].prestart
      && (k.threads[t].pendedOn != NoQueue ==> !k'.threads[t].pending)
  {
    hide Struct, Same, Fresh, Almost, Slot, Ranks, Remove, Queue, Released;
    GoodIsAlmost(k, t);
    WakeKeeps(k, t);
    ReleasedBy(WakeThread(k, t), t);
  }

  /** A thread that waits is pending, off the run queue and on its wait queue, if it has
      one; and the best thread runs. */
  lemma {:induction false} PendWaits(k: Sched, w: WaitQ, timed: bool)
    requires Good(k) && MayBlock(k)
    ensures var t, k' := k.current, PendCurrent(k, w, timed);
      && |k'.threads| == |k.threads| && k'.threads[t].pending && k'.threads[t].pendedOn == w
      && k'.threads[t].timeout == timed && t !in k'.runq
      && (w != NoQueue ==> t in Queue(k', w))
      && k'.current == k'.cache == Best(k')
  {
    var t, k1, k' := k.current, UnreadyThread(k, k.current), PendCurrent(k, w, timed);
    PendKeeps(k, w, timed);
    UnreadyCurrent(k);
    QueuedNotPended(k, t);
    hide Struct, Slot, Ranks, Near, Cached, Fresh, Same;
    if w != NoQueue {
      ListedNow(k', w, t);
    }
  }

  lemma {:induction false} ListedNow(k: Sched, w: WaitQ, t: Tid)
    requires Good(k) && t < |k.threads| && w != NoQueue && k.threads[t].pendedOn == w
    ensures t in Queue(k, w)
  {
    ListedIff(k, w, t);
  }

  /** A sleeping thread is off the run queue with a timeout armed, and the best thread
      runs. */
  lemma {:induction false} SleepSleeps(k: Sched)
    requires Good(k) && MayBlock(k)
    ensures var t, k' := k.current, Sleep(k);
      && |k'.threads| == |k.threads| && k'.threads[t].suspended && k'.threads[t].timeout && t !in k'.runq
      && k'.current == k'.cache == Best(k')
  {
    UnreadyCurrent(k);
    hide Struct, UnreadyThread;
  }

  /** Nobody of the same priority and deadline stands behind `t`. */
  ghost predicate LastOfEquals(k: Sched, t: Tid)
    requires t < |k.threads|
  {
    t in k.runq && forall i, j :: 0 <= i < j < |k.runq| && k.runq[i] == t ==>
      var a, b := RankOf(k, t), RankOf(k, k.runq[j]); a.prio != b.prio || a.deadline != b.deadline
  }

  /** The latest arrival is last of its equals, deadlines in the window. */
  lemma {:induction false} LatestIsLast(k: Sched, t: Tid)
    requires Good(k) && k.inWindow && t < |k.threads| && t in k.runq && k.threads[t].rank.arrival + 1 == k.clock
    ensures LastOfEquals(k, t)
  {
    var r := Ranks(k, k.runq);
    forall i, j | 0 <= i < j < |k.runq| && k.runq[i] == t
      ensures RankOf(k, t).prio != RankOf(k, k.runq[j]).prio || RankOf(k, t).deadline != RankOf(k, k.runq[j]).deadline
    {
      assert RunQueues.Before(r[i], r[j]);
    }
  }

  /** A thread moved to the end is last of its equals, deadlines in the window. */
  lemma {:induction false} MoveToEndMoves(k: Sched, t: Tid)
    requires Good(k) && 0 < t < |k.threads| && k.threads[t].queued
    ensures var k' := MoveToEnd(k, t);
      |k'.threads| == |k.threads| && t in k'.runq && (k'.inWindow ==> LastOfEquals(k', t))
  {
    var k' := MoveToEnd(k, t);
    MoveToEndKeeps(k, t);
    RequeuedIs(k, t);
    hide Struct, Fresh, Same, LastOfEquals, Slot, Ranks, Remove;
    if k'.inWindow {
      LatestIsLast(k', t);
    }
  }

  lemma {:induction false} RequeuedIs(k: Sched, t: Tid)
    requires Good(k) && 0 < t < |k.threads| && k.threads[t].queued
    ensures var k2 := Enqueue(Dequeue(k, t), t);
      |k2.threads| == |k.threads| && t in k2.runq && k2.threads[t].rank.arrival + 1 == k2.clock
  {
    var k1 := Dequeue(k, t);
    PlacedIn(k1.runq, Slot(Ranks(k1, k1.runq), k1.threads[t].rank.(arrival := k1.clock)), t);
    hide Struct, Remove;
  }

  /** So is a thread that yields; and the best thread runs. */
  lemma {:induction false} YieldMoves(k: Sched)
    requires Good(k) && MayBlock(k)
    ensures var t, k' := k.current, Yield(k);
      && |k'.threads| == |k.threads| && t in k'.runq && (k'.inWindow ==> LastOfEquals(k', t))
      && k'.current == k'.cache == Best(k')
  {
    var t, k' := k.current, Yield(k);
    YieldKeeps(k);
    RequeuedIs(k, t);
    hide Struct, Fresh, Same, LastOfEquals, Slot, Ranks, Remove;
    if k'.inWindow {
      LatestIsLast(k', t);
    }
  }

  lemma {:induction false} AbortKeeps(k: Sched, t: Tid)
    requires Good(k) && 0 < t < |k.threads|
    ensures Keeps(k, AbortThread(k, t))
  {
    hide Struct, Cached, Same, HaltDead;
    NothingDone(k);
    if !k.threads[t].dead {
      DeathKeeps(k, t);
    }
  }

  lemma {:induction false} DeathKeeps(k: Sched, t: Tid)
    requires Good(k) && 0 < t < |k.threads| && !k.threads[t].dead
    ensures Keeps(k, HaltDead(k, t))
  {
    hide Struct, Cached, UnpendAll, UnpendThread;
    Dying(k, t);
    var k1 := if k.threads[t].queued then Dequeue(k, t) else k;
    var kd := Set(k1, t, k1.threads[t].(dead := true));
    var k2 := UnpendThread(kd, t);
    UnpendKeeps(kd, t);
    StillDead(kd, k2, t);
    UnpendAllKeeps(k2, Join(t), |Queue(k2, Join(t))|);
    Refreshed(UnpendAll(k2, Join(t), |Queue(k2, Join(t))|), true);
  }

  lemma {:induction false} StillDead(k: Sched, k': Sched, t: Tid)
    requires Almost(k', t) && Same(k, k') && t < |k.threads| && k.threads[t].dead
    ensures Good(k')
  {
    hide Struct;
  }

  lemma {:induction false} Dying(k: Sched, t: Tid)
    requires Good(k) && 0 < t < |k.threads|
    ensures var k1 := if k.threads[t].queued then Dequeue(k, t) else k;
      var kd := Set(k1, t, k1.threads[t].(dead := true));
      Almost(kd, t) && Same(k, kd) && kd.threads[t].dead && kd.current == k.current
  {
    var k1 := if k.threads[t].queued then Dequeue(k, t) else k;
    if k.threads[t].queued {
      DequeueSettled(k, t);
    }
    var th := k1.threads[t].(dead := true);
    assert th.rank.arrival < k1.clock;
    SetKeeps(k1, t, th);
    hide Struct, Remove, Near;
  }

  /** Wait queues only lose threads. */
  ghost predicate Frees(k: Sched, k': Sched) {
    && |k'.threads| == |k.threads|
    && forall u :: 0 <= u < |k.threads| ==>
        k'.threads[u].pendedOn == k.threads[u].pendedOn || k'.threads[u].pendedOn == NoQueue
  }

  lemma {:induction false} WakeFirstFrees(k: Sched, w: WaitQ)
    requires Good(k)
    ensures Frees(k, WakeFirst(k, w))
  {
    hide Struct, Settled, Slot, Ranks, Remove, Queue;
  }

  /** unpend_all leaves the queue empty and its threads free. */
  lemma {:induction false} UnpendAllEmpties(k: Sched, w: WaitQ)
    requires Good(k) && k.current < |k.threads|
    ensures var k' := UnpendAll(k, w, |Queue(k, w)|); Good(k') && Queue(k', w) == [] && Frees(k, k')
    decreases |Queue(k, w)|
  {
    hide Good, WakeFirst, Same, Fresh;
    if Queue(k, w) != [] {
      var k1 := WakeFirst(k, w);
      WakeFirstKeeps(k, w);
      WakeFirstShortens(k, w);
      WakeFirstFrees(k, w);
      SameCurrent(k, w);
      UnpendAllEmpties(k1, w);
    }
  }

  lemma {:induction false} SameCurrent(k: Sched, w: WaitQ)
    requires k.current < |k.threads|
    ensures WakeFirst(k, w).current == k.current && |WakeFirst(k, w).threads| == |k.threads|
  {
    hide Slot, Ranks, Remove, Queue;
  }

  /** A dying thread, before its joiners are woken. */
  function Dead(k: Sched, t: Tid): Sched
    requires t < |k.threads| && k.current < |k.threads|
  {
    var k1 := if k.threads[t].queued then Dequeue(k, t) else k;
    UnpendThread(Set(k1, t, k1.threads[t].(dead := true)), t)
  }

  lemma {:induction false} DeadFrees(k: Sched, t: Tid)
    requires t < |k.threads| && k.current < |k.threads|
    ensures var k2 := Dead(k, t);
      Frees(k, k2) && k2.threads[t].dead && k2.threads[t].pendedOn == NoQueue && k2.current == k.current
  {
    hide Remove, Queue;
  }

  /** A thread that is aborted is dead and on no queue, and all who joined it are free. */
  lemma {:induction false} AbortEnds(k: Sched, t: Tid)
    requires Good(k) && 0 < t < |k.threads| && !k.threads[t].dead
    ensures var k' := AbortThread(k, t);
      && |k'.threads| == |k.threads| && k'.threads[t].dead && t !in k'.runq && k'.threads[t].pendedOn == NoQueue
      && Queue(k', Join(t)) == []
      && forall u :: u in Queue(k, Join(t)) ==> u < |k'.threads| && k'.threads[u].pendedOn == NoQueue
  {
    hide Struct, Settled, UnpendAll, Slot, Ranks, Remove, UnpendThread, Dequeue, Fresh;
    var k2, k' := Dead(k, t), AbortThread(k, t);
    AbortKeeps(k, t);
    DyingIsGood(k, t);
    hide Dead;
    DeadFrees(k, t);
    var k3 := UnpendAll(k2, Join(t), |Queue(k2, Join(t))|);
    UnpendAllEmpties(k2, Join(t));
    UnpendAllKeeps(k2, Join(t), |Queue(k2, Join(t))|);
    assert k' == UpdateCache(k3, true);
    AllFree(k, k', Join(t));
    DeadIsOff(k', t);
  }

  lemma {:induction false} AllFree(k: Sched, k': Sched, w: WaitQ)
    requires Good(k) && Good(k') && Queue(k', w) == [] && w != NoQueue && Frees(k, k')
    ensures forall u :: u in Queue(k, w) ==> u < |k'.threads| && k'.threads[u].pendedOn == NoQueue
  {
    hide Threads, RunOk, Settled;
    forall u | u in Queue(k, w) ensures u < |k'.threads| && k'.threads[u].pendedOn == NoQueue {
      InRangeIn(k, Queue(k, w));
      ListedIff(k, w, u);
      ListedIff(k', w, u);
    }
  }

  lemma {:induction false} DeadIsOff(k: Sched, t: Tid)
    requires Good(k) && t < |k.threads| && k.threads[t].dead
    ensures t !in k.runq
  {
  }

  /** Once a dying thread has left its queues, the others are in order. */
  lemma {:induction false} DyingIsGood(k: Sched, t: Tid)
    requires Good(k) && 0 < t < |k.threads|
    ensures var k1 := if k.threads[t].queued then Dequeue(k, t) else k;
      Good(UnpendThread(Set(k1, t, k1.threads[t].(dead := true)), t))
  {
    hide Struct, Same, UnpendThread;
    Dying(k, t);
    var k1 := if k.threads[t].queued then Dequeue(k, t) else k;
    var kd := Set(k1, t, k1.threads[t].(dead := true));
    UnpendKeeps(kd, t);
    StillDead(kd, UnpendThread(kd, t), t);
  }

  lemma {:induction false} JoinKeeps(k: Sched, t: Tid, noWait: bool, timed: bool)
    requires Good(k) && 0 < t < |k.threads| && (JoinWaits(k, t, noWait) ==> MayBlock(k))
    ensures Keeps(k, JoinThread(k, t, noWait, timed))
  {
    hide Keeps, PendCurrent, Struct;
    NothingDone(k);
    if JoinWaits(k, t, noWait) {
      PendKeeps(k, Join(t), timed);
    }
  }

  lemma {:induction false} LockKeeps(k: Sched)
    requires Good(k) && k.current != IDLE
    ensures Keeps(k, SchedLock(k))
  {
    var t := k.current;
    assert k.threads[t].rank.arrival < k.clock;
    SetKeeps(k, t, k.threads[t].(locked := k.threads[t].locked + 1));
    hide Struct, Near, Ready;
  }

  lemma {:induction false} UnlockKeeps(k: Sched)
    requires Good(k) && k.current != IDLE && k.threads[k.current].locked > 0
    ensures Keeps(k, SchedUnlock(k))
  {
    var t := k.current;
    var th := k.threads[t].(locked := k.threads[t].locked - 1);
    assert th.rank.arrival < k.clock;
    SetKeeps(k, t, th);
    hide Struct, Near, Cached, CacheReady;
    Refreshed(Set(k, t, th), false);
  }

  // ---- whole runs --------------------------------------------------------------------------------

  datatype Call =
    | CallStart(t: Tid) | CallWakeFirst(w: WaitQ) | CallWake(t: Tid) | CallTimeout(t: Tid)
    | CallSuspend(t: Tid) | CallResume(t: Tid) | CallWakeup(t: Tid)
    | CallPend(w: WaitQ, timed: bool) | CallSleep | CallYield | CallMoveToEnd(t: Tid)
    | CallPrioSet(t: Tid, prio: int) | CallDeadline(t: Tid, deadline: int)
    | CallAbort(t: Tid) | CallJoin(t: Tid, noWait: bool, timed: bool)
    | CallLock | CallUnlock | CallSwitch

  predicate RealThread(k: Sched, t: Tid) {
    0 < t < |k.threads|
  }

  /** What the kernel asks of callers: no operation on the idle thread, blocking only by a
      running thread, unlocking only when locked. */
  ghost predicate Legal(k: Sched, c: Call) {
    && k.current < |k.threads|
    && match c
       case CallStart(t) => RealThread(k, t)
       case CallWakeFirst(_) => true
       case CallWake(t) => RealThread(k, t)
       case CallTimeout(t) => RealThread(k, t)
       case CallSuspend(t) => RealThread(k, t)
       case CallResume(t) => RealThread(k, t)
       case CallWakeup(t) => RealThread(k, t)
       case CallPend(_, _) => MayBlock(k)
       case CallSleep => MayBlock(k)
       case CallYield => MayBlock(k)
       case CallMoveToEnd(t) => RealThread(k, t) && k.threads[t].queued
       case CallPrioSet(t, _) => RealThread(k, t)
       case CallDeadline(t, _) => RealThread(k, t)
       case CallAbort(t) => RealThread(k, t)
       case CallJoin(t, noWait, _) => RealThread(k, t) && (JoinWaits(k, t, noWait) ==> MayBlock(k))
       case CallLock => k.current != IDLE
       case CallUnlock => k.current != IDLE && k.threads[k.current].locked > 0
       case CallSwitch => true
  }

  ghost function Perform(k: Sched, c: Call): Sched
    requires Legal(k, c)
  {
    match c
    case CallStart(t) => StartThread(k, t)
    case CallWakeFirst(w) => WakeFirst(k, w)
    case CallWake(t) => WakeThread(k, t)
    case CallTimeout(t) => TimeoutFires(k, t)
    case CallSuspend(t) => Suspend(k, t)
    case CallResume(t) => Resume(k, t)
    case CallWakeup(t) => Wakeup(k, t)
    case CallPend(w, timed) => PendCurrent(k, w, timed)
    case CallSleep => Sleep(k)
    case CallYield => Yield(k)
    case CallMoveToEnd(t) => MoveToEnd(k, t)
    case CallPrioSet(t, prio) => PrioSet(k, t, prio)
    case CallDeadline(t, d) => DeadlineSet(k, t, d)
    case CallAbort(t) => AbortThread(k, t)
    case CallJoin(t, noWait, timed) => JoinThread(k, t, noWait, timed)
    case CallLock => SchedLock(k)
    case CallUnlock => SchedUnlock(k)
    case CallSwitch => Switch(k)
  }

  lemma {:induction false} PerformKeeps(k: Sched, c: Call)
    requires Good(k) && CacheReady(k) && Legal(k, c)
    ensures Good(Perform(k, c)) && Same(k, Perform(k, c)) && CacheReady(Perform(k, c))
    ensures !c.CallDeadline? && Cached(k) ==> Cached(Perform(k, c))
  {
    hide Good, Cached, CacheReady, Same, StartThread, WakeFirst, WakeThread, TimeoutFires, Suspend, Resume, Wakeup,
        PendCurrent, Sleep, Yield, MoveToEnd, PrioSet, DeadlineSet, AbortThread, JoinThread, SchedLock,
        SchedUnlock, Switch;
    match c
    case CallStart(t) => StartKeeps(k, t);
    case CallWakeFirst(w) => WakeFirstKeeps(k, w);
    case CallWake(t) => GoodIsAlmost(k, t); WakeKeeps(k, t);
    case CallTimeout(t) => TimeoutKeeps(k, t);
    case CallSuspend(t) => SuspendKeeps(k, t);
    case CallResume(t) => ResumeKeeps(k, t);
    case CallWakeup(t) => WakeupKeeps(k, t);
    case CallPend(w, timed) => PendKeeps(k, w, timed);
    case CallSleep => SleepKeeps(k);
    case CallYield => YieldKeeps(k);
    case CallMoveToEnd(t) => MoveToEndKeeps(k, t);
    case CallPrioSet(t, prio) => PrioSetKeeps(k, t, prio);
    case CallDeadline(t, d) => DeadlineKeeps(k, t, d);
    case CallAbort(t) => AbortKeeps(k, t);
    case CallJoin(t, noWait, timed) => JoinKeeps(k, t, noWait, timed);
    case CallLock => LockKeeps(k);
    case CallUnlock => UnlockKeeps(k);
    case CallSwitch => AnySwitchKeeps(k);
  }

  ghost predicate Reaches(k: Sched, cs: seq<Call>, k': Sched)
    decreases |cs|
  {
    if cs == [] then k' == k else Legal(k, cs[0]) && Reaches(Perform(k, cs[0]), cs[1..], k')
  }

  /** In every run the queues and state bits agree, every ready thread is queued, the run
      queue is sorted, and a dead thread never runs again. */
  lemma {:induction false} EveryRun(k: Sched, cs: seq<Call>, k': Sched)
    requires Good(k) && CacheReady(k) && Reaches(k, cs, k')
    ensures Good(k') && Same(k, k') && CacheReady(k')
    ensures forall t :: 0 <= t < |k.threads| && k.threads[t].dead ==> t !in k'.runq
    decreases |cs|
  {
    if cs == [] {
      DeadNotQueued(k);
    } else {
      hide Good, Legal, Perform, CacheReady;
      PerformKeeps(k, cs[0]);
      EveryRun(Perform(k, cs[0]), cs[1..], k');
    }
  }

  lemma {:induction false} DeadNotQueued(k: Sched)
    requires Good(k)
    ensures forall t :: 0 <= t < |k.threads| && k.threads[t].dead ==> t !in k.runq
  {
  }

  /** In every run without deadline changes the cached thread is the head of the run queue
      (or idle when it is empty), or the current thread while it may not be preempted;
      and it is never pending, suspended or dead. */
  lemma {:induction false} CacheInEveryRun(k: Sched, cs: seq<Call>, k': Sched)
    requires Good(k) && Cached(k) && Reaches(k, cs, k')
    requires forall i :: 0 <= i < |cs| ==> !cs[i].CallDeadline?
    ensures Good(k') && Cached(k') && Ready(k'.threads[k'.cache])
    decreases |cs|
  {
    BestIsReady(k);
    if cs != [] {
      hide Good, Legal, Perform, Cached, Ready;
      PerformKeeps(k, cs[0]);
      CacheInEveryRun(Perform(k, cs[0]), cs[1..], k');
    }
  }

  /** Two ready threads of one priority; the first is running. */
  function TwoReady(): Sched {
    var idle := Thread(Rank(15, 0, 0), 0, false, false, false, false, false, false, NoQueue);
    var first := idle.(rank := Rank(0, 10, 1), queued := true);
    var second := idle.(rank := Rank(0, 20, 2), queued := true);
    Sched([idle, first, second], [1, 2], map[], 1, 1, 3, true)
  }

  lemma {:induction false} TwoReadyThreads()
    ensures Threads(TwoReady()) && Settled(TwoReady(), {}) && Awake(TwoReady()) && Cached(TwoReady())
  {
  }

  lemma {:induction false} TwoReadyRun()
    ensures RunOk(TwoReady())
  {
    var k := TwoReady();
    assert Ranks(k, k.runq) == [Rank(0, 10, 1), Rank(0, 20, 2)];
  }

  lemma {:induction false} TwoReadyWait()
    ensures WaitOk(TwoReady())
  {
    assert forall w :: Queue(TwoReady(), w) == [];
  }

  lemma {:induction false} TwoReadyGood()
    ensures Good(TwoReady()) && Cached(TwoReady())
  {
    hide TwoReady, Threads, Settled, Awake, Cached, RunOk, WaitOk;
    TwoReadyThreads();
    TwoReadyRun();
    TwoReadyWait();
  }

  /** A deadline change does leave the cache behind: an earlier deadline puts the second
      thread first, but the cache still names the first. */
  lemma {:induction false} DeadlineLeavesCacheBehind()
    ensures var k := TwoReady();
      Good(k) && Cached(k) && Legal(k, CallDeadline(2, 5)) && !Cached(Perform(k, CallDeadline(2, 5)))
  {
    TwoReadyGood();
    var k := TwoReady();
    assert Index([1, 2], 2) == 1;
    var k1 := Dequeue(k, 2);
    assert k1.runq == [1];
    var k2 := Set(k1, 2, k1.threads[2].(rank := Rank(0, 5, 2)));
    assert Ranks(k2, [1]) == [Rank(0, 10, 1)];
    assert PrioCmp(Rank(0, 5, 3), Rank(0, 10, 1)) > 0;
    assert Slot([Rank(0, 10, 1)], Rank(0, 5, 3)) == 0;
    assert DeadlineSet(k, 2, 5).runq == [2, 1];
  }
}
