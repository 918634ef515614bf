/** The uniprocessor scheduler's state (sched.c): thread state bits, run queue, wait
    queues and the cached next thread, and the primitives all its calls are made of. */
module SchedState {
  import opened Rings
  import opened RunQueues

  /** The idle thread; it is never queued. */
  const IDLE: Tid := 0

  /** A thread's wait queue: a kernel object's, another thread's join queue, or none. */
  datatype WaitQ = NoQueue | Join(of: Tid) | Object(n: nat)

  datatype Thread = Thread(rank: Rank, locked: nat, queued: bool, pending: bool, suspended: bool,
                           dead: bool, prestart: bool, timeout: bool, pendedOn: WaitQ)

  /** `clock` numbers the times of queueing; `inWindow` says that every thread was queued with
      a deadline less than half the 32-bit range from those queued at that moment, since
      the run queue was last empty. Both are history. */
  datatype Sched = Sched(threads: seq<Thread>, runq: seq<Tid>, waitqs: map<WaitQ, seq<Tid>>,
                         cache: Tid, current: Tid, clock: nat, inWindow: bool)

  /** z_is_thread_prevented_from_running. */
  predicate Prevented(t: Thread) {
    t.pending || t.suspended || t.dead || t.prestart
  }

  /** z_is_thread_ready. */
  predicate Ready(t: Thread) {
    !Prevented(t) && !t.timeout
  }

  /** thread_is_preemptible: not cooperative, scheduler not locked. */
  predicate Preemptible(t: Thread) {
    t.rank.prio >= 0 && t.locked == 0
  }

  predicate InRange(k: Sched, s: seq<Tid>) {
    forall i :: 0 <= i < |s| ==> s[i] < |k.threads|
  }

  function RankOf(k: Sched, t: Tid): Rank {
    if t < |k.threads| then k.threads[t].rank else Rank(0, 0, 0)
  }

  function Ranks(k: Sched, s: seq<Tid>): (r: seq<Rank>)
    ensures |r| == |s|
  {
    seq(|s|, i requires 0 <= i < |s| => RankOf(k, s[i]))
  }

  function Queue(k: Sched, w: WaitQ): seq<Tid> {
    if w in k.waitqs then k.waitqs[w] else []
  }

  function Best(k: Sched): Tid {
    if k.runq == [] then IDLE else k.runq[0]
  }

  // ---- what every state satisfies -----------------------------------------------------

  ghost predicate Threads(k: Sched) {
    && |k.threads| > 0 && k.cache < |k.threads| && k.current < |k.threads|
    && Ready(k.threads[IDLE]) && k.threads[IDLE].pendedOn == NoQueue
    && (forall t :: 0 <= t < |k.threads| ==> k.threads[t].rank.arrival < k.clock)
  }

  /** QUEUED is set exactly for the members of the run queue, which are ready and listed
      once; and while deadlines are in the window the queue is sorted, equals in order of
      arrival. */
  ghost predicate RunOk(k: Sched) {
    && InRange(k, k.runq) && IDLE !in k.runq
    && (forall t :: 0 <= t < |k.threads| ==> (k.threads[t].queued <==> t in k.runq))
    && (forall t :: t in k.runq ==> Ready(k.threads[t])) && Distinct(k.runq)
    && (k.inWindow ==> Sorted(Ranks(k, k.runq)))
  }

  /** The wait queue `w` holds exactly the threads whose pended_on is `w`. */
  ghost predicate ListsOwn(k: Sched, w: WaitQ) {
    forall t :: 0 <= t < |k.threads| ==> (t in Queue(k, w) <==> w != NoQueue && k.threads[t].pendedOn == w)
  }

  /** pended_on names the one wait queue that holds the thread, once. */
  ghost predicate WaitOk(k: Sched) {
    && (forall w :: InRange(k, Queue(k, w)))
    && (forall w :: Distinct(Queue(k, w)))
    && (forall w :: ListsOwn(k, w))
    && (forall t :: 0 <= t < |k.threads| && k.threads[t].pendedOn != NoQueue ==> k.threads[t].pending)
  }

  /** Every ready thread other than idle (and but for those excepted) is queued. */
  ghost predicate Settled(k: Sched, except: set<Tid>) {
    forall t :: 0 < t < |k.threads| && t !in except && Ready(k.threads[t]) ==> k.threads[t].queued
  }

  ghost predicate Struct(k: Sched) {
    Threads(k) && RunOk(k) && WaitOk(k)
  }

  /** The running thread has no timeout armed. */
  ghost predicate Awake(k: Sched) {
    k.current < |k.threads| && !k.threads[k.current].timeout
  }

  /** The cache is the current thread, which can run and may not be preempted. */
  predicate Holds(k: Sched) {
    && k.current < |k.threads| && k.cache == k.current
    && Ready(k.threads[k.current]) && !Preemptible(k.threads[k.current])
  }

  /** The cache is the best thread to run, or the current thread while it may not be
      preempted. */
  ghost predicate Cached(k: Sched) {
    k.cache < |k.threads| && k.current < |k.threads| && (k.cache == Best(k) || Holds(k))
  }

  // ---- primitives ---------------------------------------------------------------------

  /** Changes to a thread's bits and rank. */
  function Set(k: Sched, t: Tid, th: Thread): Sched
    requires t < |k.threads|
  {
    k.(threads := k.threads[t := th])
  }

  /** queue_thread: z_priq_dumb_add into the run queue. */
  function Enqueue(k: Sched, t: Tid): Sched
    requires t < |k.threads|
  {
    var th := k.threads[t].(queued := true, rank := k.threads[t].rank.(arrival := k.clock));
    var p := Slot(Ranks(k, k.runq), th.rank);
    k.(threads := k.threads[t := th], runq := k.runq[..p] + [t] + k.runq[p..], clock := k.clock + 1,
       inWindow := (k.runq == [] || k.inWindow) &&
         forall i :: 0 <= i < |k.runq| ==> Near(th.rank, RankOf(k, k.runq[i])))
  }

  /** dequeue_thread. */
  function Dequeue(k: Sched, t: Tid): Sched
    requires t < |k.threads|
  {
    k.(threads := k.threads[t := k.threads[t].(queued := false)], runq := Remove(k.runq, t))
  }

  /** next_up, should_preempt and update_cache. */
  function UpdateCache(k: Sched, preemptOk: bool): Sched
    requires k.current < |k.threads|
  {
    var cur := k.threads[k.current];
    k.(cache := if preemptOk || Prevented(cur) || Preemptible(cur) then Best(k) else k.current)
  }

  /** The thread is pending and joins a wait queue, if there is one: z_priq_wait_add. */
  function WaitAdd(k: Sched, t: Tid, w: WaitQ): Sched
    requires t < |k.threads|
  {
    var q := Queue(k, w);
    var p := Slot(Ranks(k, q), k.threads[t].rank);
    if w == NoQueue then Set(k, t, k.threads[t].(pending := true))
    else k.(threads := k.threads[t := k.threads[t].(pending := true, pendedOn := w)],
       waitqs := k.waitqs[w := q[..p] + [t] + q[p..]])
  }

  /** unpend_thread_no_timeout. */
  function WaitRemove(k: Sched, t: Tid): Sched
    requires t < |k.threads|
  {
    var w := k.threads[t].pendedOn;
    k.(threads := k.threads[t := k.threads[t].(pending := false, pendedOn := NoQueue)],
       waitqs := k.waitqs[w := Remove(Queue(k, w), t)])
  }

  // ---- they keep the structure ----------------------------------------------------------

  /** Bits of a thread may change while it stays out of, or ready in, the run queue. */
  lemma {:induction false} SetKeeps(k: Sched, t: Tid, th: Thread)
    requires Struct(k) && t < |k.threads| && t != IDLE
    requires th.queued == k.threads[t].queued && th.pending == k.threads[t].pending &&
        th.pendedOn == k.threads[t].pendedOn
    requires th.queued ==> Ready(th) && th.rank == k.threads[t].rank
    requires th.rank.arrival < k.clock
    ensures Struct(Set(k, t, th))
  {
    hide Ready, Threads, RunOk, WaitOk;
    SetThreads(k, t, th);
    SetRun(k, t, th);
    SetWait(k, t, th);
  }

  /** The wait queues and the pending bits are untouched. */
  lemma {:induction false} WaitSame(k: Sched, k': Sched)
    requires WaitOk(k) && k'.waitqs == k.waitqs && |k'.threads| == |k.threads|
    requires forall u :: 0 <= u < |k.threads| ==>
      k'.threads[u].pending == k.threads[u].pending && k'.threads[u].pendedOn == k.threads[u].pendedOn
    ensures WaitOk(k')
  {
    assert forall w :: Queue(k', w) == Queue(k, w);
    forall w ensures InRange(k', Queue(k', w)) && Distinct(Queue(k', w)) && ListsOwn(k', w) {
      assert InRange(k, Queue(k, w)) && Distinct(Queue(k, w)) && ListsOwn(k, w);
    }
  }

  /** One thread joins or leaves the wait queue `w`. */
  lemma {:induction false} WaitChanged(k: Sched, k': Sched, w: WaitQ, t: Tid)
    requires WaitOk(k) && t < |k.threads| == |k'.threads|
    requires forall v :: v != w ==> Queue(k', v) == Queue(k, v)
    requires forall v :: v != w ==> t !in Queue(k, v)
    requires forall u :: 0 <= u < |k.threads| && u != t ==>
      k'.threads[u].pending == k.threads[u].pending && k'.threads[u].pendedOn == k.threads[u].pendedOn
    requires InRange(k', Queue(k', w))
    requires Distinct(Queue(k', w))
    requires forall x :: x != t ==> (x in Queue(k', w) <==> x in Queue(k, w))
    requires t in Queue(k', w) <==> w != NoQueue && k'.threads[t].pendedOn == w
    requires k'.threads[t].pendedOn == w || k'.threads[t].pendedOn == NoQueue
    requires k'.threads[t].pendedOn != NoQueue ==> k'.threads[t].pending
    ensures WaitOk(k')
  {
    forall v ensures InRange(k', Queue(k', v)) && Distinct(Queue(k', v)) {
      assert InRange(k, Queue(k, v)) && Distinct(Queue(k, v));
    }
    forall v ensures ListsOwn(k', v) {
      assert ListsOwn(k, v);
    }
  }

  lemma {:induction false} ListedIff(k: Sched, w: WaitQ, t: Tid)
    requires WaitOk(k) && t < |k.threads|
    ensures t in Queue(k, w) <==> w != NoQueue && k.threads[t].pendedOn == w
  {
    assert ListsOwn(k, w);
  }

  lemma {:induction false} SetWait(k: Sched, t: Tid, th: Thread)
    requires WaitOk(k) && t < |k.threads|
    requires th.pending == k.threads[t].pending && th.pendedOn == k.threads[t].pendedOn
    ensures WaitOk(Set(k, t, th))
  {
    WaitSame(k, Set(k, t, th));
  }

  lemma {:induction false} SetThreads(k: Sched, t: Tid, th: Thread)
    requires Threads(k) && t < |k.threads| && t != IDLE && th.rank.arrival < k.clock
    ensures Threads(Set(k, t, th))
  {
    hide Ready;
  }

  lemma {:induction false} SetRun(k: Sched, t: Tid, th: Thread)
    requires RunOk(k) && t < |k.threads| && th.queued == k.threads[t].queued
    requires th.queued ==> Ready(th) && th.rank == k.threads[t].rank
    ensures RunOk(Set(k, t, th))
  {
    hide Ready, Sorted;
    var k' := Set(k, t, th);
    assert Ranks(k', k'.runq) == Ranks(k, k.runq);
  }

  lemma {:induction false} EnqueueKeeps(k: Sched, t: Tid)
    requires Struct(k) && 0 < t < |k.threads| && !k.threads[t].queued && Ready(k.threads[t])
    ensures Struct(Enqueue(k, t))
  {
    hide Threads, WaitOk;
    EnqueueThreads(k, t);
    EnqueueRun(k, t);
    EnqueueWait(k, t);
  }

  lemma {:induction false} EnqueueThreads(k: Sched, t: Tid)
    requires Struct(k) && 0 < t < |k.threads|
    ensures Threads(Enqueue(k, t))
  {
    hide WaitOk, Slot, Ranks, Near, Ready, RunOk;
  }

  lemma {:induction false} EnqueueWait(k: Sched, t: Tid)
    requires WaitOk(k) && t < |k.threads| && InRange(k, k.runq)
    ensures WaitOk(Enqueue(k, t))
  {
    WaitSame(k, Enqueue(k, t));
  }

  lemma {:induction false} RanksPlace(k: Sched, k': Sched, q: seq<Tid>, p: nat, t: Tid)
    requires InRange(k, q) && p <= |q| && t < |k.threads| == |k'.threads| && t !in q
    requires forall u :: 0 <= u < |k.threads| && u != t ==> k'.threads[u].rank == k.threads[u].rank
    ensures var q' := q[..p] + [t] + q[p..];
      InRange(k', q') && Ranks(k', q') == Ranks(k, q)[..p] + [k'.threads[t].rank] + Ranks(k, q)[p..]
  {
    var q' := q[..p] + [t] + q[p..];
    assert forall i :: 0 <= i < |q'| ==> q'[i] == if i < p then q[i] else if i == p then t else q[i - 1];
  }

  lemma {:induction false} NoneSorted()
    ensures Sorted([])
  {
  }

  lemma {:induction false} EnqueueSorted(k: Sched, t: Tid)
    requires Threads(k) && RunOk(k) && 0 < t < |k.threads| && !k.threads[t].queued
    ensures var k' := Enqueue(k, t); InRange(k', k'.runq) && (k'.inWindow ==> Sorted(Ranks(k', k'.runq)))
  {
    hide Ready, Sorted;
    var k' := Enqueue(k, t);
    var ranks, r := Ranks(k, k.runq), k'.threads[t].rank;
    var p := Slot(ranks, r);
    RanksPlace(k, k', k.runq, p, t);
    if k'.inWindow {
      NoneSorted();
      forall i | 0 <= i < |ranks| ensures Near(r, ranks[i]) && ranks[i].arrival < r.arrival {
        assert Near(r, RankOf(k, k.runq[i]));
      }
      AddSorted(ranks, r);
    }
  }

  lemma {:induction false} EnqueueRun(k: Sched, t: Tid)
    requires Threads(k) && RunOk(k) && 0 < t < |k.threads| && !k.threads[t].queued && Ready(k.threads[t])
    ensures RunOk(Enqueue(k, t))
  {
    var k' := Enqueue(k, t);
    var p := Slot(Ranks(k, k.runq), k'.threads[t].rank);
    EnqueueSorted(k, t);
    PlacedIn(k.runq, p, t);
    PlacedDistinct(k.runq, p, t);
    assert Ready(k'.threads[t]);
    hide Ready, Near, Sorted, Slot, Ranks, Distinct;
  }

  lemma {:induction false} DequeueKeeps(k: Sched, t: Tid)
    requires Struct(k) && 0 < t < |k.threads|
    ensures Struct(Dequeue(k, t)) && t !in Dequeue(k, t).runq
  {
    RemoveIn(k.runq, t);
    hide Threads, RunOk, WaitOk;
    DequeueThreads(k, t);
    DequeueRun(k, t);
    DequeueWait(k, t);
  }

  lemma {:induction false} DequeueThreads(k: Sched, t: Tid)
    requires Threads(k) && 0 < t < |k.threads|
    ensures Threads(Dequeue(k, t))
  {
    hide Ready;
  }

  lemma {:induction false} DequeueWait(k: Sched, t: Tid)
    requires WaitOk(k) && t < |k.threads|
    ensures WaitOk(Dequeue(k, t))
  {
    WaitSame(k, Dequeue(k, t));
  }

  lemma {:induction false} InRangeIn(k: Sched, s: seq<Tid>)
    requires InRange(k, s)
    ensures forall x :: x in s ==> x < |k.threads|
  {
  }

  lemma {:induction false} InRangeOf(k: Sched, s: seq<Tid>)
    requires forall x :: x in s ==> x < |k.threads|
    ensures InRange(k, s)
  {
    forall i | 0 <= i < |s| ensures s[i] < |k.threads| { assert s[i] in s; }
  }

  lemma {:induction false} DequeueRanks(k: Sched, t: Tid)
    requires t < |k.threads| && InRange(k, k.runq)
    ensures var k' := Dequeue(k, t);
      InRange(k', k'.runq) && (Sorted(Ranks(k, k.runq)) ==> Sorted(Ranks(k', k'.runq)))
  {
    hide Sorted, RunQueues.Before;
    var k', p := Dequeue(k, t), Index(k.runq, t);
    if p < |k.runq| {
      assert forall i :: 0 <= i < |k'.runq| ==> k'.runq[i] == k.runq[if i < p then i else i + 1];
      if Sorted(Ranks(k, k.runq)) {
        RemoveSorted(Ranks(k, k.runq), p);
      }
      assert Ranks(k', k'.runq) == Ranks(k, k.runq)[..p] + Ranks(k, k.runq)[p + 1..];
    } else {
      assert Ranks(k', k'.runq) == Ranks(k, k.runq);
    }
  }

  lemma {:induction false} DequeueRun(k: Sched, t: Tid)
    requires RunOk(k) && 0 < t < |k.threads|
    ensures RunOk(Dequeue(k, t))
  {
    hide Ready, Sorted;
    RemoveIn(k.runq, t);
    DequeueRanks(k, t);
    InRangeIn(k, k.runq);
    InRangeOf(Dequeue(k, t), Dequeue(k, t).runq);
  }

  lemma {:induction false} WaitAddKeeps(k: Sched, t: Tid, w: WaitQ)
    requires Struct(k) && 0 < t < |k.threads| && !k.threads[t].queued && k.threads[t].pendedOn == NoQueue
    ensures Struct(WaitAdd(k, t, w))
  {
    hide Threads, RunOk;
    assert InRange(k, Queue(k, w));
    WaitAddThreads(k, t, w);
    WaitAddRun(k, t, w);
    WaitAddWait(k, t, w);
  }

  lemma {:induction false} WaitAddThreads(k: Sched, t: Tid, w: WaitQ)
    requires Threads(k) && 0 < t < |k.threads| && InRange(k, Queue(k, w))
    ensures Threads(WaitAdd(k, t, w))
  {
    hide Near, Ready, Slot, Ranks, Queue;
  }

  lemma {:induction false} WaitAddRun(k: Sched, t: Tid, w: WaitQ)
    requires RunOk(k) && 0 < t < |k.threads| && InRange(k, Queue(k, w)) && !k.threads[t].queued
    ensures RunOk(WaitAdd(k, t, w))
  {
    hide Ready, Sorted, Slot, Queue;
    var k' := WaitAdd(k, t, w);
    assert Ranks(k', k'.runq) == Ranks(k, k.runq);
  }

  lemma {:induction false} WaitAddWait(k: Sched, t: Tid, w: WaitQ)
    requires WaitOk(k) && 0 < t < |k.threads| && k.threads[t].pendedOn == NoQueue
    ensures WaitOk(WaitAdd(k, t, w))
  {
    if w == NoQueue {
      PendsNowhere(k, t);
      return;
    }
    hide WaitOk, Slot, Ranks;
    WaitAddAt(k, t, w, Slot(Ranks(k, Queue(k, w)), k.threads[t].rank));
  }

  /** A thread put at place `p` of a wait queue it waits on. */
  lemma {:induction false} WaitAddAt(k: Sched, t: Tid, w: WaitQ, p: nat)
    requires WaitOk(k) && 0 < t < |k.threads| && k.threads[t].pendedOn == NoQueue && w != NoQueue && p <= |Queue(k, w)|
    ensures var q := Queue(k, w);
      WaitOk(k.(threads := k.threads[t := k.threads[t].(pending := true, pendedOn := w)],
                waitqs := k.waitqs[w := q[..p] + [t] + q[p..]]))
  {
    var q := Queue(k, w);
    var k' := k.(threads := k.threads[t := k.threads[t].(pending := true, pendedOn := w)],
                 waitqs := k.waitqs[w := q[..p] + [t] + q[p..]]);
    assert Queue(k', w) == q[..p] + [t] + q[p..];
    assert forall v :: v != w ==> Queue(k', v) == Queue(k, v);
    assert InRange(k, q) && Distinct(q);
    hide WaitOk, Distinct, InRange, Queue;
    forall v ensures t !in Queue(k, v) { ListedIff(k, v, t); }
    PlacedIn(q, p, t);
    PlacedDistinct(q, p, t);
    InRangeIn(k, q);
    InRangeOf(k', Queue(k', w));
    WaitChanged(k, k', w, t);
  }

  /** Pending on no queue at all. */
  lemma {:induction false} PendsNowhere(k: Sched, t: Tid)
    requires WaitOk(k) && t < |k.threads| && k.threads[t].pendedOn == NoQueue
    ensures WaitOk(Set(k, t, k.threads[t].(pending := true)))
  {
    var k' := Set(k, t, k.threads[t].(pending := true));
    assert forall w :: Queue(k', w) == Queue(k, w);
    forall w ensures InRange(k', Queue(k', w)) && Distinct(Queue(k', w)) && ListsOwn(k', w) {
      assert InRange(k, Queue(k, w)) && Distinct(Queue(k, w)) && ListsOwn(k, w);
    }
  }

  lemma {:induction false} WaitRemoveKeeps(k: Sched, t: Tid)
    requires Struct(k) && 0 < t < |k.threads|
    ensures Struct(WaitRemove(k, t))
  {
    hide Threads, RunOk, WaitOk;
    WaitRemoveThreads(k, t);
    WaitRemoveRun(k, t);
    WaitRemoveWait(k, t);
  }

  lemma {:induction false} WaitRemoveThreads(k: Sched, t: Tid)
    requires Threads(k) && 0 < t < |k.threads|
    ensures Threads(WaitRemove(k, t))
  {
    hide Near, Ready, Queue, Remove;
  }

  lemma {:induction false} WaitRemoveRun(k: Sched, t: Tid)
    requires RunOk(k) && 0 < t < |k.threads|
    ensures RunOk(WaitRemove(k, t))
  {
    var k' := WaitRemove(k, t);
    assert Ready(k.threads[t]) ==> Ready(k'.threads[t]);
    assert Ranks(k', k'.runq) == Ranks(k, k.runq);
    hide Ready, Sorted, Queue, Remove;
  }

  lemma {:induction false} WaitRemoveWait(k: Sched, t: Tid)
    requires WaitOk(k) && 0 < t < |k.threads|
    ensures WaitOk(WaitRemove(k, t))
  {
    var w, k' := k.threads[t].pendedOn, WaitRemove(k, t);
    forall v ensures t in Queue(k, v) ==> v == w { ListedIff(k, v, t); }
    RemoveIn(Queue(k, w), t);
    assert Queue(k', w) == Remove(Queue(k, w), t);
    InRangeIn(k, Queue(k, w));
    InRangeOf(k', Queue(k', w));
    WaitChanged(k, k', w, t);
  }

  lemma {:induction false} CacheKeeps(k: Sched, preemptOk: bool)
    requires Struct(k)
    ensures Struct(UpdateCache(k, preemptOk))
  {
    var k' := UpdateCache(k, preemptOk);
    WaitSame(k, k');
    hide WaitOk, Near, Sorted;
    assert k.runq != [] ==> k.runq[0] in k.runq;
    InRangeIn(k, k.runq);
    assert Ranks(k', k'.runq) == Ranks(k, k.runq);
  }

  /** After a refresh the cache is up to date: the best thread if preemption is allowed, and a
      current thread that can run and may not be preempted otherwise. */
  lemma {:induction false} CacheIsBest(k: Sched, preemptOk: bool)
    requires Struct(k) && Awake(k)
    ensures var k', cur := UpdateCache(k, preemptOk), k.threads[k.current];
      && Cached(k') && (preemptOk ==> k'.cache == Best(k))
      && (!preemptOk && Ready(cur) && !Preemptible(cur) ==> k'.cache == k.current && Holds(k'))
  {
    assert k.runq != [] ==> k.runq[0] in k.runq;
  }
}
