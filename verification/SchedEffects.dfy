/** What each scheduler call does to the thread it is about, and that it leaves all others
    alone (sched.c). */
module SchedEffects {
  import opened Rings
  import opened RunQueues
  import opened SchedState
  import opened SchedSteps

  /** A thread but for its place in the run queue, which is what `Good` speaks of. */
  function Bits(th: Thread): Thread {
    th.(queued := false, rank := th.rank.(arrival := 0))
  }

  /** All threads but `t` are as they were. */
  ghost predicate OnlyThread(k: Sched, k': Sched, t: Tid) {
    && |k'.threads| == |k.threads|
    && forall u :: 0 <= u < |k.threads| && u != t ==> k'.threads[u] == k.threads[u]
  }

  /** Only thread `t` changed, to `th` but for its place in the run queue, where it stands
      exactly if it can run; nobody joined or left a wait queue, and nobody was switched to. */
  ghost predicate Becomes(k: Sched, k': Sched, t: Tid, th: Thread)
    requires t < |k.threads|
  {
    && OnlyThread(k, k', t) && k'.waitqs == k.waitqs && k'.current == k.current
    && Bits(k'.threads[t]) == Bits(th) && (t in k'.runq <==> Ready(th))
  }

  /** ... the same for a thread that waits no longer. */
  ghost predicate BecomesFree(k: Sched, k': Sched, t: Tid, th: Thread)
    requires t < |k.threads|
  {
    && OnlyThread(k, k', t) && k'.current == k.current && (forall w :: Queue(k', w) == Remove(Queue(k, w), t))
    && Bits(k'.threads[t]) == Bits(th) && (t in k'.runq <==> Ready(th))
  }

  lemma {:induction false} QueuedIffReady(k: Sched, t: Tid)
    requires Good(k) && 0 < t < |k.threads|
    ensures t in k.runq <==> Ready(k.threads[t])
  {
  }

  /** In every run a thread other than idle is queued exactly if it waits for nothing, is not
      suspended, has started, lives, and has no timeout to sleep through; and what is cached
      can run in that sense too. */
  lemma {:induction false} OnlyTheAbleRun(k: Sched, cs: seq<Call>, k': Sched)
    requires Good(k) && CacheReady(k) && Reaches(k, cs, k')
    ensures forall t :: 0 < t < |k'.threads| ==>
      var th := k'.threads[t];
      (t in k'.runq <==> !th.pending && !th.suspended && !th.prestart && !th.dead && !th.timeout)
    ensures k'.cache < |k'.threads|
    ensures var th := k'.threads[k'.cache]; !th.pending && !th.suspended && !th.prestart && !th.dead && !th.timeout
  {
    EveryRun(k, cs, k');
    forall t | 0 < t < |k'.threads| ensures t in k'.runq <==> Ready(k'.threads[t]) {
      QueuedIffReady(k', t);
    }
  }

  lemma {:induction false} BitsReady(a: Thread, b: Thread)
    requires Bits(a) == Bits(b)
    ensures Ready(a) <==> Ready(b)
  {
  }

  /** Whatever ready_thread does, it does to the place in the run queue. */
  lemma {:induction false} ReadyPlaces(k: Sched, t: Tid)
    requires t < |k.threads| && k.current < |k.threads|
    ensures var k' := ReadyThread(k, t);
      && OnlyThread(k, k', t) && k'.waitqs == k.waitqs && k'.current == k.current
      && Bits(k'.threads[t]) == Bits(k.threads[t])
  {
    hide Slot, Ranks, Ready;
  }

  lemma {:induction false} PlacedIff(k: Sched, k': Sched, t: Tid, th: Thread)
    requires Good(k') && 0 < t < |k.threads| && OnlyThread(k, k', t) && Bits(k'.threads[t]) == Bits(th)
    ensures t in k'.runq <==> Ready(th)
  {
    hide Good, Ready;
    QueuedIffReady(k', t);
    BitsReady(k'.threads[t], th);
  }

  /** z_sched_start: a thread not yet started is, and any other call does nothing. */
  lemma {:induction false} StartDoes(k: Sched, t: Tid)
    requires Good(k) && 0 < t < |k.threads|
    ensures var th, k' := k.threads[t], StartThread(k, t);
      if th.prestart then Becomes(k, k', t, th.(prestart := false)) else k' == k
  {
    StartKeeps(k, t);
    hide Good, ReadyThread, Fresh, Same, Ready;
    GoodIsAlmost(k, t);
    if k.threads[t].prestart {
      var th := k.threads[t].(prestart := false);
      ReadyPlaces(Set(k, t, th), t);
      PlacedIff(k, StartThread(k, t), t, th);
    }
  }

  /** k_thread_resume: a suspended thread no longer is, and any other call does nothing. */
  lemma {:induction false} ResumeDoes(k: Sched, t: Tid)
    requires Good(k) && 0 < t < |k.threads|
    ensures var th, k' := k.threads[t], Resume(k, t);
      if th.suspended then Becomes(k, k', t, th.(suspended := false)) else k' == k
  {
    ResumeKeeps(k, t);
    hide Good, ReadyThread, Fresh, Same, Ready;
    GoodIsAlmost(k, t);
    if k.threads[t].suspended {
      var th := k.threads[t].(suspended := false);
      ReadyPlaces(Set(k, t, th), t);
      PlacedIff(k, Resume(k, t), t, th);
    }
  }

  /** k_wakeup: a thread that sleeps, with a timeout or for ever, does so no longer; a thread
      that waits for something, or does not sleep, is left alone. */
  lemma {:induction false} WakeupDoes(k: Sched, t: Tid)
    requires Good(k) && 0 < t < |k.threads|
    ensures var th, k' := k.threads[t], Wakeup(k, t);
      if !th.pending && (th.timeout || (th.suspended && !th.dead && !th.prestart))
      then Becomes(k, k', t, th.(timeout := false, suspended := false))
      else k' == k
  {
    WakeupKeeps(k, t);
    QueuedIffReady(k, t);
    assert k.threads[t].suspended ==> !k.threads[t].queued;
    hide Good, ReadyThread, Fresh, Same, Ready;
    GoodIsAlmost(k, t);
    var th := k.threads[t].(timeout := false, suspended := false);
    ReadyPlaces(Set(k, t, th), t);
    if Wakeup(k, t) != k {
      PlacedIff(k, Wakeup(k, t), t, th);
    }
  }

  /** k_thread_suspend: the thread is suspended, its timeout cancelled, and it is off the run
      queue, whatever it was doing. */
  lemma {:induction false} SuspendDoes(k: Sched, t: Tid)
    requires Good(k) && 0 < t < |k.threads|
    ensures Becomes(k, Suspend(k, t), t, k.threads[t].(suspended := true, timeout := false))
  {
    SuspendKeeps(k, t);
    hide Good, Fresh, Same, Remove;
    GoodIsAlmost(k, t);
    PlacedIff(k, Suspend(k, t), t, k.threads[t].(suspended := true, timeout := false));
  }

  /** What waking leaves of a thread: no timeout, and if it was on a wait queue it is on none
      and not pending. */
  function Woken(th: Thread): Thread {
    if th.pendedOn != NoQueue then th.(timeout := false, pending := false, pendedOn := NoQueue)
    else th.(timeout := false)
  }

  lemma {:induction false} NotListed(k: Sched, t: Tid)
    requires Good(k) && t < |k.threads|
    ensures forall w :: t in Queue(k, w) ==> w == k.threads[t].pendedOn != NoQueue
  {
    forall w | t in Queue(k, w) ensures w == k.threads[t].pendedOn != NoQueue {
      ListedIff(k, w, t);
    }
  }

  lemma {:induction false} UnpendDoes(k: Sched, t: Tid)
    requires Good(k) && t < |k.threads|
    ensures var k' := UnpendThread(k, t);
      && OnlyThread(k, k', t) && k'.current == k.current && k'.threads[t] == Woken(k.threads[t])
      && (forall w :: Queue(k', w) == Remove(Queue(k, w), t))
  {
    NotListed(k, t);
    hide Good;
    var k' := UnpendThread(k, t);
    forall w ensures Queue(k', w) == Remove(Queue(k, w), t) {
      if t !in Queue(k, w) {
        assert Remove(Queue(k, w), t) == Queue(k, w);
      }
    }
  }

  /** Waking a thread takes it off its wait queue and cancels its timeout, no more: one that is
      suspended, dead or not yet started stays so. */
  lemma {:induction false} WakeDoes(k: Sched, t: Tid)
    requires Good(k) && 0 < t < |k.threads|
    ensures BecomesFree(k, WakeThread(k, t), t, Woken(k.threads[t]))
  {
    GoodIsAlmost(k, t);
    hide Almost;
    WakeKeeps(k, t);
    UnpendDoes(k, t);
    hide Good, Fresh, Same, UnpendThread, ReadyThread, Woken, Ready;
    ReadyPlaces(UnpendThread(k, t), t);
    SameQueues(UnpendThread(k, t), WakeThread(k, t));
    PlacedIff(k, WakeThread(k, t), t, Woken(k.threads[t]));
  }

  lemma {:induction false} SameQueues(k: Sched, k': Sched)
    requires k'.waitqs == k.waitqs
    ensures forall w :: Queue(k', w) == Queue(k, w)
  {
  }

  /** z_unpend_first_thread: the first of a wait queue is woken, and nobody if it is empty. */
  lemma {:induction false} WakeFirstDoes(k: Sched, w: WaitQ)
    requires Good(k)
    ensures var q, k' := Queue(k, w), WakeFirst(k, w);
      if q == [] then k' == k
      else 0 < q[0] < |k.threads| && BecomesFree(k, k', q[0], Woken(k.threads[q[0]])) && [q[0]] + Queue(k', w) == q
  {
    if Queue(k, w) != [] {
      var q := Queue(k, w);
      WaitersAreReal(k, w);
      WakeDoes(k, q[0]);
      assert Index(q, q[0]) == 0;
      hide Good, WakeThread, Woken, Ready;
    }
  }

  /** z_thread_timeout: a thread whose timeout strikes waits, sleeps and delays its start no
      longer; of a dead one only the timeout goes, and without a timeout nothing happens. */
  lemma {:induction false} TimeoutDoes(k: Sched, t: Tid)
    requires Good(k) && 0 < t < |k.threads|
    ensures var th, k' := k.threads[t], TimeoutFires(k, t);
      if !th.timeout then k' == k
      else if th.dead then Becomes(k, k', t, th.(timeout := false))
      else BecomesFree(k, k', t, Woken(th).(prestart := false, suspended := false))
  {
    var th, k' := k.threads[t], TimeoutFires(k, t);
    TimeoutKeeps(k, t);
    UnpendDoes(k, t);
    hide Good, Fresh, Same, UnpendThread, ReadyThread, Woken, Ready;
    GoodIsAlmost(k, t);
    if th.timeout {
      if th.dead {
        PlacedIff(k, k', t, th.(timeout := false));
      } else {
        var th', k1 := Woken(th).(prestart := false, suspended := false), UnpendThread(k, t);
        ReadyPlaces(Set(k1, t, th'), t);
        SameQueues(k1, k');
        PlacedIff(k, k', t, th');
      }
    }
  }

  /** z_thread_prio_set changes the priority and nothing else. */
  lemma {:induction false} PrioSetDoes(k: Sched, t: Tid, prio: int)
    requires Good(k) && 0 < t < |k.threads|
    ensures Becomes(k, PrioSet(k, t, prio), t, k.threads[t].(rank := k.threads[t].rank.(prio := prio)))
  {
    PrioSetKeeps(k, t, prio);
    hide Good, Fresh, Same, Remove, Slot, Ranks;
    GoodIsAlmost(k, t);
    PlacedIff(k, PrioSet(k, t, prio), t, k.threads[t].(rank := k.threads[t].rank.(prio := prio)));
  }

  /** k_thread_deadline_set changes the deadline and nothing else, the cache included. */
  lemma {:induction false} DeadlineDoes(k: Sched, t: Tid, deadline: int)
    requires Good(k) && 0 < t < |k.threads|
    ensures var k' := DeadlineSet(k, t, deadline);
      Becomes(k, k', t, k.threads[t].(rank := k.threads[t].rank.(deadline := deadline))) && k'.cache == k.cache
  {
    DeadlineKeeps(k, t, deadline);
    hide Good, Same, Remove, Slot, Ranks;
    GoodIsAlmost(k, t);
    PlacedIff(k, DeadlineSet(k, t, deadline), t, k.threads[t].(rank := k.threads[t].rank.(deadline := deadline)));
  }

  /** Moving a thread to the end of its equals changes no thread. */
  lemma {:induction false} MoveToEndDoes(k: Sched, t: Tid)
    requires Good(k) && 0 < t < |k.threads| && k.threads[t].queued
    ensures Becomes(k, MoveToEnd(k, t), t, k.threads[t])
  {
    MoveToEndKeeps(k, t);
    hide Good, Fresh, Same, Remove, Slot, Ranks;
    GoodIsAlmost(k, t);
    PlacedIff(k, MoveToEnd(k, t), t, k.threads[t]);
  }

  /** Locking and unlocking the scheduler count, and undo each other. */
  lemma {:induction false} LocksDo(k: Sched)
    requires Good(k) && k.current != IDLE
    ensures var t, k' := k.current, SchedLock(k);
      && Becomes(k, k', t, k.threads[t].(locked := k.threads[t].locked + 1)) && k'.cache == k.cache
      && SchedUnlock(k').threads == k.threads
    ensures var t := k.current;
      k.threads[t].locked > 0 ==> Becomes(k, SchedUnlock(k), t, k.threads[t].(locked := k.threads[t].locked - 1))
  {
    var t := k.current;
    QueuedIffReady(k, t);
    assert SchedLock(k).threads[t := k.threads[t]] == k.threads;
  }

  /** The current thread steps aside: only it changed, to `th` and off the run queue, and the
      best of the others runs. */
  ghost predicate StepsAside(k: Sched, k': Sched, th: Thread)
    requires k.current < |k.threads|
  {
    var t := k.current;
    && OnlyThread(k, k', t) && k'.threads[t] == th && !th.queued && k'.runq == Remove(k.runq, t)
    && k'.current == k'.cache == Best(k')
  }

  /** z_tick_sleep: the current thread sleeps with its timeout armed. */
  lemma {:induction false} SleepDoes(k: Sched)
    requires Good(k) && MayBlock(k)
    ensures var th, k' := k.threads[k.current], Sleep(k);
      StepsAside(k, k', th.(timeout := true, suspended := true, queued := false)) && k'.waitqs == k.waitqs
  {
    hide Good, Remove;
  }

  /** z_pend_curr: the current thread is pending on its wait queue and on no other, with a
      timeout if it has one. */
  lemma {:induction false} PendDoes(k: Sched, w: WaitQ, timed: bool)
    requires Good(k) && MayBlock(k)
    ensures var t, th, k' := k.current, k.threads[k.current], PendCurrent(k, w, timed);
      && StepsAside(k, k', th.(timeout := timed, pending := true, pendedOn := w, queued := false))
      && (forall v :: v != w ==> Queue(k', v) == Queue(k, v))
      && (w == NoQueue ==> k'.waitqs == k.waitqs)
      && (w != NoQueue ==> exists p :: 0 <= p <= |Queue(k, w)| && BehindEquals(k, Queue(k, w), t, Queue(k', w), p))
  {
    var t, k1, k' := k.current, UnreadyThread(k, k.current), PendCurrent(k, w, timed);
    PendSteps(k, w, timed);
    hide Good, PendCurrent, BehindEquals, StepsAside;
    if w != NoQueue {
      SameRanks(k, k1);
      hide UnreadyThread;
      WaitAddPlaces(k, k1, t, w);
    }
    SameQueues(if w == NoQueue then k else WaitAdd(k1, t, w), k');
  }

  lemma {:induction false} PendSteps(k: Sched, w: WaitQ, timed: bool)
    requires Good(k) && MayBlock(k)
    ensures var k1, k' := UnreadyThread(k, k.current), PendCurrent(k, w, timed);
      && StepsAside(k, k', k.threads[k.current].(timeout := timed, pending := true, pendedOn := w, queued := false))
      && k'.waitqs == (if w == NoQueue then k.waitqs else WaitAdd(k1, k.current, w).waitqs)
      && k1.waitqs == k.waitqs
  {
    QueuedNotPended(k, k.current);
    hide Good, Remove, Slot, Ranks, Queue, RankOf;
  }

  lemma {:induction false} SameRanks(k: Sched, k1: Sched)
    requires k.current < |k.threads| && k1 == UnreadyThread(k, k.current)
    ensures forall u :: RankOf(k1, u) == RankOf(k, u)
  {
    hide Remove;
  }

  /** `t` joined the queue at place `p`: behind those it does not beat, in front of one it
      beats. */
  ghost predicate BehindEquals(k: Sched, q: seq<Tid>, t: Tid, q': seq<Tid>, p: nat)
    requires p <= |q|
  {
    && q' == q[..p] + [t] + q[p..]
    && (forall i :: 0 <= i < p ==> PrioCmp(RankOf(k, t), RankOf(k, q[i])) <= 0)
    && (p < |q| ==> PrioCmp(RankOf(k, t), RankOf(k, q[p])) > 0)
  }

  lemma {:induction false} WaitAddPlaces(k: Sched, k1: Sched, t: Tid, w: WaitQ)
    requires t < |k1.threads| && w != NoQueue && k1.waitqs == k.waitqs && forall u :: RankOf(k1, u) == RankOf(k, u)
    ensures var q, k' := Queue(k, w), WaitAdd(k1, t, w);
      && (forall v :: v != w ==> Queue(k', v) == Queue(k, v))
      && exists p :: 0 <= p <= |q| && BehindEquals(k, q, t, Queue(k', w), p)
  {
    hide PrioCmp, Slot;
    var q := Queue(k, w);
    var p := Slot(Ranks(k1, q), k1.threads[t].rank);
    assert forall i :: 0 <= i < |q| ==> Ranks(k1, q)[i] == RankOf(k, q[i]);
    assert k1.threads[t].rank == RankOf(k, t);
    assert BehindEquals(k, q, t, Queue(WaitAdd(k1, t, w), w), p);
  }

  /** k_thread_join waits exactly for a living thread, unless it may not, or would wait for
      itself or for one that waits for it; otherwise nothing happens. */
  lemma {:induction false} JoinDoes(k: Sched, t: Tid, noWait: bool, timed: bool)
    requires Good(k) && 0 < t < |k.threads|
    ensures var k' := JoinThread(k, t, noWait, timed);
      if k.threads[t].dead || noWait || t == k.current || t in Queue(k, Join(k.current)) then k' == k
      else k' == PendCurrent(k, Join(t), timed)
  {
    ListedIff(k, Join(k.current), t);
    hide PendCurrent;
  }

  /** k_yield changes no thread, and the best thread runs. */
  lemma {:induction false} YieldDoes(k: Sched)
    requires Good(k) && MayBlock(k)
    ensures var t, k' := k.current, Yield(k);
      && OnlyThread(k, k', t) && Bits(k'.threads[t]) == Bits(k.threads[t]) && t in k'.runq && k'.waitqs == k.waitqs
      && k'.current == k'.cache == Best(k')
  {
    YieldMoves(k);
    hide Good, Remove, Slot, Ranks;
  }

  // ---- the end of a thread -----------------------------------------------------------------------

  /** Those who waited on `w` are woken, and everybody else is as before. */
  ghost predicate AllWoken(k: Sched, k': Sched, w: WaitQ) {
    && |k'.threads| == |k.threads| && k'.current == k.current
    && (forall u :: 0 <= u < |k.threads| ==>
          Bits(k'.threads[u]) == Bits(if u in Queue(k, w) then Woken(k.threads[u]) else k.threads[u]))
    && Queue(k', w) == [] && (forall v :: v != w ==> Queue(k', v) == Queue(k, v))
  }

  lemma {:induction false} WakeFirstOnly(k: Sched, w: WaitQ)
    requires Good(k) && Queue(k, w) != []
    ensures var k1, t := WakeFirst(k, w), Queue(k, w)[0];
      && t < |k.threads| && OnlyThread(k, k1, t) && Bits(k1.threads[t]) == Bits(Woken(k.threads[t]))
      && k1.current == k.current && [t] + Queue(k1, w) == Queue(k, w) && t !in Queue(k1, w)
      && forall v :: v != w ==> Queue(k1, v) == Queue(k, v)
  {
    var q, k1 := Queue(k, w), WakeFirst(k, w);
    var t := q[0];
    WakeFirstDoes(k, w);
    NotListed(k, t);
    assert t in q;
    assert Distinct(q);
    hide Good, WakeFirst, Ready, Woken;
    RemoveIn(q, t);
    forall v | v != w ensures Queue(k1, v) == Queue(k, v) {
      assert t !in Queue(k, v);
    }
  }

  /** unpend_all wakes each thread that waits on the queue, and nobody else. */
  lemma {:induction false} UnpendAllDoes(k: Sched, w: WaitQ)
    requires Good(k) && k.current < |k.threads|
    ensures AllWoken(k, UnpendAll(k, w, |Queue(k, w)|), w)
    decreases |Queue(k, w)|
  {
    hide Good, WakeFirst, Woken, Bits;
    var q := Queue(k, w);
    if q != [] {
      var k1 := WakeFirst(k, w);
      WakeFirstOnly(k, w);
      WakeFirstKeeps(k, w);
      hide Fresh, Same;
      UnpendAllDoes(k1, w);
      assert forall u :: u in q <==> u == q[0] || u in Queue(k1, w);
    }
  }

  /** k_thread_abort: the thread is dead and on no queue, those who joined it are woken, and
      everybody else is as before. Of a dead thread nothing is left to do. */
  lemma {:induction false} AbortDoes(k: Sched, t: Tid)
    requires Good(k) && 0 < t < |k.threads|
    ensures var k', joined := AbortThread(k, t), Queue(k, Join(t));
      if k.threads[t].dead then k' == k
      else
        && |k'.threads| == |k.threads| && k'.current == k.current && t !in k'.runq
        && Bits(k'.threads[t]) == Bits(Woken(k.threads[t]).(dead := true))
        && (forall u :: 0 <= u < |k.threads| && u != t ==>
              Bits(k'.threads[u]) == Bits(if u in joined then Woken(k.threads[u]) else k.threads[u]))
        && Queue(k', Join(t)) == [] && forall v :: v != Join(t) ==> Queue(k', v) == Remove(Queue(k, v), t)
  {
    if !k.threads[t].dead {
      var k2, k' := Dead(k, t), AbortThread(k, t);
      AbortEnds(k, t);
      DyingIsGood(k, t);
      DeadDoes(k, t);
      hide Good, UnpendAll, Dead, Woken, Bits;
      UnpendAllDoes(k2, Join(t));
      var k3 := UnpendAll(k2, Join(t), |Queue(k2, Join(t))|);
      AbortIs(k, t);
      SameQueues(k3, k');
    }
  }

  lemma {:induction false} AbortIs(k: Sched, t: Tid)
    requires t < |k.threads| && k.current < |k.threads| && !k.threads[t].dead
    ensures var k2 := Dead(k, t);
      k2.current < |k2.threads| && AbortThread(k, t) == UpdateCache(UnpendAll(k2, Join(t), |Queue(k2, Join(t))|), true)
  {
    hide UnpendAll, UnpendThread, UpdateCache, Dequeue;
    DeadFrees(k, t);
    assert AbortThread(k, t) == HaltDead(k, t);
  }

  lemma {:induction false} DeadQueues(k: Sched, t: Tid)
    requires t < |k.threads| && k.current < |k.threads|
    requires forall w :: t in Queue(k, w) ==> w == k.threads[t].pendedOn != NoQueue
    ensures forall v :: Queue(Dead(k, t), v) == Remove(Queue(k, v), t)
  {
    var k2 := Dead(k, t);
    forall v ensures Queue(k2, v) == Remove(Queue(k, v), t) {
      if t !in Queue(k, v) {
        assert Remove(Queue(k, v), t) == Queue(k, v);
      }
    }
  }

  lemma {:induction false} DeadDoes(k: Sched, t: Tid)
    requires Good(k) && 0 < t < |k.threads|
    ensures var k2 := Dead(k, t);
      && OnlyThread(k, k2, t) && k2.current == k.current
      && Bits(k2.threads[t]) == Bits(Woken(k.threads[t]).(dead := true))
      && (forall v :: Queue(k2, v) == Remove(Queue(k, v), t))
      && (forall v, u :: u in Queue(k2, v) <==> u in Queue(k, v) && u != t)
  {
    NotListed(k, t);
    assert forall v :: Distinct(Queue(k, v));
    hide Good;
    var k2 := Dead(k, t);
    DeadQueues(k, t);
    hide Dead, Remove;
    forall v, u ensures u in Queue(k2, v) <==> u in Queue(k, v) && u != t {
      RemoveIn(Queue(k, v), t);
    }
  }
}
