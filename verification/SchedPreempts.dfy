/** Who keeps the processor (sched.c): a thread that may not be preempted, because it is
    cooperative or has locked the scheduler, runs on until it steps aside itself or a call
    refreshes the cached thread regardless. */
module SchedPreempts {
  import opened Rings
  import opened RunQueues
  import opened SchedState
  import opened SchedSteps

  /** The calls after which the best thread is to run regardless of preemption: the current
      thread steps aside or becomes preemptible, or update_cache is called with preempt_ok. */
  ghost predicate Forced(k: Sched, c: Call)
    requires Legal(k, c)
  {
    match c
    case CallSuspend(t) => !k.threads[t].suspended
    case CallAbort(t) => !k.threads[t].dead
    case CallPrioSet(t, _) => Ready(k.threads[t])
    case CallMoveToEnd(t) => t == k.current
    case CallPend(_, _) => true
    case CallSleep => true
    case CallYield => true
    case CallJoin(t, noWait, _) => JoinWaits(k, t, noWait)
    case CallUnlock => k.threads[k.current].rank.prio >= 0 && k.threads[k.current].locked == 1
    case _ => false
  }

  lemma {:induction false} ReadyHolds(k: Sched, t: Tid)
    requires Holds(k) && t < |k.threads|
    ensures Holds(ReadyThread(k, t)) && ReadyThread(k, t).current == k.current
  {
    hide Slot, Ranks, Near;
  }

  lemma {:induction false} UnpendHolds(k: Sched, t: Tid)
    requires Holds(k) && t < |k.threads|
    ensures Holds(UnpendThread(k, t)) && UnpendThread(k, t).current == k.current
    ensures |UnpendThread(k, t).threads| == |k.threads|
  {
    hide Remove, Queue;
  }

  /** A thread's bits change, but not those of the thread that holds the processor. */
  lemma {:induction false} SetHolds(k: Sched, t: Tid, th: Thread)
    requires Holds(k) && t < |k.threads|
    requires t == k.current ==> Ready(th) && !Preemptible(th)
    ensures Holds(Set(k, t, th)) && Set(k, t, th).current == k.current
  {
  }

  /** ... and then the thread is made ready. */
  lemma {:induction false} BitsHold(k: Sched, t: Tid, th: Thread)
    requires Holds(k) && t < |k.threads|
    requires t == k.current ==> Ready(th) && !Preemptible(th)
    ensures Holds(ReadyThread(Set(k, t, th), t)) && ReadyThread(Set(k, t, th), t).current == k.current
  {
    SetHolds(k, t, th);
    hide ReadyThread, Holds;
    ReadyHolds(Set(k, t, th), t);
  }

  lemma {:induction false} RequeueHolds(k: Sched, c: Call)
    requires Holds(k) && Legal(k, c) && !Forced(k, c) && (c.CallMoveToEnd? || c.CallDeadline?)
    ensures Holds(Perform(k, c)) && Perform(k, c).current == k.current
  {
    hide Slot, Ranks, Near, Remove;
  }

  /** Calls that turn out to have nothing to do, or only count. */
  lemma {:induction false} RestHolds(k: Sched, c: Call)
    requires Holds(k) && Legal(k, c) && !Forced(k, c)
    requires
      || c.CallSuspend? || c.CallPrioSet? || c.CallAbort? || c.CallJoin? || c.CallLock? || c.CallUnlock?
      || c.CallSwitch?
    ensures Holds(Perform(k, c)) && Perform(k, c).current == k.current
  {
    hide HaltSuspend, HaltDead, PendCurrent, Enqueue, Dequeue, Best;
  }

  /** Nothing but a forced call takes the processor from a thread that may not be
      preempted. */
  lemma {:induction false} HoldsOn(k: Sched, c: Call)
    requires Good(k) && Holds(k) && Legal(k, c) && !Forced(k, c)
    ensures Holds(Perform(k, c)) && Perform(k, c).current == k.current
  {
    hide Good, ReadyThread, WakeThread, TimeoutFires, Suspend, MoveToEnd, DeadlineSet, PrioSet, AbortThread, JoinThread,
        SchedLock, SchedUnlock, Switch;
    match c
    case CallStart(t) => BitsHold(k, t, k.threads[t].(prestart := false));
    case CallWake(t) => WakeHolds(k, t);
    case CallWakeFirst(w) =>
      if Queue(k, w) != [] && Queue(k, w)[0] < |k.threads| {
        WakeHolds(k, Queue(k, w)[0]);
      }
    case CallTimeout(t) => TimeoutHolds(k, t);
    case CallResume(t) => BitsHold(k, t, k.threads[t].(suspended := false));
    case CallWakeup(t) => BitsHold(k, t, k.threads[t].(timeout := false, suspended := false));
    case CallMoveToEnd(_) => RequeueHolds(k, c);
    case CallDeadline(_, _) => RequeueHolds(k, c);
    case _ => RestHolds(k, c);
  }

  lemma {:induction false} WakeHolds(k: Sched, t: Tid)
    requires Holds(k) && t < |k.threads|
    ensures Holds(WakeThread(k, t)) && WakeThread(k, t).current == k.current
  {
    hide ReadyThread, UnpendThread;
    UnpendHolds(k, t);
    ReadyHolds(UnpendThread(k, t), t);
  }

  lemma {:induction false} TimeoutHolds(k: Sched, t: Tid)
    requires Holds(k) && t < |k.threads|
    ensures Holds(TimeoutFires(k, t)) && TimeoutFires(k, t).current == k.current
  {
    hide ReadyThread, UnpendThread;
    if k.threads[t].timeout {
      UnpendHolds(k, t);
      var k1 := UnpendThread(k, t);
      var th := k1.threads[t].(prestart := false, suspended := false);
      SetHolds(k1, t, th);
      ReadyHolds(Set(k1, t, th), t);
    }
  }

  /** After a forced call the cached thread is the best one, whoever runs. */
  lemma {:induction false} ForcedTakesBest(k: Sched, c: Call)
    requires Good(k) && Legal(k, c) && Forced(k, c)
    ensures Perform(k, c).cache == Best(Perform(k, c))
  {
    hide Good, Slot, Ranks, Near, Remove, UnpendAll, Queue;
  }

  ghost predicate NeverForced(k: Sched, cs: seq<Call>)
    decreases |cs|
  {
    cs == [] || (Legal(k, cs[0]) ==> !Forced(k, cs[0]) && NeverForced(Perform(k, cs[0]), cs[1..]))
  }

  /** A thread that may not be preempted has the processor for as long as no call is forced,
      whatever threads become ready meanwhile. */
  lemma {:induction false} KeepsProcessor(k: Sched, cs: seq<Call>, k': Sched)
    requires Good(k) && Holds(k) && Reaches(k, cs, k') && NeverForced(k, cs)
    ensures Good(k') && Holds(k') && k'.current == k.current
    decreases |cs|
  {
    if cs != [] {
      hide Good, Holds, Legal, Perform, Forced, CacheReady, Same, Cached;
      HeldIsReady(k);
      PerformKeeps(k, cs[0]);
      HoldsOn(k, cs[0]);
      KeepsProcessor(Perform(k, cs[0]), cs[1..], k');
    }
  }

  lemma {:induction false} HeldIsReady(k: Sched)
    requires Holds(k)
    ensures CacheReady(k)
  {
  }

  /** A thread that locks the scheduler while it runs holds the processor from then on. */
  lemma {:induction false} LockHolds(k: Sched)
    requires Good(k) && k.current != IDLE && k.cache == k.current && Ready(k.threads[k.current])
    ensures Holds(SchedLock(k))
  {
  }

  /** ... and a thread that may be preempted does not hold it: when a better one is ready, that
      one is to run next. */
  lemma {:induction false} PreemptibleGivesWay(k: Sched, cs: seq<Call>, k': Sched)
    requires Good(k) && Cached(k) && Reaches(k, cs, k') && forall i :: 0 <= i < |cs| ==> !cs[i].CallDeadline?
    ensures Good(k') && k'.current < |k'.threads|
    ensures Preemptible(k'.threads[k'.current]) || !Ready(k'.threads[k'.current]) ==> k'.cache == Best(k')
  {
    hide Good;
    CacheInEveryRun(k, cs, k');
  }

  // ---- what suspending another thread does -------------------------------------------------------

  /** Suspending another thread refreshes the cache regardless: a thread that may not be
      preempted holds the processor through it exactly if no other thread is ahead of it in
      the run queue. */
  lemma {:induction false} SuspendHoldsIff(k: Sched, t: Tid)
    requires Good(k) && Holds(k) && 0 < t < |k.threads| && t != k.current && !k.threads[t].suspended
    requires k.current != IDLE
    ensures Holds(Suspend(k, t)) <==>
      k.runq != [] && (k.runq[0] == k.current || (|k.runq| > 1 && k.runq[0] == t && k.runq[1] == k.current))
  {
    var q := k.runq;
    assert k.current in q && Distinct(q);
    SuspendRunq(k, t);
    hide Good;
    FirstOfRest(q, t, k.current);
  }

  lemma {:induction false} FirstOfRest(q: seq<Tid>, t: Tid, c: Tid)
    requires Distinct(q) && c in q && c != t
    ensures var r := Remove(q, t);
      r != [] && (r[0] == c <==> q[0] == c || (|q| > 1 && q[0] == t && q[1] == c))
  {
    RemoveIn(q, t);
    assert c in Remove(q, t);
  }

  lemma {:induction false} SuspendRunq(k: Sched, t: Tid)
    requires Good(k) && Holds(k) && 0 < t < |k.threads| && t != k.current && !k.threads[t].suspended
    ensures var k' := Suspend(k, t);
      && k'.runq == Remove(k.runq, t) && k'.cache == Best(k') && k'.current == k.current
      && k'.threads[k.current] == k.threads[k.current]
  {
    assert k.threads[t].queued <==> t in k.runq;
    hide Good;
    assert t !in k.runq ==> Remove(k.runq, t) == k.runq;
  }

  /** Thread 1 is cooperative and runs; thread 2, cooperative and higher, is ready; so is
      thread 3. */
  function Cooperative(): Sched {
    var idle := Thread(Rank(15, 0, 0), 0, false, false, false, false, false, false, NoQueue);
    var x := idle.(rank := Rank(-1, 0, 1), queued := true);
    Sched([idle, x, x.(rank := Rank(-2, 0, 2)), x.(rank := Rank(0, 0, 3))], [2, 1, 3], map[], 1, 1, 4, true)
  }

  lemma {:induction false} CooperativeGood()
    ensures Good(Cooperative()) && Holds(Cooperative())
  {
    CooperativeQueues();
    hide RunOk, WaitOk;
  }

  lemma {:induction false} CooperativeQueues()
    ensures RunOk(Cooperative()) && WaitOk(Cooperative())
  {
    hide RunOk, WaitOk, Cooperative;
    CooperativeRun();
    CooperativeWait();
  }

  lemma {:induction false} CooperativeRun()
    ensures RunOk(Cooperative())
  {
    var k := Cooperative();
    var rs := [Rank(-2, 0, 2), Rank(-1, 0, 1), Rank(0, 0, 3)];
    assert Ranks(k, k.runq) == rs;
    assert Sorted(rs);
    hide Sorted, Ranks;
    assert k.runq[0] == 2 && k.runq[1] == 1 && k.runq[2] == 3;
  }

  lemma {:induction false} CooperativeWait()
    ensures WaitOk(Cooperative())
  {
    assert forall w :: Queue(Cooperative(), w) == [];
  }

  /** So a cooperative thread that suspends a third one can lose the processor to a higher one
      that it could have kept waiting. */
  lemma {:induction false} SuspendPreempts()
    ensures var k := Cooperative();
      Good(k) && Holds(k) && Legal(k, CallSuspend(3)) && Perform(k, CallSuspend(3)).cache == 2
  {
    CooperativeGood();
    var k := Cooperative();
    assert Index([2, 1, 3], 3) == 2;
    assert Suspend(k, 3).runq == [2, 1];
  }
}
