/** The order of a wait queue (sched.c): threads join it by priority and deadline, behind their
    equals, and the thread woken first is one that no other in the queue beats. */
module SchedLines {
  import opened Rings
  import opened RunQueues
  import opened SchedState
  import opened SchedSteps
  import opened SchedEffects

  /** What decides a thread's place in a wait queue. */
  function Plain(k: Sched, t: Tid): Rank {
    RankOf(k, t).(arrival := 0)
  }

  function Line(k: Sched, q: seq<Tid>): (r: seq<Rank>)
    ensures |r| == |q|
  {
    seq(|q|, i requires 0 <= i < |q| => Plain(k, q[i]))
  }

  /** In every wait queue, nobody stands behind one it beats. */
  ghost predicate WaitsInLine(k: Sched) {
    forall w :: InLine(Line(k, Queue(k, w)))
  }

  /** With rank `r`, thread `t` fits where it waits. */
  ghost predicate FitsIn(k: Sched, t: Tid, r: Rank) {
    forall w, i :: 0 <= i < |Queue(k, w)| && Queue(k, w)[i] == t ==>
      FitsAt(Line(k, Queue(k, w)), i, r.(arrival := 0))
  }

  /** Threads only join a queue whose deadlines are within half the 32-bit range of theirs, and
      a waiting thread's priority and deadline change only so far that it fits where it waits. */
  ghost predicate InTurn(k: Sched, c: Call)
    requires Legal(k, c)
  {
    match c
    case CallPend(w, _) => w != NoQueue ==> NearTo(Line(k, Queue(k, w)), Plain(k, k.current))
    case CallJoin(t, noWait, _) =>
      JoinWaits(k, t, noWait) ==> NearTo(Line(k, Queue(k, Join(t))), Plain(k, k.current))
    case CallPrioSet(t, prio) => FitsIn(k, t, k.threads[t].rank.(prio := prio))
    case CallDeadline(t, d) => FitsIn(k, t, k.threads[t].rank.(deadline := d))
    case _ => true
  }

  // ---- each call keeps the queues in line ---------------------------------------------------------

  lemma {:induction false} SameLine(k: Sched, k': Sched, q: seq<Tid>)
    requires |k'.threads| == |k.threads|
    requires forall u :: 0 <= u < |k.threads| ==> Bits(k'.threads[u]).rank == Bits(k.threads[u]).rank
    ensures Line(k', q) == Line(k, q)
  {
    forall u: Tid ensures Plain(k', u) == Plain(k, u) {
      if u < |k.threads| {
        assert Bits(k'.threads[u]).rank == Bits(k.threads[u]).rank;
      }
    }
  }

  /** Ranks stay, and threads only leave queues. */
  lemma {:induction false} LeavingKeeps(k: Sched, k': Sched, t: Tid)
    requires WaitsInLine(k) && |k'.threads| == |k.threads|
    requires forall u :: 0 <= u < |k.threads| ==> Bits(k'.threads[u]).rank == Bits(k.threads[u]).rank
    requires forall w :: Queue(k', w) == Queue(k, w) || Queue(k', w) == Remove(Queue(k, w), t) || Queue(k', w) == []
    ensures WaitsInLine(k')
  {
    hide Bits;
    forall w ensures InLine(Line(k', Queue(k', w))) {
      SameLine(k, k', Queue(k', w));
      hide Line, Queue, Remove, InLine;
      assert InLine(Line(k, Queue(k, w)));
      NobodyInLine(k);
      RemoveLine(k, Queue(k, w), t);
    }
  }

  lemma {:induction false} NobodyInLine(k: Sched)
    ensures InLine(Line(k, []))
  {
  }

  lemma {:induction false} RemoveLine(k: Sched, q: seq<Tid>, t: Tid)
    requires InLine(Line(k, q))
    ensures InLine(Line(k, Remove(q, t)))
  {
    var p, d := Index(q, t), Remove(q, t);
    if p < |q| {
      assert forall i :: 0 <= i < |d| ==> d[i] == q[if i < p then i else i + 1];
      hide InLine, Remove, Index;
      CutInLine(Line(k, q), p);
      assert Line(k, d) == Line(k, q)[..p] + Line(k, q)[p + 1..];
    }
  }

  lemma {:induction false} FreeKeeps(k: Sched, k': Sched, t: Tid, th: Thread)
    requires WaitsInLine(k) && t < |k.threads| && th.rank == k.threads[t].rank
    requires Becomes(k, k', t, th) || BecomesFree(k, k', t, th)
    ensures WaitsInLine(k')
  {
    hide WaitsInLine, Remove, Ready;
    assert forall u :: 0 <= u < |k.threads| ==> Bits(k'.threads[u]).rank == Bits(k.threads[u]).rank;
    if k'.waitqs == k.waitqs {
      SameQueues(k, k');
    }
    LeavingKeeps(k, k', t);
  }

  /** A thread with another rank: the queues stay in line exactly if it fits where it waits. */
  lemma {:induction false} ChangeIff(k: Sched, k': Sched, t: Tid, th: Thread)
    requires WaitsInLine(k) && t < |k.threads| && Becomes(k, k', t, th) && forall w :: Distinct(Queue(k, w))
    ensures WaitsInLine(k') <==> FitsIn(k, t, th.rank)
  {
    SameQueues(k, k');
    hide WaitsInLine, FitsIn, Queue, Ready;
    forall w ensures InLine(Line(k', Queue(k', w))) <==> FitsWhere(k, Queue(k, w), t, th.rank) {
      LineIff(k, k', Queue(k, w), t, th);
    }
    WaitsIffFits(k, k', t, th.rank);
  }

  ghost predicate FitsWhere(k: Sched, q: seq<Tid>, t: Tid, r: Rank) {
    forall i :: 0 <= i < |q| && q[i] == t ==> FitsAt(Line(k, q), i, r.(arrival := 0))
  }

  lemma {:induction false} WaitsIffFits(k: Sched, k': Sched, t: Tid, r: Rank)
    requires forall w :: InLine(Line(k', Queue(k', w))) <==> FitsWhere(k, Queue(k, w), t, r)
    ensures WaitsInLine(k') <==> FitsIn(k, t, r)
  {
    hide InLine, Line, Queue, FitsAt;
    if FitsIn(k, t, r) {
      forall w ensures InLine(Line(k', Queue(k', w))) {
        assert FitsWhere(k, Queue(k, w), t, r);
      }
    }
    if WaitsInLine(k') {
      forall w, i | 0 <= i < |Queue(k, w)| && Queue(k, w)[i] == t
        ensures FitsAt(Line(k, Queue(k, w)), i, r.(arrival := 0))
      {
        assert InLine(Line(k', Queue(k', w)));
        assert FitsWhere(k, Queue(k, w), t, r);
      }
    }
  }

  lemma {:induction false} LineIff(k: Sched, k': Sched, q: seq<Tid>, t: Tid, th: Thread)
    requires WaitsInLine(k) && InLine(Line(k, q)) && t < |k.threads| && Becomes(k, k', t, th) && Distinct(q)
    ensures InLine(Line(k', q)) <==> FitsWhere(k, q, t, th.rank)
  {
    hide InLine, FitsAt, Ready, WaitsInLine;
    var r := th.rank.(arrival := 0);
    assert forall u :: Plain(k', u) == if u == t then r else Plain(k, u) by { PlainAfter(k, k', t, th); }
    hide Plain;
    if t in q {
      var i :| 0 <= i < |q| && q[i] == t;
      assert Line(k', q) == Line(k, q)[i := r];
      ChangeInLineIff(Line(k, q), i, r);
    } else {
      assert Line(k', q) == Line(k, q);
    }
  }

  lemma {:induction false} PlainAfter(k: Sched, k': Sched, t: Tid, th: Thread)
    requires t < |k.threads| && Becomes(k, k', t, th)
    ensures forall u :: Plain(k', u) == if u == t then th.rank.(arrival := 0) else Plain(k, u)
  {
    assert Bits(k'.threads[t]).rank == Bits(th).rank;
  }

  /** A thread joins the queue it is near to. */
  lemma {:induction false} PendKeepsLine(k: Sched, w: WaitQ, timed: bool)
    requires Good(k) && MayBlock(k) && WaitsInLine(k)
    requires w != NoQueue ==> NearTo(Line(k, Queue(k, w)), Plain(k, k.current))
    ensures WaitsInLine(PendCurrent(k, w, timed))
  {
    var k' := PendCurrent(k, w, timed);
    PendDoes(k, w, timed);
    hide Good, PendCurrent, BehindEquals, Line, InLine, NearTo, Remove, Plain;
    forall v ensures InLine(Line(k', Queue(k', v))) {
      assert InLine(Line(k, Queue(k, v)));
      SameLine(k, k', Queue(k', v));
      if w == NoQueue {
        SameQueues(k, k');
      } else if v == w {
        JoinsLine(k, Queue(k, w), k.current, Queue(k', w));
      }
    }
  }

  lemma {:induction false} JoinsLine(k: Sched, q: seq<Tid>, t: Tid, q': seq<Tid>)
    requires InLine(Line(k, q)) && NearTo(Line(k, q), Plain(k, t))
    requires exists p :: 0 <= p <= |q| && BehindEquals(k, q, t, q', p)
    ensures InLine(Line(k, q'))
  {
    hide PrioCmp, InLine, NearTo, Plain;
    var p :| 0 <= p <= |q| && BehindEquals(k, q, t, q', p);
    var l, r := Line(k, q), Plain(k, t);
    forall i | 0 <= i < |q| ensures PrioCmp(r, l[i]) == PrioCmp(RankOf(k, t), RankOf(k, q[i])) {
      CmpPlain(k, t, q[i]);
    }
    hide RankOf;
    PlaceInLine(l, r, p);
    assert Line(k, q') == l[..p] + [r] + l[p..];
  }

  lemma {:induction false} CmpPlain(k: Sched, t: Tid, u: Tid)
    ensures PrioCmp(Plain(k, t), Plain(k, u)) == PrioCmp(RankOf(k, t), RankOf(k, u))
  {
  }

  lemma {:induction false} AbortKeepsLine(k: Sched, t: Tid)
    requires Good(k) && 0 < t < |k.threads| && WaitsInLine(k)
    ensures WaitsInLine(AbortThread(k, t))
  {
    AbortDoes(k, t);
    GoodIsAlmost(k, t);
    hide Good, WaitsInLine, AbortThread, Remove, Queue;
    if !k.threads[t].dead {
      var k' := AbortThread(k, t);
      forall u | 0 <= u < |k.threads| ensures Bits(k'.threads[u]).rank == Bits(k.threads[u]).rank {
        var th := if u in Queue(k, Join(t)) then Woken(k.threads[u]) else k.threads[u];
        assert u != t ==> Bits(k'.threads[u]) == Bits(th);
      }
      hide Bits, Woken;
      LeavingKeeps(k, k', t);
    }
  }

  lemma {:induction false} QueuesDistinct(k: Sched)
    requires Good(k)
    ensures forall w :: Distinct(Queue(k, w))
  {
  }

  /** The calls that change one thread and no rank. */
  lemma {:induction false} OneThreadKeepsLine(k: Sched, c: Call)
    requires Good(k) && Legal(k, c) && WaitsInLine(k)
    requires c.CallStart? || c.CallWake? || c.CallTimeout? || c.CallSuspend? || c.CallResume? || c.CallWakeup?
    ensures WaitsInLine(Perform(k, c))
  {
    hide Good, WaitsInLine, StartThread, WakeThread, TimeoutFires, Suspend, Resume, Wakeup, Becomes, BecomesFree;
    var t, k' := c.t, Perform(k, c);
    var th := k.threads[t];
    match c
    case CallStart(_) =>
      StartDoes(k, t);
      if th.prestart { FreeKeeps(k, k', t, th.(prestart := false)); }
    case CallWake(_) =>
      WakeDoes(k, t);
      FreeKeeps(k, k', t, Woken(th));
    case CallTimeout(_) =>
      TimeoutDoes(k, t);
      if th.timeout {
        var awake := Woken(th).(prestart := false, suspended := false);
        FreeKeeps(k, k', t, if th.dead then th.(timeout := false) else awake);
      }
    case CallSuspend(_) =>
      SuspendDoes(k, t);
      FreeKeeps(k, k', t, th.(suspended := true, timeout := false));
    case CallResume(_) =>
      ResumeDoes(k, t);
      if th.suspended { FreeKeeps(k, k', t, th.(suspended := false)); }
    case CallWakeup(_) =>
      WakeupDoes(k, t);
      if k' != k { FreeKeeps(k, k', t, th.(timeout := false, suspended := false)); }
  }

  lemma {:induction false} OtherKeepsLine(k: Sched, c: Call)
    requires Good(k) && Legal(k, c) && WaitsInLine(k)
    requires
      || c.CallWakeFirst? || c.CallSleep? || c.CallYield? || c.CallMoveToEnd? || c.CallLock? || c.CallUnlock?
      || c.CallSwitch?
    ensures WaitsInLine(Perform(k, c))
  {
    hide Good, WaitsInLine, WakeFirst, Sleep, Yield, MoveToEnd, SchedLock, SchedUnlock, Becomes, BecomesFree, Remove;
    var k' := Perform(k, c);
    match c
    case CallWakeFirst(w) =>
      WakeFirstDoes(k, w);
      if Queue(k, w) != [] { FreeKeeps(k, k', Queue(k, w)[0], Woken(k.threads[Queue(k, w)[0]])); }
    case CallSleep =>
      SleepDoes(k);
      SameQueues(k, k');
      LeavingKeeps(k, k', 0);
    case CallYield =>
      YieldDoes(k);
      SameQueues(k, k');
      LeavingKeeps(k, k', 0);
    case CallMoveToEnd(t) =>
      MoveToEndDoes(k, t);
      FreeKeeps(k, k', t, k.threads[t]);
    case CallLock =>
      LocksDo(k);
      FreeKeeps(k, k', k.current, k.threads[k.current].(locked := k.threads[k.current].locked + 1));
    case CallUnlock =>
      LocksDo(k);
      FreeKeeps(k, k', k.current, k.threads[k.current].(locked := k.threads[k.current].locked - 1));
    case CallSwitch =>
      SameQueues(k, k');
      LeavingKeeps(k, k', 0);
  }

  lemma {:induction false} PerformKeepsLine(k: Sched, c: Call)
    requires Good(k) && Legal(k, c) && WaitsInLine(k) && InTurn(k, c)
    ensures WaitsInLine(Perform(k, c))
  {
    hide Good, WaitsInLine, PendCurrent, AbortThread, PrioSet, DeadlineSet, NearTo, FitsIn, Becomes;
    match c
    case CallPend(w, timed) => PendKeepsLine(k, w, timed);
    case CallJoin(t, noWait, timed) =>
      if JoinWaits(k, t, noWait) { PendKeepsLine(k, Join(t), timed); }
    case CallPrioSet(t, prio) =>
      PrioSetDoes(k, t, prio);
      QueuesDistinct(k);
      ChangeIff(k, PrioSet(k, t, prio), t, k.threads[t].(rank := k.threads[t].rank.(prio := prio)));
    case CallDeadline(t, d) =>
      DeadlineDoes(k, t, d);
      QueuesDistinct(k);
      ChangeIff(k, DeadlineSet(k, t, d), t, k.threads[t].(rank := k.threads[t].rank.(deadline := d)));
    case CallAbort(t) => AbortKeepsLine(k, t);
    case _ =>
      if c.CallStart? || c.CallWake? || c.CallTimeout? || c.CallSuspend? || c.CallResume? || c.CallWakeup? {
        OneThreadKeepsLine(k, c);
      } else {
        OtherKeepsLine(k, c);
      }
  }

  /** A change of priority keeps every wait queue in line if and only if the thread fits where it
      waits; z_thread_prio_set does not move it. */
  lemma {:induction false} PrioLineIff(k: Sched, t: Tid, prio: int)
    requires Good(k) && 0 < t < |k.threads| && WaitsInLine(k)
    ensures WaitsInLine(PrioSet(k, t, prio)) <==> FitsIn(k, t, k.threads[t].rank.(prio := prio))
  {
    GoodIsAlmost(k, t);
    hide Good, WaitsInLine, PrioSet, FitsIn, Becomes;
    PrioSetDoes(k, t, prio);
    QueuesDistinct(k);
    ChangeIff(k, PrioSet(k, t, prio), t, k.threads[t].(rank := k.threads[t].rank.(prio := prio)));
  }

  ghost predicate AllInTurn(k: Sched, cs: seq<Call>)
    decreases |cs|
  {
    cs == [] || (Legal(k, cs[0]) ==> InTurn(k, cs[0]) && AllInTurn(Perform(k, cs[0]), cs[1..]))
  }

  /** In every run all of whose calls are in turn, the thread that is woken first is one that no
      other thread in its wait queue beats. */
  lemma {:induction false} FirstIsBest(k: Sched, cs: seq<Call>, k': Sched)
    requires Good(k) && CacheReady(k) && WaitsInLine(k) && Reaches(k, cs, k') && AllInTurn(k, cs)
    ensures Good(k') && WaitsInLine(k')
    ensures forall w, j :: 0 < j < |Queue(k', w)| ==>
        PrioCmp(RankOf(k', Queue(k', w)[0]), RankOf(k', Queue(k', w)[j])) >= 0
    decreases |cs|
  {
    if cs == [] {
      forall w, j | 0 < j < |Queue(k, w)|
        ensures PrioCmp(RankOf(k, Queue(k, w)[0]), RankOf(k, Queue(k, w)[j])) >= 0
      {
        var l := Line(k, Queue(k, w));
        assert InLine(l) && PrioCmp(l[0], l[j]) >= 0;
      }
    } else {
      hide Good, WaitsInLine, Legal, Perform, InTurn, CacheReady, Same;
      PerformKeeps(k, cs[0]);
      PerformKeepsLine(k, cs[0]);
      FirstIsBest(Perform(k, cs[0]), cs[1..], k');
    }
  }
}
