/** What mutex.c promises over whole runs: nested use gives priorities back, and a single
    mutex lends its owner exactly the priority of the best waiter. */
module MutexRuns {
  import opened Rings
  import opened SchedState
  import opened Mutexes

  // ---- any number of mutexes, released in reverse order ---------------------------------------------

  /** `t` lets go of mutex `m` for good with this call. */
  predicate LastUnlock(w: World, e: Event) {
    e.UnlockCall? && Known(w, e.t, e.m) && w.mutexes[e.m].owner == By(e.t) && w.mutexes[e.m].count <= 1
  }

  /** The order mutex.c asks for: the mutex let go last is the one got last. */
  ghost predicate Nested(w: World, e: Event) {
    LastUnlock(w, e) ==> w.held[e.t] != [] && w.held[e.t][|w.held[e.t]| - 1] == e.m
  }

  /** What is enough: the mutex got first is let go last, or the one got second was got at the
      same priority. */
  ghost predicate GivesBack(w: World, t: Tid, m: Mid)
    requires Known(w, t, m)
  {
    var h := w.held[t];
    h == [] || m != h[0] || |h| == 1 || (h[1] < |w.mutexes| && w.mutexes[h[1]].orig == w.mutexes[m].orig)
  }

  ghost predicate Returning(w: World, e: Event) {
    LastUnlock(w, e) ==> GivesBack(w, e.t, e.m)
  }

  /** A thread without mutexes has its base priority; otherwise its first mutex keeps it. */
  ghost predicate BaseOf(w: World, t: Tid, base: int)
    requires t < |w.prio| && t < |w.held|
  {
    if w.held[t] == [] then w.prio[t] == base
    else w.held[t][0] < |w.mutexes| && w.mutexes[w.held[t][0]].orig == base
  }

  ghost predicate Based(w: World, base: seq<int>) {
    && Sizes(w) && |base| == |w.prio|
    && forall t :: 0 <= t < |w.prio| ==> BaseOf(w, t, base[t])
  }

  /** What a thread came to own first stays where it is while others change hands. */
  lemma {:induction false} FirstIsOwn(w: World, t: Tid)
    requires Ok(w) && t < |w.held| && w.held[t] != []
    ensures var f := w.held[t][0]; f < |w.mutexes| && w.mutexes[f].owner == By(t)
  {
    assert HeldOk(w, t);
    assert w.held[t][0] in w.held[t];
  }

  lemma {:induction false} OwnersHold(w: World, m: Mid)
    requires Ok(w) && m < |w.mutexes| && w.mutexes[m].owner.By?
    ensures w.mutexes[m].owner.t < |w.held| && m in w.held[w.mutexes[m].owner.t]
  {
    assert OwnerOk(w, m);
    assert HeldOk(w, w.mutexes[m].owner.t);
  }

  lemma {:induction false} TakeBased(w: World, t: Tid, m: Mid, base: seq<int>)
    requires Ok(w) && Based(w, base) && Known(w, t, m)
    requires w.mutexes[m].count == 0 || w.mutexes[m].owner == By(t)
    ensures Based(Take(w, t, m), base)
  {
    var w' := Take(w, t, m);
    assert OwnerOk(w, m);
    forall u | 0 <= u < |w.prio| ensures BaseOf(w', u, base[u]) {
      assert BaseOf(w, u, base[u]);
      if w.held[u] != [] {
        FirstIsOwn(w, u);
      }
    }
  }

  /** Only an owner's priority moves while it waits, and no first mutex is touched. */
  lemma {:induction false} OwnerMoves(w: World, w': World, m: Mid, base: seq<int>)
    requires Ok(w) && Based(w, base) && m < |w.mutexes| == |w'.mutexes| && Sizes(w')
    requires w.mutexes[m].owner.By? && w'.held == w.held
    requires forall u :: 0 <= u < |w.prio| && By(u) != w.mutexes[m].owner ==> w'.prio[u] == w.prio[u]
    requires forall n :: 0 <= n < |w.mutexes| ==> w'.mutexes[n].orig == w.mutexes[n].orig
    ensures Based(w', base)
  {
    OwnersHold(w, m);
    forall u | 0 <= u < |w.prio| ensures BaseOf(w', u, base[u]) {
      assert BaseOf(w, u, base[u]);
    }
  }

  lemma {:induction false} RemoveLast(s: seq<nat>, x: nat)
    requires s != [] && Distinct(s) && s[|s| - 1] == x
    ensures Remove(s, x) == s[..|s| - 1]
  {
    assert Index(s, x) == |s| - 1;
  }

  /** Letting go of another than the first keeps the first in front. */
  lemma {:induction false} RemoveFront(s: seq<nat>, x: nat)
    requires s != [] && Distinct(s) && x in s
    ensures x == s[0] ==> Remove(s, x) == s[1..]
    ensures x != s[0] ==> Remove(s, x) != [] && Remove(s, x)[0] == s[0]
  {
  }

  /** The thread that releases keeps its base priority in reach if and only if it gives
      back. */
  lemma {:induction false} ReleaseBaseIff(w: World, t: Tid, m: Mid, base: int)
    requires Ok(w) && Known(w, t, m) && w.mutexes[m].owner == By(t) && BaseOf(w, t, base)
    ensures Known(Release(w, t, m), t, m) && (BaseOf(Release(w, t, m), t, base) <==> GivesBack(w, t, m))
  {
    var w', x, h := Release(w, t, m), w.mutexes[m], w.held[t];
    assert HeldOk(w, t) && OwnerOk(w, m) && QueueOk(w, m);
    OwnersHold(w, m);
    RemoveFront(h, m);
    assert x.queue != [] ==> x.queue[0] in x.queue;
    assert |h| > 1 ==> h[1] in h && h[1] != h[0] && h[1] < |w.mutexes|;
    FirstIsOwn(w, t);
    hide Remove, QueueOk, OwnerOk, HeldOk, Ok;
    assert w'.held[t] == Remove(h, m);
  }

  lemma {:induction false} ReleaseBased(w: World, t: Tid, m: Mid, base: seq<int>)
    requires Ok(w) && Based(w, base) && Known(w, t, m) && w.mutexes[m].owner == By(t) && GivesBack(w, t, m)
    ensures Based(Release(w, t, m), base)
  {
    var w', x := Release(w, t, m), w.mutexes[m];
    assert OwnerOk(w, m) && QueueOk(w, m);
    assert x.queue != [] ==> x.queue[0] in x.queue;
    hide Remove, QueueOk, OwnerOk, GivesBack;
    forall u | 0 <= u < |w.prio| ensures BaseOf(w', u, base[u]) {
      assert BaseOf(w, u, base[u]);
      if u == t {
        ReleaseBaseIff(w, t, m, base[t]);
      } else if w.held[u] != [] {
        FirstIsOwn(w, u);
      }
    }
  }

  lemma {:induction false} NextBased(w: World, e: Event, base: seq<int>)
    requires Ok(w) && Based(w, base) && Legal(w, e) && Returning(w, e)
    ensures Based(Next(w, e), base)
  {
    match e
    case LockCall(t, m, noWait) => {
      assert OwnerOk(w, m);
      hide Ok, Based, Seat, Raised;
      var x := w.mutexes[m];
      if x.count == 0 || x.owner == By(t) {
        TakeBased(w, t, m, base);
      } else if !noWait {
        OwnerMoves(w, Wait(w, t, m), m, base);
      }
    }
    case TimedOut(t) => {
      hide Ok, Remove;
      assert forall u :: 0 <= u < |w.prio| ==> BaseOf(w, u, base[u]) ==> BaseOf(Next(w, e), u, base[u]);
    }
    case GivesUp(t) => {
      var m := w.doing[t].m;
      assert OwnerOk(w, m);
      hide Ok, Lowered;
      if w.mutexes[m].owner.By? {
        OwnerMoves(w, Next(w, e), m, base);
      } else {
        assert forall u :: 0 <= u < |w.prio| ==> BaseOf(w, u, base[u]) ==> BaseOf(Next(w, e), u, base[u]);
      }
    }
    case UnlockCall(t, m) => {
      var x := w.mutexes[m];
      assert OwnerOk(w, m);
      if x.owner == By(t) {
        if x.count > 1 {
          hide Ok, Release;
          OwnerMoves(w, Unlock(w, t, m), m, base);
        } else {
          hide Ok, Release, Based, GivesBack;
          ReleaseBased(w, t, m, base);
        }
      }
    }
  }

  ghost predicate AllReturning(w: World, es: seq<Event>)
    decreases |es|
  {
    es == [] || (Returning(w, es[0]) && (Legal(w, es[0]) ==> AllReturning(Next(w, es[0]), es[1..])))
  }

  /** In every run, over any number of mutexes, in which every release gives back, a thread
      that owns no mutex has the priority it started with. */
  lemma {:induction false} PrioritiesReturn(w: World, es: seq<Event>, w': World, t: Tid)
    requires Fresh(w) && Reaches(w, es, w') && AllReturning(w, es) && t < |w.prio|
    requires forall m :: 0 <= m < |w'.mutexes| ==> w'.mutexes[m].owner != By(t)
    ensures t < |w'.prio| && w'.prio[t] == w.prio[t]
  {
    FreshOk(w);
    StaysBased(w, es, w', w.prio);
    assert HeldOk(w', t);
    HasFirst(w'.held[t]);
    assert BaseOf(w', t, w.prio[t]);
  }

  lemma {:induction false} HasFirst(s: seq<Mid>)
    ensures s != [] ==> exists m :: m in s
  {
    if s != [] {
      assert s[0] in s;
    }
  }

  /** Every release in the run is nested. */
  ghost predicate AllNested(w: World, es: seq<Event>)
    decreases |es|
  {
    es == [] || (Nested(w, es[0]) && (Legal(w, es[0]) ==> AllNested(Next(w, es[0]), es[1..])))
  }

  /** Nested releases give back. */
  lemma {:induction false} NestedReturns(w: World, es: seq<Event>, w': World)
    requires Ok(w) && Reaches(w, es, w') && AllNested(w, es)
    ensures AllReturning(w, es)
    decreases |es|
  {
    if es != [] {
      var e := es[0];
      if LastUnlock(w, e) {
        assert HeldOk(w, e.t);
      }
      assert Returning(w, e);
      hide Ok, Next, Legal, Nested, Returning;
      NextKeeps(w, e);
      NestedReturns(Next(w, e), es[1..], w');
    }
  }

  /** Nested use of any number of mutexes gives priorities back: a thread that owns none
      has the priority it started with. */
  lemma {:induction false} NestedRestores(w: World, es: seq<Event>, w': World, t: Tid)
    requires Fresh(w) && Reaches(w, es, w') && AllNested(w, es) && t < |w.prio|
    requires forall m :: 0 <= m < |w'.mutexes| ==> w'.mutexes[m].owner != By(t)
    ensures t < |w'.prio| && w'.prio[t] == w.prio[t]
  {
    hide Fresh, Reaches, AllNested, AllReturning, Ok, Based;
    FreshOk(w);
    NestedReturns(w, es, w');
    PrioritiesReturn(w, es, w', t);
  }

  lemma {:induction false} FreshOk(w: World)
    requires Fresh(w)
    ensures Ok(w) && Based(w, w.prio)
  {
  }

  lemma {:induction false} StaysBased(w: World, es: seq<Event>, w': World, base: seq<int>)
    requires Ok(w) && Based(w, base) && Reaches(w, es, w') && AllReturning(w, es)
    ensures Ok(w') && Based(w', base)
    decreases |es|
  {
    if es != [] {
      hide Ok, Based, Next, Legal, Returning;
      NextKeeps(w, es[0]);
      NextBased(w, es[0], base);
      StaysBased(Next(w, es[0]), es[1..], w', base);
    }
  }

  /** In every run, nested or not, a mutex has waiters only while it is locked and owned,
      and each thread waits for at most one mutex, once. */
  lemma {:induction false} EveryRun(w: World, es: seq<Event>, w': World)
    requires Ok(w) && Reaches(w, es, w')
    ensures Ok(w')
    ensures forall m :: 0 <= m < |w'.mutexes| && w'.mutexes[m].queue != [] ==>
        w'.mutexes[m].count > 0 && w'.mutexes[m].owner.By?
    ensures forall m, n, t ::
        0 <= m < |w'.mutexes| && 0 <= n < |w'.mutexes| && t in w'.mutexes[m].queue && t in w'.mutexes[n].queue ==>
        m == n
    decreases |es|
  {
    if es == [] {
      WaitersAreOrderly(w);
    } else {
      hide Ok, Next, Legal;
      NextKeeps(w, es[0]);
      EveryRun(Next(w, es[0]), es[1..], w');
    }
  }

  lemma {:induction false} WaitersAreOrderly(w: World)
    requires Ok(w)
    ensures forall m :: 0 <= m < |w.mutexes| && w.mutexes[m].queue != [] ==>
        w.mutexes[m].count > 0 && w.mutexes[m].owner.By?
    ensures forall m, n, t ::
        0 <= m < |w.mutexes| && 0 <= n < |w.mutexes| && t in w.mutexes[m].queue && t in w.mutexes[n].queue ==>
        m == n
  {
    forall m | 0 <= m < |w.mutexes| && w.mutexes[m].queue != []
      ensures w.mutexes[m].count > 0 && w.mutexes[m].owner.By?
    {
      assert OwnerOk(w, m);
    }
    forall m, n, t | 0 <= m < |w.mutexes| && 0 <= n < |w.mutexes| && t in w.mutexes[m].queue && t in w.mutexes[n].queue
      ensures m == n
    {
      assert QueueOk(w, m) && QueueOk(w, n);
      assert w.doing[t] == Waiting(m) && w.doing[t] == Waiting(n);
    }
  }

  // ---- a single mutex ---------------------------------------------------------------------------

  ghost predicate InOrder(prio: seq<int>, q: seq<Tid>) {
    && (forall i :: 0 <= i < |q| ==> q[i] < |prio|)
    && forall i, j :: 0 <= i < j < |q| ==> prio[q[i]] <= prio[q[j]]
  }

  /** The owner is at least as high as every waiter, up to the ceiling. */
  ghost predicate Dominates(w: World)
    requires |w.mutexes| == 1
  {
    var x := w.mutexes[0];
    x.owner.By? && x.owner.t < |w.prio| ==>
      forall i :: 0 <= i < |x.queue| ==>
          x.queue[i] < |w.prio| && w.prio[x.owner.t] <= Capped(w.ceiling, w.prio[x.queue[i]])
  }

  ghost predicate Inherits(w: World) {
    Ok(w) && |w.mutexes| == 1 && InOrder(w.prio, w.mutexes[0].queue) && Dominates(w)
  }

  /** The higher of the owner's own priority and the first waiter's. */
  function Deserved(w: World, x: Mutex): int {
    if x.queue != [] && x.queue[0] < |w.prio| then Higher(x.orig, w.prio[x.queue[0]]) else x.orig
  }

  ghost predicate NoneLate(w: World) {
    forall t :: 0 <= t < |w.doing| ==> !w.doing[t].Late?
  }

  ghost predicate NoneAbove(w: World) {
    && (forall t :: 0 <= t < |w.prio| ==> w.prio[t] >= w.ceiling)
    && (forall m :: 0 <= m < |w.mutexes| && w.mutexes[m].owner.By? ==> w.mutexes[m].orig >= w.ceiling)
  }

  ghost predicate Exact(w: World)
    requires |w.mutexes| == 1
  {
    var x := w.mutexes[0];
    x.owner.By? && x.owner.t < |w.prio| ==> w.prio[x.owner.t] == Deserved(w, x)
  }

  lemma {:induction false} SeatSplits(prio: seq<int>, q: seq<Tid>, p: int)
    requires InOrder(prio, q)
    ensures var i := Seat(prio, q, p);
      && (forall j :: 0 <= j < i ==> prio[q[j]] <= p)
      && (forall j :: i <= j < |q| ==> p < prio[q[j]])
    decreases |q|
  {
    if q != [] && p >= prio[q[0]] {
      var i := Seat(prio, q[1..], p);
      SeatSplits(prio, q[1..], p);
      forall j | i + 1 <= j < |q| ensures p < prio[q[j]] {
        assert q[j] == q[1..][j - 1];
      }
      forall j | 0 <= j < i + 1 ensures prio[q[j]] <= p {
        assert j > 0 ==> q[j] == q[1..][j - 1];
      }
    }
  }

  lemma {:induction false} SeatInOrder(prio: seq<int>, q: seq<Tid>, t: Tid)
    requires InOrder(prio, q) && t < |prio|
    ensures var i := Seat(prio, q, prio[t]); InOrder(prio, q[..i] + [t] + q[i..])
  {
    var i := Seat(prio, q, prio[t]);
    SeatSplits(prio, q, prio[t]);
    hide Seat;
    var r := q[..i] + [t] + q[i..];
    assert forall j :: 0 <= j < |r| ==> r[j] == if j < i then q[j] else if j == i then t else q[j - 1];
    forall a, b | 0 <= a < b < |r| ensures prio[r[a]] <= prio[r[b]] {
      if b == i {
        assert prio[q[a]] <= prio[t];
      } else if a == i {
        assert prio[t] < prio[q[b - 1]];
      }
    }
  }

  lemma {:induction false} OrderElsewhere(prio: seq<int>, prio': seq<int>, q: seq<Tid>)
    requires InOrder(prio, q) && |prio'| == |prio|
    requires forall t :: t in q ==> t < |prio| && prio'[t] == prio[t]
    ensures InOrder(prio', q)
  {
    assert forall i :: 0 <= i < |q| ==> q[i] in q;
  }

  lemma {:induction false} WaitInherits(w: World, t: Tid)
    requires Inherits(w) && Known(w, t, 0) && w.doing[t] == Running && w.mutexes[0].count != 0 &&
        w.mutexes[0].owner != By(t)
    ensures OwnerOk(w, 0) && Inherits(Wait(w, t, 0))
  {
    WaitKeeps(w, t, 0);
    var w', x := Wait(w, t, 0), w.mutexes[0];
    assert QueueOk(w, 0);
    assert forall i :: 0 <= i < |x.queue| ==> x.queue[i] in x.queue;
    OrderElsewhere(w.prio, w'.prio, x.queue);
    SeatInOrder(w'.prio, x.queue, t);
    WaitDominates(w, t);
    hide Seat, Ok, InOrder, QueueOk, OwnerOk, Dominates;
  }

  lemma {:induction false} WaitDominates(w: World, t: Tid)
    requires |w.mutexes| == 1 && Dominates(w) && Known(w, t, 0)
    requires w.mutexes[0].owner.By? && w.mutexes[0].owner.t < |w.prio| && w.mutexes[0].owner.t != t
    requires forall i :: 0 <= i < |w.mutexes[0].queue| ==> w.mutexes[0].queue[i] != w.mutexes[0].owner.t
    ensures Dominates(Wait(w, t, 0))
  {
    var w', x := Wait(w, t, 0), w.mutexes[0];
    var o, q, i := x.owner.t, w'.mutexes[0].queue, Seat(w'.prio, x.queue, w'.prio[t]);
    hide Seat;
    assert w'.prio[o] <= w.prio[o] && w'.prio[o] <= Capped(w.ceiling, w.prio[t]);
    hide Raised, Capped;
    forall j | 0 <= j < |q| ensures q[j] < |w'.prio| && w'.prio[o] <= Capped(w.ceiling, w'.prio[q[j]]) {
      assert q[j] == if j < i then x.queue[j] else if j == i then t else x.queue[j - 1];
    }
  }

  lemma {:induction false} TimeOutInherits(w: World, t: Tid)
    requires Inherits(w) && Known(w, t, 0) && w.doing[t] == Waiting(0)
    ensures Inherits(TimeOut(w, t, 0))
  {
    TimeOutKeeps(w, t, 0);
    var q, r := w.mutexes[0].queue, TimeOut(w, t, 0).mutexes[0].queue;
    var p := Index(q, t);
    assert forall i :: 0 <= i < |r| ==> r[i] == q[if p < |q| && i >= p then i + 1 else i];
    hide Ok, Remove;
  }

  lemma {:induction false} GiveUpInherits(w: World, t: Tid)
    requires Inherits(w) && Known(w, t, 0) && w.doing[t] == Late(0)
    ensures Inherits(GiveUp(w, t, 0))
  {
    var w', x := GiveUp(w, t, 0), w.mutexes[0];
    GiveUpKeeps(w, t, 0);
    assert QueueOk(w, 0) && OwnerOk(w, 0);
    OrderElsewhere(w.prio, w'.prio, x.queue);
    assert forall i :: 0 <= i < |x.queue| ==> x.queue[i] in x.queue;
    hide Ok, QueueOk, OwnerOk;
  }

  lemma {:induction false} UnlockInherits(w: World, t: Tid)
    requires Inherits(w) && Known(w, t, 0) && w.doing[t] == Running
    ensures Inherits(Unlock(w, t, 0))
  {
    var x := w.mutexes[0];
    UnlockKeeps(w, t, 0);
    assert OwnerOk(w, 0);
    if x.owner == By(t) && x.count <= 1 {
      HandedOver(w, t);
      ReleaseInherits(w, t);
      hide Ok, OwnerOk, InOrder, Dominates, Release;
    } else {
      hide Ok, OwnerOk, InOrder, Release;
    }
  }

  lemma {:induction false} ReleaseInherits(w: World, t: Tid)
    requires Inherits(w) && Known(w, t, 0) && w.mutexes[0].owner == By(t) && w.mutexes[0].count == 1
    ensures |Release(w, t, 0).mutexes| == 1
    ensures InOrder(Release(w, t, 0).prio, Release(w, t, 0).mutexes[0].queue) && Dominates(Release(w, t, 0))
  {
    var w', q := Release(w, t, 0), w.mutexes[0].queue;
    HandedOver(w, t);
    assert |w'.mutexes| == 1 && |w'.prio| == |w.prio|;
    hide Ok, Dominates, Release;
    OrderLater(w, w', q);
  }

  /** The new owner is the head of a queue in order. */
  lemma {:induction false} OrderLater(w: World, w': World, q: seq<Tid>)
    requires InOrder(w.prio, q) && |w'.prio| == |w.prio| && |w'.mutexes| == 1
    requires q == [] ==> w'.mutexes[0].owner == Nobody && w'.mutexes[0].queue == []
    requires q != [] ==> w'.mutexes[0].owner == By(q[0]) && w'.mutexes[0].queue == q[1..]
    requires forall i :: 0 <= i < |q| ==> w'.prio[q[0]] <= w'.prio[q[i]] == w.prio[q[i]]
    ensures InOrder(w'.prio, w'.mutexes[0].queue) && Dominates(w')
  {
    assert q != [] ==> forall i :: 0 <= i < |q| - 1 ==> q[1..][i] == q[i + 1];
  }

  lemma {:induction false} TakeInherits(w: World, t: Tid)
    requires Inherits(w) && Known(w, t, 0) && w.doing[t] == Running &&
        (w.mutexes[0].count == 0 || w.mutexes[0].owner == By(t))
    ensures Inherits(Take(w, t, 0))
  {
    TakeKeeps(w, t, 0);
    assert OwnerOk(w, 0);
    hide Ok, OwnerOk, InOrder;
  }

  lemma {:induction false} NextInherits(w: World, e: Event)
    requires Inherits(w) && Legal(w, e)
    ensures Inherits(Next(w, e))
  {
    hide Inherits, Take, Wait, TimeOut, GiveUp, Unlock;
    OneMutex(w);
    match e
    case LockCall(t, m, noWait) => {
      var x := w.mutexes[0];
      if x.count == 0 || x.owner == By(t) {
        TakeInherits(w, t);
      } else if !noWait {
        WaitInherits(w, t);
      }
    }
    case TimedOut(t) => TimeOutInherits(w, t);
    case GivesUp(t) => GiveUpInherits(w, t);
    case UnlockCall(t, m) => UnlockInherits(w, t);
  }

  lemma {:induction false} OneMutex(w: World)
    requires Inherits(w)
    ensures |w.mutexes| == 1 && OwnerOk(w, 0)
  {
  }

  /** In every run of one mutex the owner is at least as high as every waiter, up to the
      ceiling, and the queue is in priority order. */
  lemma {:induction false} SingleInherits(w: World, es: seq<Event>, w': World)
    requires Inherits(w) && Reaches(w, es, w')
    ensures Inherits(w')
    decreases |es|
  {
    if es != [] {
      hide Inherits, Next, Legal;
      NextInherits(w, es[0]);
      SingleInherits(Next(w, es[0]), es[1..], w');
    }
  }

  // ---- exactness -----------------------------------------------------------------------------------

  ghost predicate ExactUnlessLate(w: World) {
    Inherits(w) && NoneAbove(w) && (NoneLate(w) ==> Exact(w))
  }

  lemma {:induction false} WaitExact(w: World, t: Tid)
    requires ExactUnlessLate(w) && Known(w, t, 0) && w.doing[t] == Running && w.mutexes[0].count != 0 &&
        w.mutexes[0].owner != By(t)
    ensures OwnerOk(w, 0) && ExactUnlessLate(Wait(w, t, 0))
  {
    WaitInherits(w, t);
    var w', x := Wait(w, t, 0), w.mutexes[0];
    assert QueueOk(w, 0);
    var o := x.owner.t;
    OrderElsewhere(w.prio, w'.prio, x.queue);
    SeatSplits(w'.prio, x.queue, w'.prio[t]);
    assert x.queue != [] ==> x.queue[0] in x.queue;
    hide Seat, Inherits, QueueOk, OwnerOk;
    var q, i := w'.mutexes[0].queue, Seat(w'.prio, x.queue, w'.prio[t]);
    assert q[0] == if i == 0 then t else x.queue[0];
    if NoneLate(w') {
      forall u | 0 <= u < |w.doing| ensures !w.doing[u].Late? {
        assert u != t ==> w'.doing[u] == w.doing[u];
      }
    }
    assert w.prio[t] >= w.ceiling && w.prio[o] >= w.ceiling;
    assert w'.prio[o] == Higher(w.prio[t], w.prio[o]);
  }

  lemma {:induction false} TimeOutExact(w: World, t: Tid)
    requires ExactUnlessLate(w) && Known(w, t, 0) && w.doing[t] == Waiting(0)
    ensures ExactUnlessLate(TimeOut(w, t, 0))
  {
    var w' := TimeOut(w, t, 0);
    TimeOutInherits(w, t);
    hide Inherits, Remove;
    assert w'.doing[t].Late?;
  }

  lemma {:induction false} GiveUpExact(w: World, t: Tid)
    requires ExactUnlessLate(w) && Known(w, t, 0) && w.doing[t] == Late(0)
    ensures ExactUnlessLate(GiveUp(w, t, 0))
  {
    var w', x := GiveUp(w, t, 0), w.mutexes[0];
    GiveUpInherits(w, t);
    assert QueueOk(w, 0) && OwnerOk(w, 0);
    assert x.queue != [] ==> x.queue[0] in x.queue;
    hide Inherits, QueueOk, OwnerOk;
  }

  lemma {:induction false} UnlockExact(w: World, t: Tid)
    requires ExactUnlessLate(w) && Known(w, t, 0) && w.doing[t] == Running
    ensures ExactUnlessLate(Unlock(w, t, 0))
  {
    var w', x := Unlock(w, t, 0), w.mutexes[0];
    UnlockInherits(w, t);
    assert QueueOk(w, 0) && OwnerOk(w, 0);
    assert x.queue != [] ==> x.queue[0] in x.queue;
    if x.owner == By(t) {
      if x.count > 1 {
        hide Inherits, QueueOk, OwnerOk, Release;
        assert NoneLate(w') ==> NoneLate(w);
      } else {
        HandedOver(w, t);
        hide Inherits, QueueOk, OwnerOk, Remove;
      }
    }
  }

  /** The best waiter takes over, with its own priority, and no waiter left is higher. */
  lemma {:induction false} HandedOver(w: World, t: Tid)
    requires Inherits(w) && Known(w, t, 0) && w.mutexes[0].owner == By(t) && w.mutexes[0].count == 1
    ensures var w', x := Release(w, t, 0), w.mutexes[0];
      && (x.queue == [] ==> w'.mutexes[0].owner == Nobody && w'.mutexes[0].count == 0 && w'.mutexes[0].queue == [])
      && (x.queue != [] ==>
        && w'.mutexes[0].owner == By(x.queue[0]) && w'.mutexes[0].count == 1 && w'.doing[x.queue[0]] == Running
        && w'.mutexes[0].orig == w'.prio[x.queue[0]] == w.prio[x.queue[0]]
        && w'.mutexes[0].queue == x.queue[1..]
        && forall i :: 0 <= i < |x.queue| ==> w'.prio[x.queue[0]] <= w'.prio[x.queue[i]] == w.prio[x.queue[i]])
  {
    var x := w.mutexes[0];
    assert QueueOk(w, 0) && OwnerOk(w, 0);
    assert forall i :: 0 <= i < |x.queue| ==> x.queue[i] in x.queue;
    hide Ok, QueueOk, OwnerOk, Dominates, Remove;
  }

  lemma {:induction false} TakeExact(w: World, t: Tid)
    requires ExactUnlessLate(w) && Known(w, t, 0) && w.doing[t] == Running &&
        (w.mutexes[0].count == 0 || w.mutexes[0].owner == By(t))
    ensures ExactUnlessLate(Take(w, t, 0))
  {
    TakeInherits(w, t);
    assert OwnerOk(w, 0);
    hide Inherits, OwnerOk;
    assert NoneLate(Take(w, t, 0)) ==> NoneLate(w);
  }

  lemma {:induction false} NextExact(w: World, e: Event)
    requires ExactUnlessLate(w) && Legal(w, e)
    ensures ExactUnlessLate(Next(w, e))
  {
    OneMutex(w);
    hide ExactUnlessLate, Take, Wait, TimeOut, GiveUp, Unlock;
    match e
    case LockCall(t, m, noWait) => {
      var x := w.mutexes[0];
      if x.count == 0 || x.owner == By(t) {
        TakeExact(w, t);
      } else if !noWait {
        WaitExact(w, t);
      }
    }
    case TimedOut(t) => TimeOutExact(w, t);
    case GivesUp(t) => GiveUpExact(w, t);
    case UnlockCall(t, m) => UnlockExact(w, t);
  }

  /** In every run of one mutex in which no thread starts above the ceiling, and whenever
      no timed-out waiter has yet to adjust, the owner's priority is exactly the higher of
      its own and the first waiter's. */
  lemma {:induction false} SingleExact(w: World, es: seq<Event>, w': World)
    requires ExactUnlessLate(w) && Reaches(w, es, w')
    ensures ExactUnlessLate(w')
    decreases |es|
  {
    if es != [] {
      hide ExactUnlessLate, Next, Legal;
      NextExact(w, es[0]);
      SingleExact(Next(w, es[0]), es[1..], w');
    }
  }

  /** The two single-mutex theorems apply from a fresh mutex on. */
  lemma {:induction false} FreshInherits(w: World)
    requires Fresh(w) && |w.mutexes| == 1
    ensures Inherits(w)
    ensures (forall t :: 0 <= t < |w.prio| ==> w.prio[t] >= w.ceiling) ==> ExactUnlessLate(w)
  {
    FreshOk(w);
    hide Ok;
  }

  /** Exactly when the ceiling gets in the way: a new waiter lends its priority unless it
      is both higher than the owner and above the ceiling. */
  lemma {:induction false} LendsExactly(ceiling: int, p: int, owner: int)
    ensures Raised(ceiling, p, owner) == Higher(p, owner) <==> owner <= p || p >= ceiling
  {
  }

  /** And when a waiter gives up, the owner keeps what it deserves unless someone still
      waits and that priority is above the ceiling. */
  lemma {:induction false} GivesBackExactly(w: World, t: Tid, m: Mid)
    requires Ok(w) && Known(w, t, m) && w.mutexes[m].owner.By?
    ensures var w', x := GiveUp(w, t, m), w.mutexes[m];
      x.owner.t < |w.prio| && (w'.prio[x.owner.t] == Deserved(w, x) <==> x.queue == [] || Deserved(w, x) >= w.ceiling)
  {
    assert OwnerOk(w, m) && QueueOk(w, m);
    assert w.mutexes[m].queue != [] ==> w.mutexes[m].queue[0] in w.mutexes[m].queue;
    hide Ok, OwnerOk, QueueOk;
  }

  // ---- where the promise ends ----------------------------------------------------------------------

  /** Thread 0 (priority 10 by itself), thread 1 (priority 3), two mutexes, no ceiling in
      reach. */
  function Pair(prio: int, d: Doing, a: Mutex, b: Mutex, h0: seq<Mid>, h1: seq<Mid>): World {
    World(0, [prio, 3], [Running, d], [a, b], [h0, h1])
  }

  const FREE := Mutex(Nobody, 0, 0, [])
  const START := Pair(10, Running, FREE, FREE, [], [])

  lemma {:induction false} StartFresh()
    ensures Fresh(START)
  {
  }

  lemma {:induction false} Then(w: World, e: Event, w1: World, es: seq<Event>, w': World)
    requires Legal(w, e) && Next(w, e) == w1 && Reaches(w1, es, w')
    ensures Reaches(w, [e] + es, w')
  {
    assert ([e] + es)[1..] == es;
  }

  lemma {:induction false} FirstLock()
    ensures Lock(START, 0, 0, false) == Pair(10, Running, Mutex(By(0), 1, 10, []), FREE, [0], [])
  {
    var w := Lock(START, 0, 0, false);
    assert w.held[0] == [0] && w.held == [[0], []];
    assert w.mutexes == [Mutex(By(0), 1, 10, []), FREE];
  }

  lemma {:induction false} Lends(b: Mutex, h: seq<Mid>)
    ensures Lock(Pair(10, Running, Mutex(By(0), 1, 10, []), b, h, []), 1, 0, false)
      == Pair(3, Waiting(0), Mutex(By(0), 1, 10, [1]), b, h, [])
  {
    var w := Lock(Pair(10, Running, Mutex(By(0), 1, 10, []), b, h, []), 1, 0, false);
    assert w.prio == [3, 3] && w.doing == [Running, Waiting(0)];
    assert w.mutexes[0].queue == [1];
    assert w.mutexes == [Mutex(By(0), 1, 10, [1]), b];
  }

  lemma {:induction false} SecondLock(prio: int, d: Doing, a: Mutex)
    ensures Lock(Pair(prio, d, a, FREE, [0], []), 0, 1, false)
      == Pair(prio, d, a, Mutex(By(0), 1, prio, []), [0, 1], [])
  {
    var w := Lock(Pair(prio, d, a, FREE, [0], []), 0, 1, false);
    assert w.held[0] == [0, 1] && w.held == [[0, 1], []];
    assert w.mutexes == [a, Mutex(By(0), 1, prio, [])];
  }

  lemma {:induction false} ReleaseFirst()
    ensures Unlock(Pair(3, Waiting(0), Mutex(By(0), 1, 10, [1]), Mutex(By(0), 1, 3, []), [0, 1], []), 0, 0)
      == Pair(10, Running, Mutex(By(1), 1, 3, []), Mutex(By(0), 1, 3, []), [1], [0])
  {
    assert Index([0, 1], 0) == 0 && Remove([0, 1], 0) == [1];
    var w := Unlock(Pair(3, Waiting(0), Mutex(By(0), 1, 10, [1]), Mutex(By(0), 1, 3, []), [0, 1], []), 0, 0);
    assert w.prio == [10, 3] && w.doing == [Running, Running];
    assert w.held[0] == [1] && w.held[1] == [0] && w.held == [[1], [0]];
    assert w.mutexes[0].queue == [];
    assert w.mutexes == [Mutex(By(1), 1, 3, []), Mutex(By(0), 1, 3, [])];
  }

  /** Thread 0 gives back mutex 1, for which nobody waits. */
  lemma {:induction false} ReleaseSecond(prio: int, d: Doing, a: Mutex, orig: int, h: seq<Mid>, h1: seq<Mid>)
    requires h == [] || h == [0]
    ensures Unlock(Pair(prio, d, a, Mutex(By(0), 1, orig, []), h + [1], h1), 0, 1)
      == Pair(orig, d, a, Mutex(Nobody, 0, orig, []), h, h1)
  {
    assert Distinct(h + [1]);
    RemoveLast(h + [1], 1);
    hide Remove;
    var w := Unlock(Pair(prio, d, a, Mutex(By(0), 1, orig, []), h + [1], h1), 0, 1);
    assert w.prio == [orig, 3];
    assert w.held[0] == h && w.held == [h, h1];
    assert w.mutexes == [a, Mutex(Nobody, 0, orig, [])];
  }

  /** Out of order, priority leaks: thread 0 gets mutex 1 while thread 1 lends it priority
      through mutex 0, releases mutex 0 first, and ends up owning nothing at priority 3. */
  lemma {:induction false} OutOfOrderLeaks()
    ensures var w' := Pair(3, Running, Mutex(By(1), 1, 3, []), Mutex(Nobody, 0, 3, []), [], [0]);
      && Fresh(START) && w'.held[0] == [] && w'.prio[0] != START.prio[0]
      && Reaches(START,
          [LockCall(0, 0, false), LockCall(1, 0, false), LockCall(0, 1, false), UnlockCall(0, 0), UnlockCall(0, 1)], w')
  {
    StartFresh();
    FirstLock();
    Lends(FREE, [0]);
    SecondLock(3, Waiting(0), Mutex(By(0), 1, 10, [1]));
    ReleaseFirst();
    ReleaseSecond(10, Running, Mutex(By(1), 1, 3, []), 3, [], [0]);
    assert [] + [1] == [1];
    hide Lock, Unlock, Fresh;
    var x0 := Mutex(By(0), 1, 10, [1]);
    var w1 := Pair(10, Running, Mutex(By(0), 1, 10, []), FREE, [0], []);
    var w2 := Pair(3, Waiting(0), x0, FREE, [0], []);
    var w3 := Pair(3, Waiting(0), x0, Mutex(By(0), 1, 3, []), [0, 1], []);
    var w4 := Pair(10, Running, Mutex(By(1), 1, 3, []), Mutex(By(0), 1, 3, []), [1], [0]);
    var w5 := Pair(3, Running, Mutex(By(1), 1, 3, []), Mutex(Nobody, 0, 3, []), [], [0]);
    hide Reaches;
    Stop(w5);
    Then(w4, UnlockCall(0, 1), w5, [], w5);
    Then(w3, UnlockCall(0, 0), w4, [UnlockCall(0, 1)], w5);
    Then(w2, LockCall(0, 1, false), w3, [UnlockCall(0, 0), UnlockCall(0, 1)], w5);
    Then(w1, LockCall(1, 0, false), w2, [LockCall(0, 1, false), UnlockCall(0, 0), UnlockCall(0, 1)], w5);
    Then(START, LockCall(0, 0, false), w1,
        [LockCall(1, 0, false), LockCall(0, 1, false), UnlockCall(0, 0), UnlockCall(0, 1)], w5);
  }

  lemma {:induction false} Stop(w: World)
    ensures Reaches(w, [], w)
  {
  }

  /** Inheritance is a promise about one mutex: even nested, giving back mutex 1 takes
      away the priority that the waiter on mutex 0 had lent. */
  lemma {:induction false} SecondMutexLosesLoan()
    ensures var w' := Pair(10, Waiting(0), Mutex(By(0), 1, 10, [1]), Mutex(Nobody, 0, 10, []), [0], []);
      var es := [LockCall(0, 0, false), LockCall(0, 1, false), LockCall(1, 0, false), UnlockCall(0, 1)];
      && Fresh(START) && Reaches(START, es, w')
      && w'.mutexes[0].owner == By(0) && w'.mutexes[0].queue == [1] && w'.prio[0] > w'.prio[1]
  {
    StartFresh();
    FirstLock();
    SecondLock(10, Running, Mutex(By(0), 1, 10, []));
    Lends(Mutex(By(0), 1, 10, []), [0, 1]);
    ReleaseSecond(3, Waiting(0), Mutex(By(0), 1, 10, [1]), 10, [0], []);
    assert [0] + [1] == [0, 1];
    hide Lock, Unlock, Fresh;
    var x0 := Mutex(By(0), 1, 10, []);
    var w1 := Pair(10, Running, x0, FREE, [0], []);
    var w2 := Pair(10, Running, x0, x0, [0, 1], []);
    var w3 := Pair(3, Waiting(0), Mutex(By(0), 1, 10, [1]), x0, [0, 1], []);
    var w4 := Pair(10, Waiting(0), Mutex(By(0), 1, 10, [1]), Mutex(Nobody, 0, 10, []), [0], []);
    hide Reaches;
    Stop(w4);
    Then(w3, UnlockCall(0, 1), w4, [], w4);
    Then(w2, LockCall(1, 0, false), w3, [UnlockCall(0, 1)], w4);
    Then(w1, LockCall(0, 1, false), w2, [LockCall(1, 0, false), UnlockCall(0, 1)], w4);
    Then(START, LockCall(0, 0, false), w1, [LockCall(0, 1, false), LockCall(1, 0, false), UnlockCall(0, 1)], w4);
  }
}
