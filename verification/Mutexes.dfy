/** Priority-inheritance mutexes (mutex.c): any number of mutexes and threads, recursive
    locks, hand-overs and timeouts. A lower number is a higher priority. */
module Mutexes {
  import opened Rings
  import opened SchedState

  type Mid = nat

  datatype Owner = Nobody | By(t: Tid)

  datatype Mutex = Mutex(owner: Owner, count: nat, orig: int, queue: seq<Tid>)

  /** A thread waits for at most one mutex. One whose wait has timed out has left the queue,
      but has yet to adjust the owner's priority. */
  datatype Doing = Running | Waiting(m: Mid) | Late(m: Mid)

  /** `held` is history: the mutexes a thread owns in the order it came to own them. */
  datatype World = World(ceiling: int, prio: seq<int>, doing: seq<Doing>, mutexes: seq<Mutex>, held: seq<seq<Mid>>)

  function Higher(a: int, b: int): int {
    if a < b then a else b
  }

  /** z_get_new_prio_with_ceiling. */
  function Capped(ceiling: int, p: int): int {
    if p >= ceiling then p else ceiling
  }

  /** new_prio_for_inheritance. */
  function Inherit(ceiling: int, target: int, limit: int): int {
    Capped(ceiling, Higher(target, limit))
  }

  /** Where a thread of priority `p` joins a wait queue: behind those at least as high. */
  function Seat(prio: seq<int>, q: seq<Tid>, p: int): (i: nat)
    ensures i <= |q|
  {
    if q == [] || q[0] >= |prio| || p < prio[q[0]] then 0 else 1 + Seat(prio, q[1..], p)
  }

  // ---- steps ----------------------------------------------------------------------------------

  predicate Known(w: World, t: Tid, m: Mid) {
    t < |w.prio| == |w.doing| == |w.held| && m < |w.mutexes|
  }

  /** z_impl_k_mutex_lock where the mutex is free or already the caller's. */
  function Take(w: World, t: Tid, m: Mid): World
    requires Known(w, t, m)
  {
    var x := w.mutexes[m];
    var free := x.count == 0;
    w.(mutexes := w.mutexes[m := x.(owner := By(t), count := x.count + 1, orig := if free then w.prio[t] else x.orig)],
       held := if free then w.held[t := w.held[t] + [m]] else w.held)
  }

  /** The owner's priority after a thread of priority `p` came to wait. */
  function Raised(ceiling: int, p: int, owner: int): int {
    var new_ := Inherit(ceiling, p, owner);
    if new_ < owner then new_ else owner
  }

  /** z_impl_k_mutex_lock up to z_pend_curr. */
  function Wait(w: World, t: Tid, m: Mid): World
    requires Known(w, t, m) && w.mutexes[m].owner.By? && w.mutexes[m].owner.t < |w.prio|
  {
    var x := w.mutexes[m];
    var o := x.owner.t;
    var prio := w.prio[o := Raised(w.ceiling, w.prio[t], w.prio[o])];
    var i := Seat(prio, x.queue, prio[t]);
    w.(prio := prio, doing := w.doing[t := Waiting(m)],
       mutexes := w.mutexes[m := x.(queue := x.queue[..i] + [t] + x.queue[i..])])
  }

  /** The timeout of a waiting thread takes it off the queue. */
  function TimeOut(w: World, t: Tid, m: Mid): World
    requires Known(w, t, m)
  {
    w.(doing := w.doing[t := Late(m)],
       mutexes := w.mutexes[m := w.mutexes[m].(queue := Remove(w.mutexes[m].queue, t))])
  }

  /** The priority the owner is left with when a waiter has given up. */
  function Lowered(w: World, x: Mutex): int {
    if x.queue != [] && x.queue[0] < |w.prio| then Inherit(w.ceiling, w.prio[x.queue[0]], x.orig) else x.orig
  }

  /** z_impl_k_mutex_lock after a timed-out z_pend_curr. */
  function GiveUp(w: World, t: Tid, m: Mid): World
    requires Known(w, t, m)
  {
    var x := w.mutexes[m];
    var w1 := w.(doing := w.doing[t := Running]);
    if x.owner.By? && x.owner.t < |w.prio| then w1.(prio := w.prio[x.owner.t := Lowered(w, x)]) else w1
  }

  /** The last unlock of a mutex: the owner's priority is put back, and the first waiter
      takes over. */
  function Release(w: World, t: Tid, m: Mid): World
    requires Known(w, t, m)
  {
    var x := w.mutexes[m];
    var prio := w.prio[t := x.orig];
    var held := w.held[t := Remove(w.held[t], m)];
    if x.queue == [] || x.queue[0] >= |prio| then
      w.(prio := prio, held := held, mutexes := w.mutexes[m := x.(owner := Nobody, count := 0)])
    else
      var h := x.queue[0];
      w.(prio := prio, held := held[h := held[h] + [m]], doing := w.doing[h := Running],
         mutexes := w.mutexes[m := x.(owner := By(h), orig := prio[h], queue := x.queue[1..])])
  }

  /** z_impl_k_mutex_unlock: -EINVAL and -EPERM change nothing. */
  function Unlock(w: World, t: Tid, m: Mid): World
    requires Known(w, t, m)
  {
    var x := w.mutexes[m];
    if x.owner != By(t) then w
    else if x.count > 1 then w.(mutexes := w.mutexes[m := x.(count := x.count - 1)])
    else Release(w, t, m)
  }

  /** z_impl_k_mutex_lock up to its wait: -EBUSY changes nothing. */
  function Lock(w: World, t: Tid, m: Mid, noWait: bool): World
    requires Known(w, t, m)
  {
    var x := w.mutexes[m];
    if x.count == 0 || x.owner == By(t) then Take(w, t, m)
    else if noWait || !x.owner.By? || x.owner.t >= |w.prio| then w
    else Wait(w, t, m)
  }

  // ---- structure ----------------------------------------------------------------------------------

  ghost predicate Sizes(w: World) {
    |w.doing| == |w.prio| == |w.held|
  }

  /** The queue of `m` holds, once each, the threads that wait for it. */
  ghost predicate QueueOk(w: World, m: Mid)
    requires m < |w.mutexes| && Sizes(w)
  {
    var q := w.mutexes[m].queue;
    && Distinct(q) && (forall t :: t in q ==> t < |w.prio|)
    && (forall t :: 0 <= t < |w.prio| ==> (t in q <==> w.doing[t] == Waiting(m)))
  }

  /** A mutex has an owner exactly while its count is not 0, and waiters only then. */
  ghost predicate OwnerOk(w: World, m: Mid)
    requires m < |w.mutexes|
  {
    var x := w.mutexes[m];
    && (x.count == 0 <==> x.owner == Nobody)
    && (x.owner.By? ==> x.owner.t < |w.prio| && x.owner.t !in x.queue)
    && (x.queue != [] ==> x.owner.By?)
  }

  /** A thread's list names, once each, the mutexes it owns. */
  ghost predicate HeldOk(w: World, t: Tid)
    requires t < |w.held|
  {
    && Distinct(w.held[t])
    && forall m :: m in w.held[t] <==> 0 <= m < |w.mutexes| && w.mutexes[m].owner == By(t)
  }

  ghost predicate Ok(w: World) {
    && Sizes(w)
    && (forall m :: 0 <= m < |w.mutexes| ==> QueueOk(w, m))
    && (forall m :: 0 <= m < |w.mutexes| ==> OwnerOk(w, m))
    && (forall t :: 0 <= t < |w.held| ==> HeldOk(w, t))
  }

  /** Every mutex is free and nobody waits. */
  ghost predicate Fresh(w: World) {
    && Sizes(w)
    && (forall m :: 0 <= m < |w.mutexes| ==>
        w.mutexes[m].owner == Nobody && w.mutexes[m].count == 0 && w.mutexes[m].queue == [])
    && (forall t :: 0 <= t < |w.doing| ==> w.doing[t] == Running && w.held[t] == [])
  }

  datatype Event =
    | LockCall(t: Tid, m: Mid, noWait: bool)
    | TimedOut(t: Tid)
    | GivesUp(t: Tid)
    | UnlockCall(t: Tid, m: Mid)

  ghost predicate Legal(w: World, e: Event) {
    match e
    case LockCall(t, m, _) => Known(w, t, m) && w.doing[t] == Running
    case TimedOut(t) => t < |w.doing| && w.doing[t].Waiting? && Known(w, t, w.doing[t].m)
    case GivesUp(t) => t < |w.doing| && w.doing[t].Late? && Known(w, t, w.doing[t].m)
    case UnlockCall(t, m) => Known(w, t, m) && w.doing[t] == Running
  }

  ghost function Next(w: World, e: Event): World
    requires Legal(w, e)
  {
    match e
    case LockCall(t, m, noWait) => Lock(w, t, m, noWait)
    case TimedOut(t) => TimeOut(w, t, w.doing[t].m)
    case GivesUp(t) => GiveUp(w, t, w.doing[t].m)
    case UnlockCall(t, m) => Unlock(w, t, m)
  }

  ghost predicate Reaches(w: World, es: seq<Event>, w': World)
    decreases |es|
  {
    if es == [] then w' == w else Legal(w, es[0]) && Reaches(Next(w, es[0]), es[1..], w')
  }

  // ---- the structure is kept --------------------------------------------------------------------------

  /** Only thread `t`'s dealings with mutex `m` change. */
  ghost predicate Around(w: World, w': World, t: Tid, m: Mid) {
    && Known(w, t, m) && Known(w', t, m) && Sizes(w') && |w'.prio| == |w.prio| && |w'.mutexes| == |w.mutexes|
    && (forall u :: 0 <= u < |w.doing| && u != t ==> w'.doing[u] == w.doing[u])
    && (forall n :: 0 <= n < |w.mutexes| && n != m ==> w'.mutexes[n] == w.mutexes[n])
    && (forall n :: n != m ==> w.doing[t] != Waiting(n) && w'.doing[t] != Waiting(n))
  }

  lemma {:induction false} OthersKept(w: World, w': World, t: Tid, m: Mid)
    requires Ok(w) && Around(w, w', t, m)
    requires QueueOk(w', m) && OwnerOk(w', m)
    requires forall u :: 0 <= u < |w'.held| ==> HeldOk(w', u)
    ensures Ok(w')
  {
    hide HeldOk;
    forall n | 0 <= n < |w'.mutexes| ensures QueueOk(w', n) && OwnerOk(w', n) {
      assert QueueOk(w, n) && OwnerOk(w, n);
    }
  }

  /** The owners do not change. */
  lemma {:induction false} HeldSame(w: World, w': World)
    requires Ok(w) && w'.held == w.held && |w'.mutexes| == |w.mutexes|
    requires forall m :: 0 <= m < |w.mutexes| ==> w'.mutexes[m].owner == w.mutexes[m].owner
    ensures forall u :: 0 <= u < |w'.held| ==> HeldOk(w', u)
  {
    forall u | 0 <= u < |w'.held| ensures HeldOk(w', u) {
      assert HeldOk(w, u);
    }
  }

  lemma {:induction false} TakeKeeps(w: World, t: Tid, m: Mid)
    requires Ok(w) && Known(w, t, m) && w.doing[t] == Running
    requires w.mutexes[m].count == 0 || w.mutexes[m].owner == By(t)
    ensures Ok(Take(w, t, m))
  {
    var w' := Take(w, t, m);
    assert QueueOk(w, m) && OwnerOk(w, m);
    if w.mutexes[m].count == 0 {
      Gains(w, w', t, m);
    } else {
      HeldSame(w, w');
    }
    OthersKept(w, w', t, m);
  }

  /** `t` comes to own the free mutex `m`. */
  lemma {:induction false} Gains(w: World, w': World, t: Tid, m: Mid)
    requires Known(w, t, m) && |w'.mutexes| == |w.mutexes| && w'.mutexes[m].owner == By(t)
    requires forall u :: 0 <= u < |w.held| ==> HeldOk(w, u)
    requires w.mutexes[m].owner == Nobody
    requires forall n :: 0 <= n < |w.mutexes| && n != m ==> w'.mutexes[n].owner == w.mutexes[n].owner
    requires w'.held == w.held[t := w.held[t] + [m]]
    ensures forall u :: 0 <= u < |w'.held| ==> HeldOk(w', u)
  {
    forall u | 0 <= u < |w'.held| ensures HeldOk(w', u) {
      assert HeldOk(w, u);
    }
  }

  /** `t` no longer owns `m`. */
  lemma {:induction false} Loses(w: World, w': World, t: Tid, m: Mid)
    requires Known(w, t, m) && |w'.mutexes| == |w.mutexes| && w'.mutexes[m].owner == Nobody
    requires forall u :: 0 <= u < |w.held| ==> HeldOk(w, u)
    requires w.mutexes[m].owner == By(t)
    requires forall n :: 0 <= n < |w.mutexes| && n != m ==> w'.mutexes[n].owner == w.mutexes[n].owner
    requires w'.held == w.held[t := Remove(w.held[t], m)]
    ensures forall u :: 0 <= u < |w'.held| ==> HeldOk(w', u)
  {
    hide Remove;
    forall u | 0 <= u < |w'.held| ensures HeldOk(w', u) {
      assert HeldOk(w, u);
      RemoveIn(w.held[u], m);
    }
  }

  lemma {:induction false} WaitKeeps(w: World, t: Tid, m: Mid)
    requires Ok(w) && Known(w, t, m) && w.doing[t] == Running
    requires w.mutexes[m].count != 0 && w.mutexes[m].owner != By(t)
    ensures OwnerOk(w, m) && Ok(Wait(w, t, m))
  {
    assert QueueOk(w, m) && OwnerOk(w, m);
    var w', x := Wait(w, t, m), w.mutexes[m];
    var o := x.owner.t;
    var i := Seat(w'.prio, x.queue, w'.prio[t]);
    hide Seat, Raised;
    PlacedIn(x.queue, i, t);
    PlacedDistinct(x.queue, i, t);
    HeldSame(w, w');
    OthersKept(w, w', t, m);
  }

  lemma {:induction false} TimeOutKeeps(w: World, t: Tid, m: Mid)
    requires Ok(w) && Known(w, t, m) && w.doing[t] == Waiting(m)
    ensures Ok(TimeOut(w, t, m))
  {
    hide Remove;
    assert QueueOk(w, m) && OwnerOk(w, m);
    var w' := TimeOut(w, t, m);
    RemoveIn(w.mutexes[m].queue, t);
    assert w'.mutexes[m].queue != [] ==> w'.mutexes[m].queue[0] in w.mutexes[m].queue;
    HeldSame(w, w');
    OthersKept(w, w', t, m);
  }

  lemma {:induction false} GiveUpKeeps(w: World, t: Tid, m: Mid)
    requires Ok(w) && Known(w, t, m) && w.doing[t] == Late(m)
    ensures Ok(GiveUp(w, t, m))
  {
    hide Lowered;
    assert QueueOk(w, m) && OwnerOk(w, m);
    var w' := GiveUp(w, t, m);
    HeldSame(w, w');
    OthersKept(w, w', t, m);
  }

  /** The mutex between two owners. */
  function Freed(w: World, t: Tid, m: Mid): World
    requires Known(w, t, m)
  {
    var x := w.mutexes[m];
    w.(prio := w.prio[t := x.orig], held := w.held[t := Remove(w.held[t], m)],
       mutexes := w.mutexes[m := x.(owner := Nobody, count := 0)])
  }

  lemma {:induction false} ReleaseHeld(w: World, t: Tid, m: Mid)
    requires Ok(w) && Known(w, t, m) && w.mutexes[m].owner == By(t)
    ensures var w' := Release(w, t, m); Sizes(w') && forall u :: 0 <= u < |w'.held| ==> HeldOk(w', u)
  {
    hide Remove;
    var w1, w' := Freed(w, t, m), Release(w, t, m);
    assert QueueOk(w, m);
    Loses(w, w1, t, m);
    if w.mutexes[m].queue != [] {
      var h := w.mutexes[m].queue[0];
      assert h in w.mutexes[m].queue;
      Gains(w1, w', h, m);
    } else {
      assert w' == w1;
    }
  }

  lemma {:induction false} TailIn(q: seq<nat>)
    requires q != [] && Distinct(q)
    ensures Distinct(q[1..]) && forall t :: t in q[1..] <==> t in q && t != q[0]
  {
  }

  lemma {:induction false} ReleaseKeeps(w: World, t: Tid, m: Mid)
    requires Ok(w) && Known(w, t, m) && w.doing[t] == Running && w.mutexes[m].owner == By(t) && w.mutexes[m].count == 1
    ensures Ok(Release(w, t, m))
  {
    hide Remove, HeldOk;
    var w', x := Release(w, t, m), w.mutexes[m];
    ReleaseHeld(w, t, m);
    assert QueueOk(w, m) && OwnerOk(w, m);
    if x.queue != [] {
      assert x.queue[0] in x.queue;
      TailIn(x.queue);
      OthersKept(w, w', x.queue[0], m);
    } else {
      OthersKept(w, w', t, m);
    }
  }

  lemma {:induction false} UnlockKeeps(w: World, t: Tid, m: Mid)
    requires Ok(w) && Known(w, t, m) && w.doing[t] == Running
    ensures Ok(Unlock(w, t, m))
  {
    var w', x := Unlock(w, t, m), w.mutexes[m];
    assert QueueOk(w, m) && OwnerOk(w, m);
    if x.owner == By(t) {
      if x.count > 1 {
        hide Release;
        HeldSame(w, w');
        OthersKept(w, w', t, m);
      } else {
        hide Release, Ok;
        ReleaseKeeps(w, t, m);
      }
    }
  }

  lemma {:induction false} NextKeeps(w: World, e: Event)
    requires Ok(w) && Legal(w, e)
    ensures Ok(Next(w, e)) && |Next(w, e).prio| == |w.prio| && |Next(w, e).mutexes| == |w.mutexes|
  {
    match e
    case LockCall(t, m, noWait) => {
      assert OwnerOk(w, m);
      hide Ok, QueueOk;
      var x := w.mutexes[m];
      if x.count == 0 || x.owner == By(t) {
        TakeKeeps(w, t, m);
      } else {
        WaitKeeps(w, t, m);
      }
    }
    case TimedOut(t) => { hide Ok; TimeOutKeeps(w, t, w.doing[t].m); }
    case GivesUp(t) => { hide Ok; GiveUpKeeps(w, t, w.doing[t].m); }
    case UnlockCall(t, m) => { hide Ok; UnlockKeeps(w, t, m); }
  }
}
