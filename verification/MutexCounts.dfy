/** Recursive locking (mutex.c): the lock count is how often the owner has locked the mutex
    and not yet unlocked it, so it changes hands at the matching unlock and at no other. */
module MutexCounts {
  import opened Rings
  import opened SchedState
  import opened Mutexes
  import opened MutexRuns

  // ---- the answers --------------------------------------------------------------------------------

  /** A lock is granted exactly if the mutex is free or the caller's; otherwise a caller that
      may not wait is turned away and nothing happened, and one that may waits: behind those
      at least as high, nobody else moves, and only the owner's priority may rise. */
  lemma {:induction false} LockAnswers(w: World, t: Tid, m: Mid, noWait: bool)
    requires Ok(w) && Known(w, t, m) && w.doing[t] == Running
    ensures var w', x := Lock(w, t, m, noWait), w.mutexes[m];
      && Known(w', t, m)
      && (w'.mutexes[m].owner == By(t) <==> x.owner == Nobody || x.owner == By(t))
      && (w'.doing[t] == Waiting(m) <==> x.owner.By? && x.owner != By(t) && !noWait)
      && (x.owner.By? && x.owner != By(t) && noWait ==> w' == w)
      && (w'.mutexes[m].owner == By(t) ==>
            && w'.prio == w.prio && w'.doing == w.doing
            && w'.mutexes == w.mutexes[m := x.(owner := By(t), count := x.count + 1, orig := w'.mutexes[m].orig)])
      && (w'.doing[t] == Waiting(m) ==> Queued(w, w', t, m))
  {
    assert OwnerOk(w, m) && QueueOk(w, m);
    hide Raised, Seat, Ok;
    var x, w' := w.mutexes[m], Lock(w, t, m, noWait);
    if x.owner.By? && x.owner != By(t) && !noWait {
      hide Queued, Wait;
      WaitQueues(w, t, m);
    }
  }

  lemma {:induction false} WaitQueues(w: World, t: Tid, m: Mid)
    requires Known(w, t, m) && w.mutexes[m].owner.By? && w.mutexes[m].owner.t < |w.prio| && w.mutexes[m].owner != By(t)
    ensures var w' := Wait(w, t, m);
      Known(w', t, m) && w'.mutexes[m].owner == w.mutexes[m].owner && Queued(w, w', t, m)
  {
    hide Raised, Seat;
    var q, w' := w.mutexes[m].queue, Wait(w, t, m);
    var i := Seat(w'.prio, q, w'.prio[t]);
    SeatParts(w'.prio, q, w'.prio[t]);
    PlacedAt(q, i, t);
    assert PlacedBy(w'.prio, q, w'.mutexes[m].queue, t, i);
  }

  /** `t` came to wait for `m`: somewhere in the queue, behind all at least as high up to the
      first that is lower, and the others stand as they did. */
  ghost predicate Queued(w: World, w': World, t: Tid, m: Mid)
    requires Known(w, t, m) && Known(w', t, m)
  {
    var q, q' := w.mutexes[m].queue, w'.mutexes[m].queue;
    && w'.doing == w.doing[t := Waiting(m)] && w'.held == w.held && w'.ceiling == w.ceiling
    && w'.mutexes == w.mutexes[m := w.mutexes[m].(queue := q')]
    && |w'.prio| == |w.prio|
    && (forall u :: 0 <= u < |w.prio| && By(u) != w.mutexes[m].owner ==> w'.prio[u] == w.prio[u])
    && exists i :: 0 <= i <= |q| && PlacedBy(w'.prio, q, q', t, i)
  }

  ghost predicate PlacedBy(prio: seq<int>, q: seq<Tid>, q': seq<Tid>, t: Tid, i: nat)
    requires i <= |q|
  {
    && |q'| == |q| + 1 && q'[i] == t && q'[..i] == q[..i] && q'[i + 1..] == q[i..]
    && t < |prio| && (forall j :: 0 <= j < i ==> q[j] < |prio| && prio[q[j]] <= prio[t])
    && (i < |q| && q[i] < |prio| ==> prio[t] < prio[q[i]])
  }

  lemma {:induction false} PlacedAt(q: seq<Tid>, i: nat, t: Tid)
    requires i <= |q|
    ensures var q' := q[..i] + [t] + q[i..];
      |q'| == |q| + 1 && q'[i] == t && q'[..i] == q[..i] && q'[i + 1..] == q[i..]
  {
  }

  lemma {:induction false} SeatParts(prio: seq<int>, q: seq<Tid>, p: int)
    ensures var i := Seat(prio, q, p);
      && (forall j :: 0 <= j < i ==> q[j] < |prio| && prio[q[j]] <= p)
      && (i < |q| && q[i] < |prio| ==> p < prio[q[i]])
    decreases |q|
  {
    if q != [] && q[0] < |prio| && prio[q[0]] <= p {
      SeatParts(prio, q[1..], p);
      var i := Seat(prio, q[1..], p);
      forall j | 0 <= j < i + 1 ensures q[j] < |prio| && prio[q[j]] <= p {
        if j > 0 {
          assert q[1..][j - 1] == q[j];
        }
      }
    }
  }

  /** Only the owner's last unlock lets a mutex go: then the owner's priority is put back, and the
      thread that waits first, no longer waiting, owns the mutex at its own priority; without
      one the mutex is free. Nobody else's priority and no other mutex is touched. */
  lemma {:induction false} UnlockAnswers(w: World, t: Tid, m: Mid)
    requires Ok(w) && Known(w, t, m) && w.doing[t] == Running
    ensures var w', x := Unlock(w, t, m), w.mutexes[m];
      && Known(w', t, m) && |w'.prio| == |w.prio| && |w'.mutexes| == |w.mutexes|
      && (x.owner != By(t) ==> w' == w)
      && (x.owner == By(t) && x.count > 1 ==> w' == w.(mutexes := w'.mutexes) && w'.mutexes[m].owner == By(t))
      && (x.owner == By(t) && x.count == 1 ==>
            && w'.prio == w.prio[t := x.orig] && w'.mutexes[m].owner != By(t)
            && if x.queue == [] then w'.mutexes[m].owner == Nobody && w'.doing == w.doing
               else
                 var h := x.queue[0];
                 && [h] + w'.mutexes[m].queue == x.queue && w'.mutexes[m].owner == By(h) && h < |w.prio|
                 && w.doing[h] == Waiting(m) && w'.doing == w.doing[h := Running]
                 && w'.mutexes[m].orig == w'.prio[h] == w.prio[h])
      && (forall n :: 0 <= n < |w.mutexes| && n != m ==> w'.mutexes[n] == w.mutexes[n])
  {
    assert OwnerOk(w, m) && QueueOk(w, m);
    assert w.mutexes[m].queue != [] ==> w.mutexes[m].queue[0] in w.mutexes[m].queue;
    hide Ok, Remove, Distinct;
  }

  /** Locking once more and unlocking changes nothing. */
  lemma {:induction false} LockThenUnlock(w: World, t: Tid, m: Mid, noWait: bool)
    requires Ok(w) && Known(w, t, m) && w.mutexes[m].owner == By(t)
    ensures Known(Lock(w, t, m, noWait), t, m) && Unlock(Lock(w, t, m, noWait), t, m) == w
  {
    assert OwnerOk(w, m);
    var x, w1 := w.mutexes[m], Lock(w, t, m, noWait);
    hide Release, Ok;
    assert w1.mutexes[m].(count := x.count) == x;
    assert w1.mutexes[m := x] == w.mutexes;
  }

  // ---- the count --------------------------------------------------------------------------------------

  function LocksBy(es: seq<Event>, t: Tid, m: Mid): nat {
    if es == [] then 0 else (if es[0].LockCall? && es[0].t == t && es[0].m == m then 1 else 0) + LocksBy(es[1..], t, m)
  }

  function UnlocksBy(es: seq<Event>, t: Tid, m: Mid): nat {
    if es == [] then 0
    else (if es[0].UnlockCall? && es[0].t == t && es[0].m == m then 1 else 0) + UnlocksBy(es[1..], t, m)
  }

  /** `t` owns `m` now and after each of the events. */
  ghost predicate OwnsThroughout(w: World, es: seq<Event>, t: Tid, m: Mid)
    decreases |es|
  {
    && m < |w.mutexes| && w.mutexes[m].owner == By(t)
    && (es != [] && Legal(w, es[0]) ==> OwnsThroughout(Next(w, es[0]), es[1..], t, m))
  }

  /** What one event does to the owner and the count of mutex `m`. */
  lemma {:induction false} OneStep(w: World, e: Event, m: Mid)
    requires Ok(w) && Legal(w, e) && m < |w.mutexes|
    ensures Ok(Next(w, e)) && |Next(w, e).mutexes| == |w.mutexes|
    ensures var x, x' := w.mutexes[m], Next(w, e).mutexes[m];
      match x.owner
      case Nobody =>
        if e.LockCall? && e.m == m then x'.owner == By(e.t) && x'.count == 1 else x'.owner == Nobody
      case By(t) =>
        if e.LockCall? && e.t == t && e.m == m then x'.owner == By(t) && x'.count == x.count + 1
        else if !(e.UnlockCall? && e.t == t && e.m == m) then x'.owner == By(t) && x'.count == x.count
        else if x.count > 1 then x'.owner == By(t) && x'.count == x.count - 1
        else if x.queue == [] then x'.owner == Nobody && x'.count == 0
        else x'.owner == By(x.queue[0]) && x.queue[0] != t && x'.count == 1
  {
    NextKeeps(w, e);
    assert OwnerOk(w, m) && QueueOk(w, m);
    assert w.mutexes[m].queue != [] ==> w.mutexes[m].queue[0] in w.mutexes[m].queue;
    hide Ok, Seat, Raised, Lowered, Remove, HeldOk, Distinct;
  }

  /** While a thread owns a mutex, the count moves by its own locks and unlocks and by
      nothing else. */
  lemma {:induction false} CountIsDepth(w: World, es: seq<Event>, w': World, t: Tid, m: Mid)
    requires Ok(w) && Reaches(w, es, w') && OwnsThroughout(w, es, t, m)
    ensures Ok(w') && m < |w'.mutexes| && w'.mutexes[m].owner == By(t)
    ensures w'.mutexes[m].count == w.mutexes[m].count + LocksBy(es, t, m) - UnlocksBy(es, t, m)
    decreases |es|
  {
    if es != [] {
      hide Ok, Next;
      OneStep(w, es[0], m);
      CountIsDepth(Next(w, es[0]), es[1..], w', t, m);
    }
  }

  /** From the step by which a thread comes to own a mutex to the one by which it no longer
      does, it unlocks the mutex as often as it locks it (the hand-over counting as a lock);
      and that last step is an unlock of its own. */
  lemma {:induction false} MatchingUnlock(w: World, first: Event, es: seq<Event>, w': World, last: Event, t: Tid,
                                          m: Mid)
    requires Ok(w) && m < |w.mutexes| && w.mutexes[m].owner != By(t) && Legal(w, first)
    requires OwnsThroughout(Next(w, first), es, t, m) && Reaches(Next(w, first), es, w')
    requires Legal(w', last) && m < |Next(w', last).mutexes| && Next(w', last).mutexes[m].owner != By(t)
    ensures last == UnlockCall(t, m)
    ensures LocksBy(es, t, m) == UnlocksBy(es, t, m)
    ensures w.mutexes[m].owner == Nobody ==> first.LockCall? && first.t == t && first.m == m
    ensures w.mutexes[m].owner.By? ==>
        first == UnlockCall(w.mutexes[m].owner.t, m) && w.mutexes[m].queue != [] && w.mutexes[m].queue[0] == t
  {
    hide Ok, Next;
    OneStep(w, first, m);
    CountIsDepth(Next(w, first), es, w', t, m);
    OneStep(w', last, m);
    OwnedCounts(w', m);
  }

  lemma {:induction false} OwnedCounts(w: World, m: Mid)
    requires Ok(w) && m < |w.mutexes| && w.mutexes[m].owner.By?
    ensures w.mutexes[m].count >= 1
  {
    assert OwnerOk(w, m);
  }
}
