/** mutex.c as it runs: threads and mutexes are objects that point at each other and are
    changed in place; each call is proved to be the step that the theorems about runs speak
    of. */
module MutexTables {
  import opened Rings
  import opened SchedState
  import opened Mutexes

  /** 0, -EBUSY, or the caller waits. */
  datatype LockOutcome = Got | Busy | Waits

  /** 0, -EINVAL, -EPERM. */
  datatype UnlockOutcome = Done | NotLocked | NotOwner

  class KThread {
    const id: Tid
    var prio: int

    constructor (id: Tid, prio: int)
      ensures this.id == id && this.prio == prio
    {
      this.id, this.prio := id, prio;
    }
  }

  class KMutex {
    const id: Mid
    var owner: KThread?
    var lockCount: nat
    var ownerOrigPrio: int
    var waitq: seq<KThread>

    /** z_impl_k_mutex_init. */
    constructor (id: Mid)
      ensures this.id == id && owner == null && lockCount == 0 && waitq == []
    {
      this.id, owner, lockCount, ownerOrigPrio, waitq := id, null, 0, 0, [];
    }
  }

  ghost function Ids(ts: seq<KThread>): (r: seq<Tid>)
    ensures |r| == |ts| && forall i :: 0 <= i < |ts| ==> r[i] == ts[i].id
  {
    seq(|ts|, i requires 0 <= i < |ts| => ts[i].id)
  }

  /** The mutex an object stands for. */
  ghost function Value(x: KMutex): Mutex
    reads x
  {
    Mutex(if x.owner == null then Nobody else By(x.owner.id), x.lockCount, x.ownerOrigPrio, Ids(x.waitq))
  }

  class MutexTable {
    const ceiling: int
    const threads: seq<KThread>
    const mutexes: seq<KMutex>
    ghost var doing: seq<Doing>
    ghost var held: seq<seq<Mid>>

    /** The objects bear their places as numbers, and point at objects of the table. */
    ghost predicate Linked()
      reads mutexes
    {
      && (forall i :: 0 <= i < |threads| ==> threads[i].id == i)
      && (forall i :: 0 <= i < |mutexes| ==> mutexes[i].id == i)
      && (forall i :: 0 <= i < |mutexes| ==> mutexes[i].owner == null || mutexes[i].owner in threads)
      && (forall i, j :: 0 <= i < |mutexes| && 0 <= j < |mutexes[i].waitq| ==> mutexes[i].waitq[j] in threads)
    }

    ghost function Prios(): (r: seq<int>)
      reads threads
      ensures |r| == |threads| && forall i :: 0 <= i < |threads| ==> r[i] == threads[i].prio
    {
      seq(|threads|, i requires 0 <= i < |threads| reads threads => threads[i].prio)
    }

    ghost function Values(): (r: seq<Mutex>)
      reads mutexes
      ensures |r| == |mutexes| && forall i :: 0 <= i < |mutexes| ==> r[i] == Value(mutexes[i])
    {
      seq(|mutexes|, i requires 0 <= i < |mutexes| reads mutexes => Value(mutexes[i]))
    }

    /** The state of threads and mutexes this object stands for. */
    ghost function Here(): World
      reads this, threads, mutexes
    {
      World(ceiling, Prios(), doing, Values(), held)
    }

    ghost predicate Valid()
      reads this, threads, mutexes
    {
      Linked() && Ok(Here())
    }

    /** Fresh mutexes, and threads that run. */
    constructor (ceiling: int, threads: seq<KThread>, mutexes: seq<KMutex>)
      requires forall i :: 0 <= i < |threads| ==> threads[i].id == i
      requires forall i :: 0 <= i < |mutexes| ==> mutexes[i].id == i
      requires forall i :: 0 <= i < |mutexes| ==>
          mutexes[i].owner == null && mutexes[i].lockCount == 0 && mutexes[i].waitq == []
      ensures Valid() && Fresh(Here()) && this.ceiling == ceiling && this.threads == threads && this.mutexes == mutexes
    {
      this.ceiling, this.threads, this.mutexes := ceiling, threads, mutexes;
      doing, held := seq(|threads|, _ => Running), seq(|threads|, _ => []);
      new;
      FreshIsOk(Here());
    }

    /** adjust_owner_prio: the owner's priority is set where it differs. */
    method AdjustOwnerPrio(m: KMutex, newPrio: int)
      requires Linked() && m in mutexes && m.owner != null
      modifies m.owner`prio
      ensures m.owner.id < |threads| && Prios() == old(Prios())[m.owner.id := newPrio]
    {
      if m.owner.prio != newPrio {
        m.owner.prio := newPrio;
      }
    }

    /** Where a thread of priority `p` joins the wait queue. */
    method FindSeat(m: KMutex, p: int) returns (i: nat)
      requires Linked() && m in mutexes
      ensures i <= |m.waitq| && i == Seat(Prios(), Ids(m.waitq), p)
    {
      hide Linked, Ids;
      ghost var ids := Ids(m.waitq);
      WaitersMine(m);
      i := 0;
      while i < |m.waitq| && p >= m.waitq[i].prio
        invariant i <= |m.waitq| && i + Seat(Prios(), ids[i..], p) == Seat(Prios(), ids, p)
      {
        PrioOf(m.waitq[i]);
        assert ids[i..][0] == m.waitq[i].id && ids[i..][1..] == ids[i + 1..];
        i := i + 1;
      }
      if i < |m.waitq| {
        PrioOf(m.waitq[i]);
        assert ids[i..][0] == m.waitq[i].id;
      }
    }

    lemma PrioOf(t: KThread)
      requires Linked()
      ensures t in threads ==> t.id < |threads| && threads[t.id] == t && Prios()[t.id] == t.prio
    {
    }

    lemma MutexOf(m: KMutex)
      requires Linked()
      ensures m in mutexes ==> m.id < |mutexes| && mutexes[m.id] == m && Values()[m.id] == Value(m)
    {
    }

    /** A thread and a mutex of the table. */
    ghost predicate Mine(t: KThread, m: KMutex)
      reads mutexes
    {
      Linked() && t in threads && m in mutexes
    }

    /** A write to the fields of a mutex. */
    method Write(m: KMutex, owner: KThread?, count: nat, orig: int, waitq: seq<KThread>)
      requires Linked() && m in mutexes && (owner == null || owner in threads)
      requires forall j :: 0 <= j < |waitq| ==> waitq[j] in threads
      modifies m
      ensures Linked() && Prios() == old(Prios()) && m.id < |mutexes|
      ensures m.owner == owner && m.lockCount == count && m.ownerOrigPrio == orig && m.waitq == waitq
      ensures Values() ==
        old(Values())[m.id := Mutex(if owner == null then Nobody else By(owner.id), count, orig, Ids(waitq))]
    {
      m.owner, m.lockCount, m.ownerOrigPrio, m.waitq := owner, count, orig, waitq;
    }

    /** A write to the wait queue alone. */
    method SetQueue(m: KMutex, waitq: seq<KThread>)
      requires Linked() && m in mutexes && forall j :: 0 <= j < |waitq| ==> waitq[j] in threads
      modifies m
      ensures Linked() && Prios() == old(Prios()) && m.id < |mutexes| && m.owner == old(m.owner)
      ensures Values() == old(Values())[m.id := old(Value(m)).(queue := Ids(waitq))]
    {
      hide Linked, Ids;
      WaitersMine(m);
      Write(m, m.owner, m.lockCount, m.ownerOrigPrio, waitq);
    }

    /** A write to all but the wait queue. */
    method SetOwner(m: KMutex, t: KThread, count: nat, orig: int)
      requires Linked() && m in mutexes && t in threads
      modifies m
      ensures Linked() && Prios() == old(Prios()) && m.id < |mutexes|
      ensures Values() == old(Values())[m.id := old(Value(m)).(owner := By(t.id), count := count, orig := orig)]
    {
      hide Linked, Ids;
      WaitersMine(m);
      Write(m, t, count, orig, m.waitq);
    }

    /** The first part of z_impl_k_mutex_lock: the mutex is free, or the caller's. */
    method Take(t: KThread, m: KMutex)
      requires Mine(t, m) && Known(Here(), t.id, m.id)
      modifies this`held, m
      ensures Linked() && Here() == Mutexes.Take(old(Here()), t.id, m.id)
    {
      hide Linked, Ids;
      PrioOf(t);
      MutexOf(m);
      ghost var h := if m.lockCount == 0 then held[t.id := held[t.id] + [m.id]] else held;
      SetOwner(m, t, m.lockCount + 1, if m.lockCount == 0 then t.prio else m.ownerOrigPrio);
      held := h;
    }

    lemma WaitersMine(m: KMutex)
      requires Linked() && m in mutexes
      ensures forall j :: 0 <= j < |m.waitq| ==> m.waitq[j] in threads
      ensures m.owner == null || m.owner in threads
    {
    }

    /** The owner inherits the priority of a thread that is about to wait. */
    method Lend(t: KThread, m: KMutex)
      requires Mine(t, m) && m.owner != null
      modifies m.owner`prio
      ensures t.id < |threads| && m.owner.id < |threads|
      ensures Prios() == old(Prios())[m.owner.id := Raised(ceiling, old(Prios()[t.id]), old(Prios()[m.owner.id]))]
    {
      PrioOf(t);
      PrioOf(m.owner);
      var newPrio := Inherit(ceiling, t.prio, m.owner.prio);
      if newPrio < m.owner.prio {
        AdjustOwnerPrio(m, newPrio);
      }
    }

    /** The thread queues up by its priority. */
    method QueueUp(t: KThread, m: KMutex)
      requires Mine(t, m) && t.id < |doing|
      modifies this`doing, m
      ensures Linked() && m.owner == old(m.owner) && Prios() == old(Prios()) &&
          doing == old(doing)[t.id := Waiting(m.id)] && m.id < |mutexes| && t.id < |threads|
      ensures var x, i := old(Value(m)), old(Seat(Prios(), Ids(m.waitq), Prios()[t.id]));
        Values() == old(Values())[m.id := x.(queue := x.queue[..i] + [t.id] + x.queue[i..])]
    {
      hide Seat, Linked, Ids;
      PrioOf(t);
      MutexOf(m);
      var i := FindSeat(m, t.prio);
      WaitersMine(m);
      var waitq := m.waitq[..i] + [t] + m.waitq[i..];
      IdsPlace(m.waitq, i, t);
      SetQueue(m, waitq);
      doing := doing[t.id := Waiting(m.id)];
    }

    /** The second part, up to z_pend_curr. */
    method Wait(t: KThread, m: KMutex)
      requires Mine(t, m) && Known(Here(), t.id, m.id) && m.owner != null && m.owner.id < |threads| && m.owner != t
      modifies this`doing, m, m.owner`prio
      ensures Linked() && Here() == Mutexes.Wait(old(Here()), t.id, m.id)
    {
      hide Seat, Raised, Linked;
      MutexOf(m);
      Lend(t, m);
      assert Values() == old(Values());
      QueueUp(t, m);
    }

    /** z_impl_k_mutex_lock up to its wait. */
    method Lock(t: KThread, m: KMutex, noWait: bool) returns (r: LockOutcome)
      requires Valid() && Mine(t, m) && Known(Here(), t.id, m.id) && doing[t.id] == Running
      modifies this, m, threads
      ensures Valid() && Here() == Mutexes.Lock(old(Here()), t.id, m.id, noWait)
      ensures r.Got? <==> m.owner == t
      ensures m.lockCount == if r.Got? then old(m.lockCount) + 1 else old(m.lockCount)
      ensures r.Busy? <==> noWait && old(m.owner) != null && old(m.owner) != t
      ensures r.Waits? <==> doing[t.id] == Waiting(m.id)
    {
      LockKeeps(Here(), t.id, m.id, noWait);
      assert OwnerOk(Here(), m.id);
      if m.owner != null {
        PrioOf(m.owner);
      }
      PrioOf(t);
      hide Ok, Mutexes.Take, Mutexes.Wait, Linked, OwnerOk;
      ghost var w := Here();
      if m.lockCount == 0 || m.owner == t {
        Take(t, m);
        TakeOwns(w, t.id, m.id);
        r := Got;
      } else if noWait {
        r := Busy;
      } else {
        Wait(t, m);
        WaitWaits(w, t.id, m.id);
        r := Waits;
      }
    }

    /** A thread leaves the wait queue. */
    method Leave(t: KThread, m: KMutex)
      requires Mine(t, m)
      modifies m
      ensures Linked() && Prios() == old(Prios()) && m.id < |mutexes|
      ensures Values() == old(Values())[m.id := old(Value(m)).(queue := Remove(old(Ids(m.waitq)), t.id))]
    {
      hide Remove, Linked, Ids, Without;
      MutexOf(m);
      WaitersMine(m);
      var i := Locate(t, m);
      IdsRemove(m.waitq, t.id);
      if i < |m.waitq| {
        var rest := Without(m.waitq, i);
        WithoutIn(m.waitq, i);
        assert forall j :: 0 <= j < |rest| ==> rest[j] in m.waitq;
        SetQueue(m, rest);
      } else {
        SetQueue(m, m.waitq);
      }
    }

    /** The timeout of a waiting thread takes it off the queue. */
    method TimeOut(t: KThread, m: KMutex)
      requires Valid() && Mine(t, m) && Known(Here(), t.id, m.id) && doing[t.id] == Waiting(m.id)
      modifies this`doing, m
      ensures Valid() && Here() == Mutexes.TimeOut(old(Here()), t.id, m.id)
    {
      hide Ok, Remove, Linked, Ids;
      TimeOutKeeps(Here(), t.id, m.id);
      MutexOf(m);
      Leave(t, m);
      doing := doing[t.id := Late(m.id)];
      assert Here() == Mutexes.TimeOut(old(Here()), t.id, m.id);
    }

    /** The place of a thread in the wait queue, or the length of the queue. */
    method Locate(t: KThread, m: KMutex) returns (i: nat)
      requires Mine(t, m)
      ensures i == Index(Ids(m.waitq), t.id)
    {
      hide Linked, Ids;
      ghost var ids := Ids(m.waitq);
      PrioOf(t);
      WaitersMine(m);
      i := 0;
      while i < |m.waitq| && m.waitq[i] != t
        invariant i <= |m.waitq| && i + Index(ids[i..], t.id) == Index(ids, t.id)
      {
        PrioOf(m.waitq[i]);
        assert ids[i..][0] == m.waitq[i].id && ids[i..][1..] == ids[i + 1..];
        i := i + 1;
      }
      if i < |m.waitq| {
        assert ids[i..][0] == t.id;
      }
    }

    /** The rest of z_impl_k_mutex_lock for a thread whose wait timed out; it returns
        -EAGAIN. */
    method GiveUp(t: KThread, m: KMutex)
      requires Valid() && Mine(t, m) && Known(Here(), t.id, m.id) && doing[t.id] == Late(m.id)
      modifies this`doing, threads
      ensures Valid() && Here() == Mutexes.GiveUp(old(Here()), t.id, m.id)
    {
      GiveUpKeeps(Here(), t.id, m.id);
      hide Ok;
      MutexOf(m);
      if m.owner != null {
        PrioOf(m.owner);
        var newPrio := m.ownerOrigPrio;
        if m.waitq != [] {
          assert m.waitq[0] in threads;
          PrioOf(m.waitq[0]);
          newPrio := Inherit(ceiling, m.waitq[0].prio, m.ownerOrigPrio);
        }
        assert newPrio == Lowered(Here(), Value(m));
        AdjustOwnerPrio(m, newPrio);
      }
      doing := doing[t.id := Running];
      assert Values() == old(Values());
      assert Here() == Mutexes.GiveUp(old(Here()), t.id, m.id);
    }

    /** The first waiter takes over. */
    method HandOver(m: KMutex)
      requires Linked() && m in mutexes && m.waitq != [] && |doing| == |held| == |threads|
      modifies this`doing, this`held, m
      ensures Linked() && m.id < |mutexes|
      ensures var w, x := old(Here()), old(Value(m)); var h := x.queue[0];
        && h < |w.prio|
        && Here() == w.(doing := w.doing[h := Running], held := w.held[h := w.held[h] + [m.id]],
                        mutexes := w.mutexes[m.id := x.(owner := By(h), orig := w.prio[h], queue := x.queue[1..])])
    {
      hide Linked, Ids;
      MutexOf(m);
      WaitersMine(m);
      var h, rest := m.waitq[0], m.waitq[1..];
      PrioOf(h);
      IdsTail(m.waitq);
      Write(m, h, m.lockCount, h.prio, rest);
      doing := doing[h.id := Running];
      held := held[h.id := held[h.id] + [m.id]];
    }

    /** The owner lets go: its priority is put back. */
    method LetGo(t: KThread, m: KMutex)
      requires Mine(t, m) && Known(Here(), t.id, m.id) && m.owner == t
      modifies this`held, threads
      ensures Linked() && Known(Here(), t.id, m.id) && Values()[m.id] == Value(m)
      ensures var w := old(Here());
        Here() == w.(prio := w.prio[t.id := w.mutexes[m.id].orig], held := w.held[t.id := Remove(w.held[t.id], m.id)])
    {
      hide Remove, Linked, Ids;
      MutexOf(m);
      PrioOf(t);
      AdjustOwnerPrio(m, m.ownerOrigPrio);
      assert Values() == old(Values());
      held := held[t.id := Remove(held[t.id], m.id)];
    }

    /** The last unlock: the priority is put back and the first waiter takes over. */
    method Release(t: KThread, m: KMutex)
      requires Mine(t, m) && Known(Here(), t.id, m.id) && m.owner == t
      modifies this`doing, this`held, m, threads
      ensures Linked() && Here() == Mutexes.Release(old(Here()), t.id, m.id)
    {
      hide Remove, Linked, Ids;
      ghost var w := Here();
      MutexOf(m);
      LetGo(t, m);
      WaitersMine(m);
      if m.waitq != [] {
        HandOver(m);
      } else {
        Write(m, null, 0, m.ownerOrigPrio, m.waitq);
      }
    }

    /** z_impl_k_mutex_unlock. */
    method Unlock(t: KThread, m: KMutex) returns (r: UnlockOutcome)
      requires Valid() && Mine(t, m) && Known(Here(), t.id, m.id) && doing[t.id] == Running
      modifies this`doing, this`held, m, threads
      ensures Valid() && Here() == Mutexes.Unlock(old(Here()), t.id, m.id)
      ensures r.Done? <==> old(m.owner) == t
      ensures r.NotLocked? <==> old(m.lockCount) == 0
      ensures !r.Done? ==> Here() == old(Here())
    {
      UnlockKeeps(Here(), t.id, m.id);
      MutexOf(m);
      PrioOf(t);
      assert OwnerOk(Here(), m.id);
      if m.owner != null {
        PrioOf(m.owner);
      }
      hide Ok, OwnerOk, Mutexes.Release;
      if m.owner == null {
        return NotLocked;
      }
      if m.owner != t {
        return NotOwner;
      }
      r := Done;
      if m.lockCount > 1 {
        m.lockCount := m.lockCount - 1;
        assert Prios() == old(Prios());
        assert Values() == old(Values())[m.id := Value(m)];
      } else {
        hide Linked;
        Release(t, m);
      }
    }
  }

  lemma {:induction false} IdsPlace(q: seq<KThread>, i: nat, t: KThread)
    requires i <= |q|
    ensures Ids(q[..i] + [t] + q[i..]) == Ids(q)[..i] + [t.id] + Ids(q)[i..]
  {
  }

  lemma {:induction false} IdsRemove(q: seq<KThread>, id: Tid)
    ensures var i := Index(Ids(q), id); Remove(Ids(q), id) == if i < |q| then Ids(Without(q, i)) else Ids(q)
  {
  }

  lemma {:induction false} IdsTail(q: seq<KThread>)
    requires q != []
    ensures Ids(q)[0] == q[0].id && Ids(q[1..]) == Ids(q)[1..]
  {
  }

  lemma {:induction false} FreshIsOk(w: World)
    requires Fresh(w)
    ensures Ok(w)
  {
  }

  lemma {:induction false} TakeOwns(w: World, t: Tid, m: Mid)
    requires Known(w, t, m)
    ensures var w' := Mutexes.Take(w, t, m);
            |w'.mutexes| == |w.mutexes| && w'.mutexes[m].owner == By(t) && w'.doing == w.doing &&
            w'.mutexes[m].count == w.mutexes[m].count + 1
  {
  }

  lemma {:induction false} WaitWaits(w: World, t: Tid, m: Mid)
    requires Known(w, t, m) && w.mutexes[m].owner.By? && w.mutexes[m].owner.t < |w.prio|
    ensures var w' := Mutexes.Wait(w, t, m);
            |w'.mutexes| == |w.mutexes| && w'.mutexes[m].owner == w.mutexes[m].owner &&
            w'.mutexes[m].count == w.mutexes[m].count &&
            w'.doing == w.doing[t := Waiting(m)]
  {
    hide Seat, Raised;
  }

  lemma {:induction false} LockKeeps(w: World, t: Tid, m: Mid, noWait: bool)
    requires Ok(w) && Known(w, t, m) && w.doing[t] == Running
    ensures Ok(Mutexes.Lock(w, t, m, noWait))
  {
    hide Ok, Mutexes.Lock;
    NextKeeps(w, LockCall(t, m, noWait));
  }
}
