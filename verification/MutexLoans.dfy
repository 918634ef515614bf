/** Priority inheritance over any number of mutexes (mutex.c): exactly when a step keeps every
    owner at least as high as every thread that waits for it. */
module MutexLoans {
  import opened Rings
  import opened SchedState
  import opened Mutexes

  /** `p` is at least as high as the priority of thread `q`, up to the ceiling. */
  predicate Matches(w: World, p: int, q: Tid) {
    q < |w.prio| && p <= Capped(w.ceiling, w.prio[q])
  }

  /** The owner of mutex `n` is at least as high as every thread waiting for it. */
  ghost predicate Backed(w: World, n: Mid)
    requires n < |w.mutexes|
  {
    var x := w.mutexes[n];
    x.owner.By? && x.owner.t < |w.prio| ==> forall q :: q in x.queue ==> Matches(w, w.prio[x.owner.t], q)
  }

  ghost predicate AllBacked(w: World) {
    forall n :: 0 <= n < |w.mutexes| ==> Backed(w, n)
  }

  /** Owner `o` at priority `p` would be at least as high as every waiter of what it owns,
      mutex `but` aside. */
  ghost predicate Covers(w: World, o: Tid, p: int, but: int) {
    forall n :: 0 <= n < |w.mutexes| && n != but && w.mutexes[n].owner == By(o) ==>
      forall q :: q in w.mutexes[n].queue ==> Matches(w, p, q)
  }

  /** Thread `o` at priority `p` would not outrank the owner it waits for. */
  ghost predicate Covered(w: World, o: Tid, p: int) {
    forall n ::
      0 <= n < |w.mutexes| && o in w.mutexes[n].queue && w.mutexes[n].owner.By? && w.mutexes[n].owner.t < |w.prio| ==>
      w.prio[w.mutexes[n].owner.t] <= Capped(w.ceiling, p)
  }

  /** The first waiter would be at least as high as those behind it. */
  ghost predicate HeadLeads(w: World, q: seq<Tid>) {
    q != [] && q[0] < |w.prio| ==> forall u :: u in q[1..] ==> Matches(w, w.prio[q[0]], u)
  }

  /** What a step must meet for every loan to stand afterwards: an owner that is raised does
      not itself wait for one it now outranks; one that is lowered still covers all who
      wait for what it keeps; and the thread that takes over leads its queue. */
  ghost predicate Solvent(w: World, e: Event) {
    match e
    case LockCall(t, m, noWait) =>
      Known(w, t, m) ==>
        var x := w.mutexes[m];
        x.count != 0 && x.owner != By(t) && !noWait && x.owner.By? && x.owner.t < |w.prio| ==>
          Covered(w, x.owner.t, Raised(w.ceiling, w.prio[t], w.prio[x.owner.t]))
    case TimedOut(t) => true
    case GivesUp(t) =>
      Legal(w, e) ==>
        var x := w.mutexes[w.doing[t].m];
        x.owner.By? && x.owner.t < |w.prio| ==>
          Covers(w, x.owner.t, Lowered(w, x), -1) && Covered(w, x.owner.t, Lowered(w, x))
    case UnlockCall(t, m) =>
      Known(w, t, m) && w.mutexes[m].owner == By(t) && w.mutexes[m].count <= 1 ==>
        Covers(w, t, w.mutexes[m].orig, m) && HeadLeads(w, w.mutexes[m].queue)
  }

  lemma {:induction false} Owners(w: World, n: Mid)
    requires Ok(w) && n < |w.mutexes|
    ensures var x := w.mutexes[n];
      && (x.owner.By? ==> x.owner.t < |w.prio| && x.owner.t !in x.queue)
      && (forall q :: q in x.queue ==> q < |w.prio| && w.doing[q] == Waiting(n))
      && (x.count == 0 <==> x.owner == Nobody) && Distinct(x.queue)
  {
    assert OwnerOk(w, n) && QueueOk(w, n);
  }

  /** Only the priority of `o` changes. */
  ghost predicate Reprices(w: World, w': World, o: Tid) {
    && |w'.prio| == |w.prio| && o < |w.prio| && w'.ceiling == w.ceiling
    && forall u :: 0 <= u < |w.prio| && u != o ==> w'.prio[u] == w.prio[u]
  }

  /** A mutex whose owner and queue stay as they are, with `o` neither. */
  lemma {:induction false} Untouched(w: World, w': World, o: Tid, n: Mid)
    requires Ok(w) && Reprices(w, w', o) && n < |w.mutexes| == |w'.mutexes| && w'.mutexes[n] == w.mutexes[n]
    requires w.mutexes[n].owner != By(o) && o !in w.mutexes[n].queue
    ensures Backed(w', n) <==> Backed(w, n)
  {
    Owners(w, n);
    hide Ok;
  }

  /** A mutex `o` owns. */
  lemma {:induction false} OwnedBy(w: World, w': World, o: Tid, n: Mid)
    requires Ok(w) && Reprices(w, w', o) && n < |w.mutexes| == |w'.mutexes| && w'.mutexes[n] == w.mutexes[n]
    requires w.mutexes[n].owner == By(o)
    ensures Backed(w', n) <==> forall q :: q in w.mutexes[n].queue ==> Matches(w, w'.prio[o], q)
  {
    Owners(w, n);
    hide Ok;
    assert forall q :: q in w.mutexes[n].queue ==> (Matches(w', w'.prio[o], q) <==> Matches(w, w'.prio[o], q));
  }

  /** A mutex `o` waits for. */
  lemma {:induction false} WaitedFor(w: World, w': World, o: Tid, n: Mid)
    requires Ok(w) && Reprices(w, w', o) && n < |w.mutexes| == |w'.mutexes| && w'.mutexes[n] == w.mutexes[n]
    requires o in w.mutexes[n].queue && Backed(w, n) && w.mutexes[n].owner.By?
    ensures w.mutexes[n].owner.t < |w.prio|
    ensures Backed(w', n) <==> w.prio[w.mutexes[n].owner.t] <= Capped(w.ceiling, w'.prio[o])
  {
    Owners(w, n);
    hide Ok;
    var x := w.mutexes[n];
    assert forall q :: q in x.queue && q != o ==>
        (Matches(w', w'.prio[x.owner.t], q) <==> Matches(w, w.prio[x.owner.t], q));
  }

  /** Repricing `o` without touching any mutex keeps every loan if and only if `o` still
      covers its waiters and is covered itself. */
  lemma {:induction false} Repriced(w: World, w': World, o: Tid)
    requires Ok(w) && AllBacked(w) && Reprices(w, w', o) && w'.mutexes == w.mutexes
    ensures AllBacked(w') <==> Covers(w, o, w'.prio[o], -1) && Covered(w, o, w'.prio[o])
  {
    hide Ok, Backed, Matches, Capped;
    forall n | 0 <= n < |w.mutexes|
      ensures Backed(w', n) <==>
        && (w.mutexes[n].owner == By(o) ==> forall q :: q in w.mutexes[n].queue ==> Matches(w, w'.prio[o], q))
        && (o in w.mutexes[n].queue && w.mutexes[n].owner.By? && w.mutexes[n].owner.t < |w.prio| ==>
              w.prio[w.mutexes[n].owner.t] <= Capped(w.ceiling, w'.prio[o]))
    {
      RepricedAt(w, w', o, n);
    }
  }

  lemma {:induction false} RepricedAt(w: World, w': World, o: Tid, n: Mid)
    requires Ok(w) && Reprices(w, w', o) && n < |w.mutexes| == |w'.mutexes| && w'.mutexes[n] == w.mutexes[n] &&
        Backed(w, n)
    ensures Backed(w', n) <==>
      && (w.mutexes[n].owner == By(o) ==> forall q :: q in w.mutexes[n].queue ==> Matches(w, w'.prio[o], q))
      && (o in w.mutexes[n].queue && w.mutexes[n].owner.By? && w.mutexes[n].owner.t < |w.prio| ==>
            w.prio[w.mutexes[n].owner.t] <= Capped(w.ceiling, w'.prio[o]))
  {
    Owners(w, n);
    var x := w.mutexes[n];
    if x.owner == By(o) {
      hide Ok, Backed, Matches;
      OwnedBy(w, w', o, n);
    } else if o in x.queue {
      if x.owner.By? {
        hide Ok, Backed, Matches;
        WaitedFor(w, w', o, n);
      }
    } else {
      hide Ok, Backed, Matches;
      Untouched(w, w', o, n);
    }
  }

  /** Two worlds of the same prices, and a mutex of the same owner and queue. */
  lemma {:induction false} SameBacking(w: World, w': World, n: Mid)
    requires n < |w.mutexes| == |w'.mutexes| && w'.prio == w.prio && w'.ceiling == w.ceiling
    requires w'.mutexes[n].owner == w.mutexes[n].owner && w'.mutexes[n].queue == w.mutexes[n].queue
    ensures Backed(w', n) <==> Backed(w, n)
  {
    assert forall p, q :: Matches(w', p, q) <==> Matches(w, p, q);
    hide Matches;
  }

  lemma {:induction false} AllSameBacking(w: World, w': World)
    requires |w'.mutexes| == |w.mutexes| && w'.prio == w.prio && w'.ceiling == w.ceiling
    requires forall n :: 0 <= n < |w.mutexes| ==>
      w'.mutexes[n].owner == w.mutexes[n].owner && w'.mutexes[n].queue == w.mutexes[n].queue
    ensures AllBacked(w') <==> AllBacked(w)
  {
    hide Backed;
    forall n | 0 <= n < |w.mutexes| ensures Backed(w', n) <==> Backed(w, n) {
      SameBacking(w, w', n);
    }
  }

  lemma {:induction false} TakeBacked(w: World, t: Tid, m: Mid)
    requires Ok(w) && AllBacked(w) && Known(w, t, m) && (w.mutexes[m].count == 0 || w.mutexes[m].owner == By(t))
    ensures AllBacked(Take(w, t, m))
  {
    var w' := Take(w, t, m);
    assert OwnerOk(w, m);
    forall n | 0 <= n < |w'.mutexes| ensures Backed(w', n) {
      assert Backed(w, n);
      if n != m || w.mutexes[m].count != 0 {
        SameBacking(w, w', n);
      }
    }
  }

  lemma {:induction false} TimeOutBacked(w: World, t: Tid, m: Mid)
    requires Ok(w) && AllBacked(w) && Known(w, t, m)
    ensures AllBacked(TimeOut(w, t, m))
  {
    var w' := TimeOut(w, t, m);
    Owners(w, m);
    RemoveIn(w.mutexes[m].queue, t);
    hide Remove, Ok;
    forall n | 0 <= n < |w'.mutexes| ensures Backed(w', n) {
      assert Backed(w, n);
      if n != m {
        SameBacking(w, w', n);
      }
    }
  }

  /** The owner after it was raised covers all its waiters, the new one included. */
  lemma {:induction false} RaisedCovers(w: World, t: Tid, m: Mid)
    requires Ok(w) && AllBacked(w) && Known(w, t, m) && w.mutexes[m].owner.By?
    ensures w.mutexes[m].owner.t < |w.prio|
    ensures var o := w.mutexes[m].owner.t;
      var p := Raised(w.ceiling, w.prio[t], w.prio[o]); Covers(w, o, p, -1) && Matches(w, p, t)
  {
    Owners(w, m);
    var o := w.mutexes[m].owner.t;
    var p := Raised(w.ceiling, w.prio[t], w.prio[o]);
    assert p <= w.prio[o] && p <= Capped(w.ceiling, w.prio[t]);
    hide Ok, Raised, Capped;
    forall n | 0 <= n < |w.mutexes| && w.mutexes[n].owner == By(o)
      ensures forall q :: q in w.mutexes[n].queue ==> Matches(w, p, q)
    {
      assert Backed(w, n);
    }
  }

  lemma {:induction false} WaitBackedIff(w: World, t: Tid, m: Mid)
    requires Ok(w) && AllBacked(w) && Known(w, t, m) && w.doing[t] == Running
    requires w.mutexes[m].count != 0 && w.mutexes[m].owner != By(t)
    ensures w.mutexes[m].owner.By? && w.mutexes[m].owner.t < |w.prio|
    ensures var o := w.mutexes[m].owner.t;
      AllBacked(Wait(w, t, m)) <==> Covered(w, o, Raised(w.ceiling, w.prio[t], w.prio[o]))
  {
    Owners(w, m);
    var x, w' := w.mutexes[m], Wait(w, t, m);
    var o := x.owner.t;
    var priced := w.(prio := w'.prio);
    hide Ok, Raised, Seat;
    RaisedCovers(w, t, m);
    Repriced(w, priced, o);
    Joins(w, priced, t, m);
  }

  /** One more waiter, whom the owner matches. */
  lemma {:induction false} Joins(w: World, priced: World, t: Tid, m: Mid)
    requires Known(w, t, m) && w.mutexes[m].owner.By? && w.mutexes[m].owner.t < |w.prio| && w.mutexes[m].owner.t != t
    requires priced == w.(prio := Wait(w, t, m).prio)
    requires Matches(w, priced.prio[w.mutexes[m].owner.t], t)
    ensures AllBacked(Wait(w, t, m)) <==> AllBacked(priced)
  {
    var x, w' := w.mutexes[m], Wait(w, t, m);
    var i := Seat(w'.prio, x.queue, w'.prio[t]);
    PlacedIn(x.queue, i, t);
    hide Raised, Seat, Backed;
    forall n | 0 <= n < |w.mutexes| ensures Backed(w', n) <==> Backed(priced, n) {
      if n != m {
        SameBacking(priced, w', n);
      } else {
        OneMore(priced, w', t, m);
      }
    }
  }

  lemma {:induction false} OneMore(w: World, w': World, t: Tid, m: Mid)
    requires m < |w.mutexes| == |w'.mutexes| && w'.prio == w.prio && w'.ceiling == w.ceiling
    requires w.mutexes[m].owner.By? && w'.mutexes[m].owner == w.mutexes[m].owner && w.mutexes[m].owner.t < |w.prio|
    requires forall q :: q in w'.mutexes[m].queue <==> q in w.mutexes[m].queue || q == t
    requires Matches(w, w.prio[w.mutexes[m].owner.t], t)
    ensures Backed(w', m) <==> Backed(w, m)
  {
    assert forall p, q :: Matches(w', p, q) <==> Matches(w, p, q);
    hide Matches;
  }

  /** After a release every loan stands if and only if the thread still covers those who
      wait for what it keeps, and the new owner leads its queue. */
  lemma {:induction false} ReleaseBackedIff(w: World, t: Tid, m: Mid)
    requires Ok(w) && AllBacked(w) && Known(w, t, m) && w.doing[t] == Running && w.mutexes[m].owner == By(t)
    ensures AllBacked(Release(w, t, m)) <==> Covers(w, t, w.mutexes[m].orig, m) && HeadLeads(w, w.mutexes[m].queue)
  {
    var x, w' := w.mutexes[m], Release(w, t, m);
    Owners(w, m);
    assert x.queue != [] ==> x.queue[0] in x.queue;
    hide Remove, Backed;
    NewOwner(w, t, m);
    forall n | 0 <= n < |w.mutexes| && n != m
      ensures Backed(w', n) <==>
          (w.mutexes[n].owner == By(t) ==> forall q :: q in w.mutexes[n].queue ==> Matches(w, x.orig, q))
    {
      LoanKept(w, t, m, n);
    }
    hide Ok, Matches, HeadLeads;
  }

  /** Another mutex keeps its loans through the release of `m` if and only if it is someone
      else's, or what the thread is left with, `orig` of `m`, matches every waiter. */
  lemma {:induction false} LoanKept(w: World, t: Tid, m: Mid, n: Mid)
    requires Ok(w) && AllBacked(w) && Known(w, t, m) && w.doing[t] == Running && w.mutexes[m].owner == By(t)
    requires n < |w.mutexes| && n != m
    ensures |Release(w, t, m).mutexes| == |w.mutexes|
    ensures Backed(Release(w, t, m), n) <==>
      (w.mutexes[n].owner == By(t) ==> forall q :: q in w.mutexes[n].queue ==> Matches(w, w.mutexes[m].orig, q))
  {
    var w' := Release(w, t, m);
    Owners(w, n);
    Owners(w, m);
    assert t !in w.mutexes[n].queue;
    assert Backed(w, n) && Reprices(w, w', t) && w'.mutexes[n] == w.mutexes[n] by { hide Remove, Ok, Backed; }
    assert w'.prio[t] == w.mutexes[m].orig by { hide Remove, Ok, Backed; }
    hide Remove, Ok, Backed, Matches, Release;
    RepricedAt(w, w', t, n);
  }

  lemma {:induction false} NewOwner(w: World, t: Tid, m: Mid)
    requires Ok(w) && Known(w, t, m) && w.mutexes[m].owner == By(t)
    ensures |Release(w, t, m).mutexes| == |w.mutexes|
    ensures Backed(Release(w, t, m), m) <==> HeadLeads(w, w.mutexes[m].queue)
  {
    var q, w' := w.mutexes[m].queue, Release(w, t, m);
    Owners(w, m);
    hide Remove, Ok;
    if q != [] {
      assert q[0] in q;
      assert forall u :: u in q[1..] ==> u in q;
      assert forall p, u :: u in q ==> (Matches(w', p, u) <==> Matches(w, p, u));
      hide Matches;
    }
  }

  lemma {:induction false} GiveUpBackedIff(w: World, t: Tid, m: Mid)
    requires Ok(w) && AllBacked(w) && Known(w, t, m)
    ensures AllBacked(GiveUp(w, t, m)) <==>
      var x := w.mutexes[m];
      x.owner.By? && x.owner.t < |w.prio| ==>
          Covers(w, x.owner.t, Lowered(w, x), -1) && Covered(w, x.owner.t, Lowered(w, x))
  {
    var x, w' := w.mutexes[m], GiveUp(w, t, m);
    hide Ok, Backed, Lowered, Covers, Covered;
    if x.owner.By? && x.owner.t < |w.prio| {
      Repriced(w, w.(prio := w'.prio), x.owner.t);
      AllSameBacking(w.(prio := w'.prio), w');
    } else {
      AllSameBacking(w, w');
    }
  }

  /** Every step keeps every loan, an owner at least as high as whoever waits for it, if and
      only if it is solvent. */
  lemma {:induction false} NextBackedIff(w: World, e: Event)
    requires Ok(w) && AllBacked(w) && Legal(w, e)
    ensures AllBacked(Next(w, e)) <==> Solvent(w, e)
  {
    match e
    case LockCall(t, m, noWait) => {
      Owners(w, m);
      hide Ok, AllBacked, Covered;
      var x := w.mutexes[m];
      if x.count == 0 || x.owner == By(t) {
        TakeBacked(w, t, m);
      } else if !noWait {
        WaitBackedIff(w, t, m);
      }
    }
    case TimedOut(t) => {
      hide Ok, AllBacked;
      TimeOutBacked(w, t, w.doing[t].m);
    }
    case GivesUp(t) => {
      hide Ok, AllBacked, Covered, Covers;
      GiveUpBackedIff(w, t, w.doing[t].m);
    }
    case UnlockCall(t, m) => {
      hide Ok, AllBacked, Covers, HeadLeads;
      var x := w.mutexes[m];
      if x.owner == By(t) {
        if x.count > 1 {
          AllSameBacking(w, Unlock(w, t, m));
        } else {
          ReleaseBackedIff(w, t, m);
        }
      }
    }
  }

  ghost predicate AllSolvent(w: World, es: seq<Event>)
    decreases |es|
  {
    es == [] || (Solvent(w, es[0]) && (Legal(w, es[0]) ==> AllSolvent(Next(w, es[0]), es[1..])))
  }

  /** In every run over any number of mutexes all of whose steps are solvent, every owner is
      at least as high as every thread that waits for it, up to the ceiling. */
  lemma {:induction false} LoansStand(w: World, es: seq<Event>, w': World)
    requires Ok(w) && AllBacked(w) && Reaches(w, es, w') && AllSolvent(w, es)
    ensures Ok(w') && AllBacked(w')
    decreases |es|
  {
    if es != [] {
      hide Ok, AllBacked, Next, Legal, Solvent;
      NextKeeps(w, es[0]);
      NextBackedIff(w, es[0]);
      LoansStand(Next(w, es[0]), es[1..], w');
    }
  }

  lemma {:induction false} FreshBacked(w: World)
    requires Fresh(w)
    ensures AllBacked(w)
  {
  }

  /** The same from fresh mutexes on. */
  lemma {:induction false} LoansStandFromFresh(w: World, es: seq<Event>, w': World)
    requires Fresh(w) && Reaches(w, es, w') && AllSolvent(w, es)
    ensures AllBacked(w')
  {
    FreshBacked(w);
    assert Ok(w);
    LoansStand(w, es, w');
  }
}
