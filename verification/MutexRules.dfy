/** The two rules at the head of mutex.c: mutexes are released in reverse order, and a mutex
    is acquired after the priorities lent through earlier ones. Together they keep every loan
    through every release. */
module MutexRules {
  import opened Rings
  import opened SchedState
  import opened Mutexes
  import opened MutexRuns
  import opened MutexLoans

  /** Whoever waits for `n` lent its priority before mutex `m` was acquired: what the owner had
      then matches it. */
  ghost predicate Rung(w: World, n: Mid, m: Mid) {
    n < |w.mutexes| && m < |w.mutexes| ==> forall q :: q in w.mutexes[n].queue ==> Matches(w, w.mutexes[m].orig, q)
  }

  ghost predicate LadderOf(w: World, held: seq<Mid>) {
    forall i, j :: 0 <= i < j < |held| ==> Rung(w, held[i], held[j])
  }

  ghost predicate Ladder(w: World) {
    forall o :: 0 <= o < |w.held| ==> LadderOf(w, w.held[o])
  }

  /** A thread of priority `p` may wait for `n`: its owner has acquired nothing since at a lower
      priority than that. */
  ghost predicate Suits(w: World, n: Mid, p: int) {
    forall o, i, j ::
      0 <= o < |w.held| && 0 <= i < j < |w.held[o]| && w.held[o][i] == n && w.held[o][j] < |w.mutexes| ==>
      w.mutexes[w.held[o][j]].orig <= Capped(w.ceiling, p)
  }

  /** ... and so for every mutex thread `o` waits for. */
  ghost predicate SuitsAll(w: World, o: Tid, p: int) {
    forall n :: 0 <= n < |w.mutexes| && o in w.mutexes[n].queue ==> Suits(w, n, p)
  }

  /** The second rule: priority is lent through a mutex only while nothing acquired since would
      take it away. */
  ghost predicate LentInTime(w: World, e: Event) {
    match e
    case LockCall(t, m, noWait) =>
      Known(w, t, m) ==>
        var x := w.mutexes[m];
        x.count != 0 && x.owner != By(t) && !noWait && x.owner.By? && x.owner.t < |w.prio| ==>
          Suits(w, m, w.prio[t]) && SuitsAll(w, x.owner.t, Raised(w.ceiling, w.prio[t], w.prio[x.owner.t]))
    case TimedOut(t) => true
    case GivesUp(t) =>
      Legal(w, e) ==>
        var x := w.mutexes[w.doing[t].m];
        x.owner.By? && x.owner.t < |w.prio| ==> SuitsAll(w, x.owner.t, Lowered(w, x))
    case UnlockCall(t, m) => true
  }

  lemma {:induction false} HeldReal(w: World, o: Tid)
    requires Ok(w) && o < |w.held|
    ensures Distinct(w.held[o])
    ensures forall i :: 0 <= i < |w.held[o]| ==> w.held[o][i] < |w.mutexes| && w.mutexes[w.held[o][i]].owner == By(o)
  {
    assert HeldOk(w, o);
    assert forall i :: 0 <= i < |w.held[o]| ==> w.held[o][i] in w.held[o];
  }

  /** Under both rules a release leaves the thread covering all who wait for what it keeps. */
  lemma {:induction false} TopCovers(w: World, t: Tid, m: Mid)
    requires Ok(w) && Ladder(w) && Known(w, t, m) && w.mutexes[m].owner == By(t)
    requires w.held[t] != [] && w.held[t][|w.held[t]| - 1] == m
    ensures Covers(w, t, w.mutexes[m].orig, m)
  {
    var h := w.held[t];
    assert HeldOk(w, t) && LadderOf(w, h);
    forall n | 0 <= n < |w.mutexes| && n != m && w.mutexes[n].owner == By(t)
      ensures forall q :: q in w.mutexes[n].queue ==> Matches(w, w.mutexes[m].orig, q)
    {
      assert n in h;
      var i :| 0 <= i < |h| && h[i] == n;
      assert Rung(w, h[i], h[|h| - 1]);
    }
  }

  // ---- the ladder is kept ------------------------------------------------------------------------------

  /** Mutexes `n` and `m` with the same waiters, priorities and orig. */
  lemma {:induction false} SameRung(w: World, w': World, n: Mid, m: Mid)
    requires Rung(w, n, m) && |w'.mutexes| == |w.mutexes| && |w'.prio| == |w.prio| && w'.ceiling == w.ceiling
    requires n < |w.mutexes| && m < |w.mutexes| && w'.mutexes[m].orig == w.mutexes[m].orig
    requires forall q :: q in w'.mutexes[n].queue ==> q in w.mutexes[n].queue && q < |w.prio| && w'.prio[q] == w.prio[q]
    ensures Rung(w', n, m)
  {
  }

  /** The lists of held mutexes stay, and so does every rung. */
  lemma {:induction false} SameLadder(w: World, w': World)
    requires Ok(w) && Ladder(w) && w'.held == w.held
    requires forall o, i, j :: 0 <= o < |w.held| && 0 <= i < j < |w.held[o]| ==> Rung(w', w.held[o][i], w.held[o][j])
    ensures Ladder(w')
  {
    hide Rung;
  }

  lemma {:induction false} RungAt(w: World, o: Tid, i: nat, j: nat)
    requires Ladder(w) && o < |w.held| && i < j < |w.held[o]|
    ensures Rung(w, w.held[o][i], w.held[o][j])
  {
    hide Rung;
    assert LadderOf(w, w.held[o]);
  }

  /** A list that grows by mutex `m`, got at a priority that matches all waiters so far. */
  lemma {:induction false} Grows(w: World, held: seq<Mid>, m: Mid)
    requires LadderOf(w, held) && forall i :: 0 <= i < |held| ==> Rung(w, held[i], m)
    ensures LadderOf(w, held + [m])
  {
    hide Rung;
  }

  /** Every mutex a thread owns is backed by its priority. */
  lemma {:induction false} OwnMatches(w: World, o: Tid, i: nat, q: Tid)
    requires Ok(w) && AllBacked(w) && o < |w.held| && i < |w.held[o]|
    requires w.held[o][i] < |w.mutexes| ==> q in w.mutexes[w.held[o][i]].queue
    ensures o < |w.prio| && Matches(w, w.prio[o], q)
  {
    HeldReal(w, o);
    assert Backed(w, w.held[o][i]);
  }

  lemma {:induction false} TakeLadder(w: World, t: Tid, m: Mid)
    requires Ok(w) && AllBacked(w) && Ladder(w) && Known(w, t, m) &&
        (w.mutexes[m].count == 0 || w.mutexes[m].owner == By(t))
    ensures Ladder(Take(w, t, m))
  {
    var w' := Take(w, t, m);
    Owners(w, m);
    forall o | 0 <= o < |w'.held| ensures LadderOf(w', w'.held[o]) {
      HeldReal(w, o);
      forall i, j | 0 <= i < j < |w.held[o]| ensures Rung(w', w.held[o][i], w.held[o][j]) {
        RungAt(w, o, i, j);
        SameRungOf(w, w', w.held[o][i], w.held[o][j], m);
      }
      if o == t && w.mutexes[m].count == 0 {
        forall i | 0 <= i < |w.held[t]| ensures Rung(w', w.held[t][i], m) {
          GotNow(w, w', t, i, m);
        }
        Grows(w', w.held[t], m);
      }
    }
  }

  /** A mutex taken, or handed over, at the priority its thread has now. */
  lemma {:induction false} GotNow(w: World, w': World, t: Tid, i: nat, m: Mid)
    requires Ok(w) && AllBacked(w) && t < |w.held| && i < |w.held[t]| && w.held[t][i] != m &&
        m < |w.mutexes| == |w'.mutexes|
    requires t < |w.prio| && w'.ceiling == w.ceiling && |w'.prio| == |w.prio| && w'.mutexes[m].orig == w.prio[t]
    requires w.held[t][i] < |w.mutexes| ==> w'.mutexes[w.held[t][i]] == w.mutexes[w.held[t][i]]
    requires w.held[t][i] < |w.mutexes| ==>
      forall q :: q in w.mutexes[w.held[t][i]].queue && q < |w.prio| ==> w'.prio[q] == w.prio[q]
    ensures Rung(w', w.held[t][i], m)
  {
    HeldReal(w, t);
    var n := w.held[t][i];
    forall q | q in w.mutexes[n].queue ensures Matches(w', w'.mutexes[m].orig, q) {
      OwnMatches(w, t, i, q);
    }
  }

  /** Mutex `x` was taken by a thread or a mutex just counted: its waiters stay, and its orig
      unless it was free. */
  lemma {:induction false} SameRungOf(w: World, w': World, n: Mid, m: Mid, x: Mid)
    requires Ok(w) && Rung(w, n, m) && n < |w.mutexes| == |w'.mutexes| && m < |w.mutexes| && x < |w.mutexes|
    requires w'.prio == w.prio && w'.ceiling == w.ceiling && w'.mutexes[x].queue == w.mutexes[x].queue
    requires forall y :: 0 <= y < |w.mutexes| && y != x ==> w'.mutexes[y] == w.mutexes[y]
    requires w'.mutexes[x].orig == w.mutexes[x].orig || w.mutexes[x].owner == Nobody
    requires w.mutexes[m].owner.By?
    ensures Rung(w', n, m)
  {
    Owners(w, n);
    hide Ok;
    SameRung(w, w', n, m);
  }

  lemma {:induction false} TimeOutLadder(w: World, t: Tid, m: Mid)
    requires Ok(w) && Ladder(w) && Known(w, t, m)
    ensures Ladder(TimeOut(w, t, m))
  {
    var w' := TimeOut(w, t, m);
    Owners(w, m);
    RemoveIn(w.mutexes[m].queue, t);
    hide Remove;
    forall o, i, j | 0 <= o < |w.held| && 0 <= i < j < |w.held[o]| ensures Rung(w', w.held[o][i], w.held[o][j]) {
      HeldReal(w, o);
      RungAt(w, o, i, j);
      Owners(w, w.held[o][i]);
      SameRung(w, w', w.held[o][i], w.held[o][j]);
    }
    SameLadder(w, w');
  }

  /** A rung after `o` was repriced to a priority that suits every mutex it waits for, and
      perhaps `t` has come to wait for `x`, which suits it. */
  lemma {:induction false} RungRepriced(w: World, w': World, u: Tid, i: nat, j: nat, o: Tid, t: Tid, x: Mid)
    requires Ok(w) && Ladder(w) && u < |w.held| && i < j < |w.held[u]| && Reprices(w, w', o) &&
        |w'.mutexes| == |w.mutexes|
    requires SuitsAll(w, o, w'.prio[o]) && x < |w.mutexes| && t < |w.prio| && t != o
    requires forall n :: 0 <= n < |w.mutexes| ==> w'.mutexes[n].orig == w.mutexes[n].orig
    requires forall n, q :: 0 <= n < |w.mutexes| && q in w'.mutexes[n].queue ==>
        q in w.mutexes[n].queue || (n == x && q == t)
    requires (exists q :: q in w'.mutexes[x].queue && q !in w.mutexes[x].queue) ==> Suits(w, x, w.prio[t])
    ensures Rung(w', w.held[u][i], w.held[u][j])
  {
    HeldReal(w, u);
    RungAt(w, u, i, j);
    var n, m := w.held[u][i], w.held[u][j];
    Owners(w, n);
    hide Ok, Ladder;
    forall q | q in w'.mutexes[n].queue ensures Matches(w', w'.mutexes[m].orig, q) {
      if q in w.mutexes[n].queue {
        assert Matches(w, w.mutexes[m].orig, q);
        if q == o {
          assert Suits(w, n, w'.prio[o]);
        }
      } else {
        assert Suits(w, x, w.prio[t]);
      }
    }
  }

  lemma {:induction false} WaitLadder(w: World, t: Tid, m: Mid)
    requires Ok(w) && Ladder(w) && Known(w, t, m) && w.mutexes[m].owner.By? && w.mutexes[m].owner != By(t)
    requires w.mutexes[m].owner.t < |w.prio| && Suits(w, m, w.prio[t])
    requires SuitsAll(w, w.mutexes[m].owner.t, Raised(w.ceiling, w.prio[t], w.prio[w.mutexes[m].owner.t]))
    ensures Ladder(Wait(w, t, m))
  {
    var w', x := Wait(w, t, m), w.mutexes[m];
    PlacedIn(x.queue, Seat(w'.prio, x.queue, w'.prio[t]), t);
    hide Ok, Ladder, Suits, SuitsAll, Seat, Raised;
    forall u, i, j | 0 <= u < |w.held| && 0 <= i < j < |w.held[u]| ensures Rung(w', w.held[u][i], w.held[u][j]) {
      RungRepriced(w, w', u, i, j, x.owner.t, t, m);
    }
    SameLadder(w, w');
  }

  lemma {:induction false} GiveUpLadder(w: World, t: Tid, m: Mid)
    requires Ok(w) && Ladder(w) && Known(w, t, m)
    requires var x := w.mutexes[m]; x.owner.By? && x.owner.t < |w.prio| ==> SuitsAll(w, x.owner.t, Lowered(w, x))
    ensures Ladder(GiveUp(w, t, m))
  {
    var w', x := GiveUp(w, t, m), w.mutexes[m];
    hide Ok, Ladder, Suits, SuitsAll, Lowered;
    forall u, i, j | 0 <= u < |w.held| && 0 <= i < j < |w.held[u]| ensures Rung(w', w.held[u][i], w.held[u][j]) {
      if x.owner.By? && x.owner.t < |w.prio| {
        RungOnlyRepriced(w, w', u, i, j, x.owner.t);
      } else {
        RungAt(w, u, i, j);
      }
    }
    SameLadder(w, w');
  }

  lemma {:induction false} RungOnlyRepriced(w: World, w': World, u: Tid, i: nat, j: nat, o: Tid)
    requires Ok(w) && Ladder(w) && u < |w.held| && i < j < |w.held[u]| && Reprices(w, w', o) && w'.mutexes == w.mutexes
    requires SuitsAll(w, o, w'.prio[o])
    ensures Rung(w', w.held[u][i], w.held[u][j])
  {
    HeldReal(w, u);
    RungAt(w, u, i, j);
    var n, m := w.held[u][i], w.held[u][j];
    Owners(w, n);
    hide Ok, Ladder;
    forall q | q in w.mutexes[n].queue ensures Matches(w', w'.mutexes[m].orig, q) {
      assert Matches(w, w.mutexes[m].orig, q);
      if q == o {
        assert Suits(w, n, w'.prio[o]);
      }
    }
  }

  /** A release leaves the rungs between other mutexes alone. */
  lemma {:induction false} RungKept(w: World, t: Tid, m: Mid, u: Tid, i: nat, j: nat)
    requires Ok(w) && Ladder(w) && Known(w, t, m) && w.doing[t] == Running && w.mutexes[m].owner == By(t)
    requires u < |w.held| && i < j < |w.held[u]| && w.held[u][i] != m && w.held[u][j] != m
    ensures Rung(Release(w, t, m), w.held[u][i], w.held[u][j])
  {
    var w' := Release(w, t, m);
    HeldReal(w, u);
    RungAt(w, u, i, j);
    Owners(w, w.held[u][i]);
    assert Reprices(w, w', t) && |w'.mutexes| == |w.mutexes| by { hide Remove, Ok, Ladder; }
    assert forall n :: 0 <= n < |w.mutexes| && n != m ==> w'.mutexes[n] == w.mutexes[n] by { hide Remove, Ok, Ladder; }
    hide Release, Ok, Ladder;
    SameRung(w, w', w.held[u][i], w.held[u][j]);
  }

  lemma {:induction false} ReleaseLadder(w: World, t: Tid, m: Mid)
    requires Ok(w) && AllBacked(w) && Ladder(w) && Known(w, t, m) && w.doing[t] == Running &&
        w.mutexes[m].owner == By(t)
    ensures Ladder(Release(w, t, m))
  {
    var w' := Release(w, t, m);
    forall u | 0 <= u < |w'.held| ensures LadderOf(w', w'.held[u]) {
      ReleaseLadderOf(w, t, m, u);
    }
  }

  lemma {:induction false} ReleaseLadderOf(w: World, t: Tid, m: Mid, u: Tid)
    requires Ok(w) && AllBacked(w) && Ladder(w) && Known(w, t, m) && w.doing[t] == Running &&
        w.mutexes[m].owner == By(t)
    requires u < |w.held|
    ensures u < |Release(w, t, m).held| && LadderOf(Release(w, t, m), Release(w, t, m).held[u])
  {
    Owners(w, m);
    HeldAfter(w, t, m, u);
    hide Ok, AllBacked, Ladder, Rung, LadderOf, Release, Remove;
    var h := w.held[u];
    if u == t {
      OwnLadder(w, t, m);
    } else {
      OtherLadder(w, t, m, u);
      if w.mutexes[m].queue != [] && w.mutexes[m].queue[0] == u {
        NewRungs(w, t, m);
        Grows(Release(w, t, m), h, m);
      }
    }
  }

  lemma {:induction false} HeldAfter(w: World, t: Tid, m: Mid, u: Tid)
    requires Ok(w) && Known(w, t, m) && w.mutexes[m].owner == By(t) && u < |w.held|
    ensures var w', q := Release(w, t, m), w.mutexes[m].queue;
      && |w'.held| == |w.held| && (q != [] ==> q[0] < |w.held| && q[0] != t)
      && w'.held[u] ==
         if u == t then Remove(w.held[t], m)
         else if q != [] && q[0] == u then w.held[u] + [m]
         else w.held[u]
  {
    Owners(w, m);
    var q := w.mutexes[m].queue;
    assert q != [] ==> q[0] in q;
    hide Remove, Ok;
  }

  lemma {:induction false} OwnLadder(w: World, t: Tid, m: Mid)
    requires Ok(w) && Ladder(w) && Known(w, t, m) && w.doing[t] == Running && w.mutexes[m].owner == By(t)
    ensures LadderOf(Release(w, t, m), Remove(w.held[t], m))
  {
    var w', h := Release(w, t, m), w.held[t];
    HeldReal(w, t);
    var p, r := Index(h, m), Remove(h, m);
    assert forall i :: 0 <= i < |r| ==> r[i] == h[if p < |h| && i >= p then i + 1 else i];
    RemoveIn(h, m);
    hide Ok, Ladder, Rung, Release, Remove;
    forall i, j | 0 <= i < j < |r| ensures Rung(w', r[i], r[j]) {
      var a, b := if p < |h| && i >= p then i + 1 else i, if p < |h| && j >= p then j + 1 else j;
      assert r[i] in r && r[j] in r;
      RungKept(w, t, m, t, a, b);
    }
  }

  lemma {:induction false} OtherLadder(w: World, t: Tid, m: Mid, u: Tid)
    requires Ok(w) && Ladder(w) && Known(w, t, m) && w.doing[t] == Running && w.mutexes[m].owner == By(t)
    requires u < |w.held| && u != t
    ensures LadderOf(Release(w, t, m), w.held[u])
  {
    HeldReal(w, u);
    hide Ok, Ladder, Rung, Release;
    forall i, j | 0 <= i < j < |w.held[u]| ensures Rung(Release(w, t, m), w.held[u][i], w.held[u][j]) {
      RungKept(w, t, m, u, i, j);
    }
  }

  /** The thread that takes over gets the mutex at the priority it has. */
  lemma {:induction false} NewRungs(w: World, t: Tid, m: Mid)
    requires Ok(w) && AllBacked(w) && Known(w, t, m) && w.doing[t] == Running && w.mutexes[m].owner == By(t)
    requires w.mutexes[m].queue != []
    ensures var u := w.mutexes[m].queue[0];
      u < |w.held| && forall i :: 0 <= i < |w.held[u]| ==> Rung(Release(w, t, m), w.held[u][i], m)
  {
    var w', u := Release(w, t, m), w.mutexes[m].queue[0];
    Owners(w, m);
    assert u in w.mutexes[m].queue;
    HeldReal(w, u);
    assert Reprices(w, w', t) && |w'.mutexes| == |w.mutexes| && w'.mutexes[m].orig == w.prio[u] by { hide Remove, Ok; }
    assert forall n :: 0 <= n < |w.mutexes| && n != m ==> w'.mutexes[n] == w.mutexes[n] by { hide Remove, Ok; }
    hide Release, AllBacked, Rung;
    forall i | 0 <= i < |w.held[u]| ensures Rung(w', w.held[u][i], m) {
      Owners(w, w.held[u][i]);
      hide Ok;
      GotNow(w, w', u, i, m);
    }
  }

  lemma {:induction false} NextLadder(w: World, e: Event)
    requires Ok(w) && AllBacked(w) && Ladder(w) && Legal(w, e) && LentInTime(w, e)
    ensures Ladder(Next(w, e))
  {
    match e
    case LockCall(t, m, noWait) => {
      Owners(w, m);
      hide Ok, AllBacked, Ladder, Suits, SuitsAll;
      var x := w.mutexes[m];
      if x.count == 0 || x.owner == By(t) {
        TakeLadder(w, t, m);
      } else if !noWait {
        WaitLadder(w, t, m);
      }
    }
    case TimedOut(t) => {
      hide Ok, Ladder;
      TimeOutLadder(w, t, w.doing[t].m);
    }
    case GivesUp(t) => {
      hide Ok, Ladder, SuitsAll;
      GiveUpLadder(w, t, w.doing[t].m);
    }
    case UnlockCall(t, m) => {
      hide Ok, AllBacked, Ladder, Release;
      var x := w.mutexes[m];
      if x.owner == By(t) {
        if x.count > 1 {
          CountLadder(w, t, m);
        } else {
          ReleaseLadder(w, t, m);
        }
      }
    }
  }

  lemma {:induction false} CountLadder(w: World, t: Tid, m: Mid)
    requires Ok(w) && Ladder(w) && Known(w, t, m) && w.mutexes[m].owner == By(t) && w.mutexes[m].count > 1
    ensures Ladder(Unlock(w, t, m))
  {
    var w' := Unlock(w, t, m);
    hide Release;
    forall u, i, j | 0 <= u < |w.held| && 0 <= i < j < |w.held[u]| ensures Rung(w', w.held[u][i], w.held[u][j]) {
      HeldReal(w, u);
      RungAt(w, u, i, j);
      SameRungOf(w, w', w.held[u][i], w.held[u][j], m);
    }
    SameLadder(w, w');
  }

  /** What is left to ask of a step beside the two rules: an owner raised or lowered while it
      waits itself is still covered, a waiter that gives up leaves the others covered, and
      the thread that takes over leads its queue. */
  ghost predicate Settles(w: World, e: Event) {
    match e
    case UnlockCall(t, m) =>
      LastUnlock(w, e) ==> HeadLeads(w, w.mutexes[m].queue)
    case _ => Solvent(w, e)
  }

  ghost predicate ByTheRules(w: World, e: Event) {
    Nested(w, e) && LentInTime(w, e) && Settles(w, e)
  }

  /** Under both rules no release costs a loan. */
  lemma {:induction false} RulesAreSolvent(w: World, e: Event)
    requires Ok(w) && Ladder(w) && ByTheRules(w, e)
    ensures Solvent(w, e)
  {
    if e.UnlockCall? && LastUnlock(w, e) {
      hide Ok, Ladder, Covers, HeadLeads;
      TopCovers(w, e.t, e.m);
    }
  }

  ghost predicate AllByTheRules(w: World, es: seq<Event>)
    decreases |es|
  {
    es == [] || (ByTheRules(w, es[0]) && (Legal(w, es[0]) ==> AllByTheRules(Next(w, es[0]), es[1..])))
  }

  lemma {:induction false} RulesKeepLoans(w: World, es: seq<Event>, w': World)
    requires Ok(w) && AllBacked(w) && Ladder(w) && Reaches(w, es, w') && AllByTheRules(w, es)
    ensures Ok(w') && AllBacked(w') && Ladder(w')
    decreases |es|
  {
    if es != [] {
      var e := es[0];
      assert ByTheRules(w, e) && LentInTime(w, e);
      hide Ok, AllBacked, Ladder, Next, Legal, Solvent, ByTheRules, LentInTime;
      RulesAreSolvent(w, e);
      NextKeeps(w, e);
      NextBackedIff(w, e);
      NextLadder(w, e);
      RulesKeepLoans(Next(w, e), es[1..], w');
    }
  }

  /** From fresh mutexes on, in every run by the rules, every owner is at least as high as every
      thread that waits for it, up to the ceiling. */
  lemma {:induction false} LoansStandByTheRules(w: World, es: seq<Event>, w': World)
    requires Fresh(w) && Reaches(w, es, w') && AllByTheRules(w, es)
    ensures AllBacked(w')
  {
    FreshOk(w);
    FreshBacked(w);
    assert Ladder(w);
    RulesKeepLoans(w, es, w');
  }
}
