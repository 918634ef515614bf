/** The timeouts of timeout.c against absolute time: a table of pending timeouts, each
    with its expiry tick and the order it was added in, and what an announce of
    elapsed ticks does to it. */
module Clocks {
  import opened Rings

  /** A timeout in the table; `stamp` numbers the additions. */
  datatype Entry = Entry(id: Tid, expiry: nat, stamp: nat)

  /** A k_timeout_t, or (in callbacks) the absolute one a caller computes from the uptime it
      reads: `ahead` + 1 ticks after that. */
  datatype Timeout = Forever | Relative(ticks: nat) | Absolute(tick: nat) | Uptime(ahead: nat)

  /** What a callback does to timeouts: z_abort_timeout, or z_abort_timeout and then
      z_add_timeout (which is z_add_timeout alone for an unlinked timeout). */
  datatype Action = Begin(id: Tid, timeout: Timeout) | Cancel(id: Tid)

  /** The callbacks and the hardware: what the k-th callback since boot does, and what
      sys_clock_elapsed() reports to it. */
  datatype Env = Env(callback: (nat, Tid, nat) -> seq<Action>, elapsed: nat -> nat)

  /** The table with its history: every timeout ever added, and those fired (in order)
      or aborted. */
  datatype Clock = Clock(tick: nat, pending: seq<Entry>, stamp: nat,
                         fired: seq<Entry>, aborted: set<Entry>, ever: set<Entry>)

  function Max(a: int, b: int): int {
    if a >= b then a else b
  }

  /** The absolute tick z_add_timeout gives a timeout. */
  function ExpiryOf(tick: nat, t: Timeout, elapsed: nat): (e: nat)
    requires !t.Forever?
    ensures e > tick
  {
    match t
    case Relative(ticks) => tick + ticks + 1 + elapsed
    case Absolute(at) => tick + Max(1, at - tick)
    case Uptime(ahead) => tick + elapsed + 1 + ahead
  }

  /** What the caller reads off the clock decides when the timeout expires. */
  predicate ReadsClock(a: Action) {
    a.Begin? && (a.timeout.Relative? || a.timeout.Uptime?)
  }

  predicate Before(a: Entry, b: Entry) {
    a.expiry < b.expiry || (a.expiry == b.expiry && a.stamp < b.stamp)
  }

  /** Where a timeout expiring at `x` goes: behind every earlier or equal expiry. */
  function Slot(es: seq<Entry>, x: nat): (p: nat)
    ensures p <= |es|
    ensures forall i :: 0 <= i < p ==> es[i].expiry <= x
    ensures p < |es| ==> es[p].expiry > x
  {
    if es == [] || es[0].expiry > x then 0 else 1 + Slot(es[1..], x)
  }

  function Find(es: seq<Entry>, id: Tid): (p: nat)
    ensures p <= |es|
    ensures forall i :: 0 <= i < p ==> es[i].id != id
    ensures p < |es| ==> es[p].id == id
  {
    if es == [] || es[0].id == id then 0 else 1 + Find(es[1..], id)
  }

  predicate Linked(c: Clock, id: Tid) {
    Find(c.pending, id) < |c.pending|
  }

  function Abort(c: Clock, id: Tid): Clock {
    var p := Find(c.pending, id);
    if p == |c.pending| then c
    else c.(pending := c.pending[..p] + c.pending[p + 1..], aborted := c.aborted + {c.pending[p]})
  }

  function Add(c: Clock, id: Tid, t: Timeout, elapsed: nat): Clock {
    if t.Forever? then c
    else
      var e := Entry(id, ExpiryOf(c.tick, t, elapsed), c.stamp);
      var p := Slot(c.pending, e.expiry);
      c.(pending := c.pending[..p] + [e] + c.pending[p..], stamp := c.stamp + 1, ever := c.ever + {e})
  }

  function Act(c: Clock, a: Action, elapsed: nat): Clock {
    match a
    case Begin(id, t) => Add(Abort(c, id), id, t, elapsed)
    case Cancel(id) => Abort(c, id)
  }

  function ActAll(c: Clock, acts: seq<Action>, elapsed: nat): Clock
    decreases |acts|
  {
    if acts == [] then c else ActAll(Act(c, acts[0], elapsed), acts[1..], elapsed)
  }

  /** The first pending timeout leaves the table at its own tick. */
  function Pop(c: Clock): Clock
    requires c.pending != []
  {
    var h := c.pending[0];
    c.(tick := h.expiry, pending := c.pending[1..], fired := c.fired + [h])
  }

  /** It fires, and its callback runs. Only when no tick is left to announce does the
      callback see the hardware's elapsed ticks. */
  function Fire(c: Clock, limit: nat, env: Env): Clock
    requires c.pending != []
  {
    var h, k := c.pending[0], |c.fired|;
    ActAll(Pop(c), env.callback(k, h.id, h.expiry), if c.tick == limit then env.elapsed(k) else 0)
  }

  // ---- what every state satisfies ----------------------------------------------

  ghost predicate Ordered(es: seq<Entry>) {
    forall i, j :: 0 <= i < j < |es| ==> Before(es[i], es[j])
  }

  ghost predicate DistinctIds(es: seq<Entry>) {
    forall i, j :: 0 <= i < j < |es| ==> es[i].id != es[j].id
  }

  /** Every timeout ever added is pending, fired or aborted, and only one of these; no two
      have the same number. */
  ghost predicate Accounted(c: Clock) {
    && (forall e :: e in c.ever <==> e in c.pending || e in c.fired || e in c.aborted)
    && (forall e :: e in c.fired ==> e !in c.pending && e !in c.aborted)
    && (forall e :: e in c.pending ==> e !in c.aborted)
    && (forall e :: e in c.ever ==> e.stamp < c.stamp)
    && (forall e, f :: e in c.ever && f in c.ever && e.stamp == f.stamp ==> e == f)
  }

  /** Fired timeouts are due and came first; pending ones are not overdue. */
  ghost predicate Timely(c: Clock) {
    && (forall e :: e in c.pending ==> e.expiry >= c.tick)
    && (forall e :: e in c.fired ==> e.expiry <= c.tick)
    && (forall f, e :: f in c.fired && e in c.pending ==> Before(f, e))
  }

  ghost predicate Inv(c: Clock) {
    Ordered(c.pending) && DistinctIds(c.pending) && Ordered(c.fired) && Accounted(c) && Timely(c)
  }

  /** Outside an announce nothing pending is due. */
  ghost predicate Quiet(c: Clock) {
    forall e :: e in c.pending ==> e.expiry > c.tick
  }

  // ---- every step keeps it -------------------------------------------------------

  lemma {:induction false} RemoveOrdered(es: seq<Entry>, p: nat)
    requires p < |es| && Ordered(es) && DistinctIds(es)
    ensures var es' := es[..p] + es[p + 1..];
      Ordered(es') && DistinctIds(es') && forall e :: e in es' <==> e in es && e != es[p]
  {
    var es' := es[..p] + es[p + 1..];
    assert forall i :: 0 <= i < |es'| ==> es'[i] == es[if i < p then i else i + 1];
    forall e | e in es && e != es[p] ensures e in es' {
      var i :| 0 <= i < |es| && es[i] == e;
      assert es'[if i < p then i else i - 1] == e;
    }
  }

  lemma {:induction false} AbortUnlinks(c: Clock, id: Tid)
    requires DistinctIds(c.pending)
    ensures !Linked(Abort(c, id), id)
  {
    var p, es := Find(c.pending, id), Abort(c, id).pending;
    forall i | 0 <= i < |es| ensures es[i].id != id {
      assert es[i] == if p == |c.pending| || i < p then c.pending[i] else c.pending[i + 1];
    }
  }

  /** Taking `x` off the pending list and calling it aborted keeps the books. */
  lemma {:induction false} AbortBooks(c: Clock, c': Clock, x: Entry)
    requires Accounted(c) && Timely(c) && x in c.pending
    requires forall e :: e in c'.pending <==> e in c.pending && e != x
    requires c' == c.(pending := c'.pending, aborted := c.aborted + {x})
    ensures Accounted(c') && Timely(c')
  {
    hide Before;
  }

  lemma {:induction false} AbortKeeps(c: Clock, id: Tid)
    requires Inv(c)
    ensures Inv(Abort(c, id)) && !Linked(Abort(c, id), id)
    ensures forall e :: e in Abort(c, id).pending ==> e in c.pending
  {
    hide Before, Ordered, DistinctIds, Accounted, Timely, Linked;
    AbortUnlinks(c, id);
    var p := Find(c.pending, id);
    if p < |c.pending| {
      RemoveOrdered(c.pending, p);
      AbortBooks(c, Abort(c, id), c.pending[p]);
    }
  }

  /** `e` sits behind all of `es` that expire no later, and in front of the rest. */
  ghost predicate Fits(es: seq<Entry>, p: nat, e: Entry) {
    && p <= |es|
    && (forall i :: 0 <= i < p ==> es[i].expiry <= e.expiry)
    && (forall i :: p <= i < |es| ==> es[i].expiry > e.expiry)
    && (forall i :: 0 <= i < |es| ==> es[i].stamp < e.stamp && es[i].id != e.id)
  }

  lemma {:induction false} SlotFits(es: seq<Entry>, e: Entry)
    requires Ordered(es) && forall x :: x in es ==> x.stamp < e.stamp && x.id != e.id
    ensures Fits(es, Slot(es, e.expiry), e)
  {
    var p := Slot(es, e.expiry);
    forall i | p <= i < |es| ensures es[i].expiry > e.expiry {
      if i > p { assert Before(es[p], es[i]); }
    }
    forall i | 0 <= i < |es| ensures es[i].stamp < e.stamp && es[i].id != e.id {
      assert es[i] in es;
    }
  }

  lemma {:induction false} InsertOrdered(es: seq<Entry>, p: nat, e: Entry)
    requires Ordered(es) && DistinctIds(es) && Fits(es, p, e)
    ensures Ordered(es[..p] + [e] + es[p..]) && DistinctIds(es[..p] + [e] + es[p..])
  {
    var es' := es[..p] + [e] + es[p..];
    forall i, j | 0 <= i < j < |es'|
      ensures Before(es'[i], es'[j]) && es'[i].id != es'[j].id
    {
      var a, b := if i < p then i else i - 1, if j < p then j else j - 1;
      assert es'[i] == if i == p then e else es[a];
      assert es'[j] == if j == p then e else es[b];
    }
  }

  lemma {:induction false} InsertIn(es: seq<Entry>, p: nat, e: Entry)
    requires p <= |es|
    ensures forall x :: x in es[..p] + [e] + es[p..] <==> x in es || x == e
  {
    assert es == es[..p] + es[p..];
  }

  /** Listing a new entry as pending keeps the books. */
  lemma {:induction false} AddBooks(c: Clock, c': Clock, e: Entry)
    requires Accounted(c) && Timely(c) && e.stamp == c.stamp && e.expiry > c.tick
    requires forall x :: x in c'.pending <==> x in c.pending || x == e
    requires c' == c.(pending := c'.pending, stamp := c.stamp + 1, ever := c.ever + {e})
    ensures Accounted(c') && Timely(c')
  {
  }

  lemma {:induction false} AddKeeps(c: Clock, id: Tid, t: Timeout, elapsed: nat)
    requires Inv(c) && !Linked(c, id)
    ensures Inv(Add(c, id, t, elapsed))
    ensures forall e :: e in Add(c, id, t, elapsed).pending ==> e in c.pending || e.expiry > c.tick
  {
    if !t.Forever? {
      var e := Entry(id, ExpiryOf(c.tick, t, elapsed), c.stamp);
      assert forall x :: x in c.pending ==> x.stamp < e.stamp && x.id != e.id;
      hide Slot, ExpiryOf, Ordered, DistinctIds, Fits, Accounted, Timely, Linked;
      SlotFits(c.pending, e);
      var p := Slot(c.pending, e.expiry);
      InsertOrdered(c.pending, p, e);
      InsertIn(c.pending, p, e);
      AddBooks(c, Add(c, id, t, elapsed), e);
    }
  }

  /** What adding a timeout comes to: one that waits for ever is not added at all; otherwise one
      timeout more is pending, due after the ticks asked for and a tick begun, counted from the
      uptime, or at the tick asked for, but never before the next. */
  lemma {:induction false} AddDue(c: Clock, id: Tid, t: Timeout, elapsed: nat)
    requires Inv(c) && !Linked(c, id)
    ensures var c', uptime := Add(c, id, t, elapsed), c.tick + elapsed;
      match t
      case Forever => c' == c
      case Relative(ticks) => Joins(c, c', id, uptime + ticks + 1)
      case Absolute(at) => Joins(c, c', id, if at > c.tick then at else c.tick + 1)
      case Uptime(ahead) => Joins(c, c', id, uptime + ahead + 1)
  {
    if !t.Forever? {
      var e := Entry(id, ExpiryOf(c.tick, t, elapsed), c.stamp);
      InsertIn(c.pending, Slot(c.pending, e.expiry), e);
    }
  }

  /** Timeout `id`, due at `expiry`, is pending beside those that were. */
  ghost predicate Joins(c: Clock, c': Clock, id: Tid, expiry: nat) {
    && c'.tick == c.tick && c'.fired == c.fired && c'.aborted == c.aborted
    && forall e :: e in c'.pending <==> e in c.pending || e == Entry(id, expiry, c.stamp)
  }

  lemma {:induction false} PopKeeps(c: Clock)
    requires Inv(c) && c.pending != []
    ensures Inv(Pop(c))
  {
    var h, es := c.pending[0], c.pending[1..];
    assert forall e :: e in c.pending <==> e == h || e in es;
    assert forall i :: 0 <= i < |es| ==> es[i] == c.pending[i + 1];
    assert h !in es;
    assert forall e :: e in es ==> Before(h, e);
    assert h in c.pending;
    assert Ordered(es) && DistinctIds(es);
    hide DistinctIds;
    assert Ordered(c.fired + [h]);
    hide Ordered, Before;
    PopBooks(c, h, es);
  }

  lemma {:induction false} PopBooks(c: Clock, h: Entry, es: seq<Entry>)
    requires Accounted(c) && Timely(c) && h !in es
    requires forall e :: e in c.pending <==> e == h || e in es
    requires forall e :: e in es ==> Before(h, e)
    ensures var c' := c.(tick := h.expiry, pending := es, fired := c.fired + [h]); Accounted(c') && Timely(c')
  {
    assert h in c.pending;
  }

  /** A callback's actions keep the books, the tick and the history of firings, and add
      only timeouts that expire later than the current tick. */
  ghost predicate Later(c: Clock, c': Clock) {
    && c'.tick == c.tick && c'.fired == c.fired
    && (forall e :: e in c'.pending ==> e in c.pending || e.expiry > c.tick)
    && c.ever <= c'.ever && c.aborted <= c'.aborted
  }

  lemma {:induction false} ActKeeps(c: Clock, a: Action, elapsed: nat)
    requires Inv(c)
    ensures Inv(Act(c, a, elapsed)) && Later(c, Act(c, a, elapsed))
  {
    hide Inv, Linked;
    AbortKeeps(c, a.id);
    if a.Begin? {
      AddKeeps(Abort(c, a.id), a.id, a.timeout, elapsed);
    }
  }

  lemma {:induction false} ActAllKeeps(c: Clock, acts: seq<Action>, elapsed: nat)
    requires Inv(c)
    ensures Inv(ActAll(c, acts, elapsed)) && Later(c, ActAll(c, acts, elapsed))
    decreases |acts|
  {
    hide Inv, Act;
    if acts != [] {
      ActKeeps(c, acts[0], elapsed);
      ActAllKeeps(Act(c, acts[0], elapsed), acts[1..], elapsed);
    }
  }

  /** Starting or aborting one timeout leaves every other pending timeout as it is. */
  lemma {:induction false} OthersUntouched(c: Clock, a: Action, elapsed: nat, e: Entry)
    requires Inv(c) && e in c.pending && e.id != a.id
    ensures e in Act(c, a, elapsed).pending
  {
    var c1 := Abort(c, a.id);
    var p := Find(c.pending, a.id);
    assert e in c1.pending by {
      if p < |c.pending| {
        RemoveOrdered(c.pending, p);
        assert e != c.pending[p];
      }
    }
    if a.Begin? && !a.timeout.Forever? {
      var n := Entry(a.id, ExpiryOf(c1.tick, a.timeout, elapsed), c1.stamp);
      InsertIn(c1.pending, Slot(c1.pending, n.expiry), n);
    }
  }

  /** The pending timeouts due at the current tick. */
  function DueNow(c: Clock): set<Entry> {
    set e | e in c.pending && e.expiry <= c.tick
  }

  /** A firing keeps the books and makes progress: time moves on, or one timeout fewer
      is due at this tick, whatever the callback adds. */
  lemma {:induction false} FireKeeps(c: Clock, limit: nat, env: Env)
    requires Inv(c) && c.pending != []
    ensures var c' := Fire(c, limit, env);
      && Inv(c') && c'.tick == c.pending[0].expiry >= c.tick && c'.fired == c.fired + [c.pending[0]]
      && c.ever <= c'.ever && c.aborted <= c'.aborted
      && (c'.tick == c.tick ==> DueNow(c') < DueNow(c))
  {
    hide ActAll;
    var h := c.pending[0];
    PopKeeps(c);
    assert h in c.pending && h !in c.pending[1..];
    var el := if c.tick == limit then env.elapsed(|c.fired|) else 0;
    ActAllKeeps(Pop(c), env.callback(|c.fired|, h.id, h.expiry), el);
    hide Inv;
    var c' := Fire(c, limit, env);
    if c'.tick == c.tick {
      assert h in DueNow(c) && h !in DueNow(c');
      assert forall e :: e in c.pending[1..] ==> e in c.pending;
    }
  }

  /** sys_clock_announce up to tick `limit`. */
  ghost function Announce(c: Clock, limit: nat, env: Env): (c': Clock)
    requires Inv(c) && c.tick <= limit
    ensures Inv(c') && Quiet(c') && c'.tick == limit && c.fired <= c'.fired
    ensures c.ever <= c'.ever && c.aborted <= c'.aborted
    ensures forall i :: |c.fired| <= i < |c'.fired| ==>
        c.tick <= c'.fired[i].expiry && (Quiet(c) ==> c.tick < c'.fired[i].expiry)
    decreases limit - c.tick, DueNow(c)
  {
    if c.pending == [] || c.pending[0].expiry > limit then
      Idle(c, limit); c.(tick := limit)
    else
      FireKeeps(c, limit, env); Announce(Fire(c, limit, env), limit, env)
  }

  lemma {:induction false} Idle(c: Clock, limit: nat)
    requires Inv(c) && c.tick <= limit && (c.pending == [] || c.pending[0].expiry > limit)
    ensures Inv(c.(tick := limit)) && Quiet(c.(tick := limit))
  {
    forall e | e in c.pending ensures e.expiry > limit {
      var i :| 0 <= i < |c.pending| && c.pending[i] == e;
      if i > 0 { assert Before(c.pending[0], e); }
    }
  }

  // ---- what an announce promises -------------------------------------------------

  /** An announce from tick c to tick `limit` fires exactly the timeouts ever added that
      expire by then and were not aborted first, those added by callbacks included; in
      order of expiry, ties in the order of adding; the new ones after tick c. */
  lemma {:induction false} AnnounceExact(c: Clock, limit: nat, env: Env)
    requires Inv(c) && Quiet(c) && c.tick <= limit
    ensures var c' := Announce(c, limit, env);
      && c'.tick == limit && Inv(c') && Quiet(c')
      && c.fired <= c'.fired && Ordered(c'.fired)
      && (forall i :: |c.fired| <= i < |c'.fired| ==> c.tick < c'.fired[i].expiry <= limit)
      && (forall e :: e in c'.ever ==> (e in c'.fired <==> e.expiry <= limit && e !in c'.aborted))
      && (forall e :: e in c.pending && e.expiry <= limit && e !in c'.aborted ==> e in c'.fired[|c.fired|..])
  {
    var c' := Announce(c, limit, env);
    forall e | e in c.pending && e.expiry <= limit && e !in c'.aborted
      ensures e in c'.fired[|c.fired|..]
    {
      assert e in c'.ever && e in c'.fired && e !in c.fired;
      assert c'.fired == c.fired + c'.fired[|c.fired|..];
    }
    forall i | |c.fired| <= i < |c'.fired| ensures c'.fired[i].expiry <= limit {
      assert c'.fired[i] in c'.fired;
    }
  }

  // ---- announcing in batches -------------------------------------------------------

  /** Two tables in which a different timeout bears the same number. */
  ghost predicate Differ(c: Clock, c': Clock) {
    exists e, f :: e in c.ever && f in c'.ever && e.stamp == f.stamp && e != f
  }

  lemma {:induction false} DifferForGood(c1: Clock, c2: Clock, d1: Clock, d2: Clock)
    requires Differ(c1, c2) && c1.ever <= d1.ever && c2.ever <= d2.ever && Inv(d1)
    ensures Differ(d1, d2) && d1 != d2
  {
    var e, f :| e in c1.ever && f in c2.ever && e.stamp == f.stamp && e != f;
    assert e in d1.ever && f in d2.ever;
  }

  ghost predicate ClockFree(acts: seq<Action>) {
    forall i :: 0 <= i < |acts| ==> !ReadsClock(acts[i])
  }

  lemma {:induction false} ActUnread(c: Clock, a: Action, elapsed: nat)
    requires !ReadsClock(a)
    ensures Act(c, a, elapsed) == Act(c, a, 0)
  {
  }

  lemma {:induction false} ActReads(c: Clock, a: Action, elapsed: nat)
    requires ReadsClock(a) && elapsed > 0
    ensures Differ(Act(c, a, elapsed), Act(c, a, 0))
  {
    var c1 := Abort(c, a.id);
    var e := Entry(a.id, ExpiryOf(c1.tick, a.timeout, elapsed), c1.stamp);
    var f := Entry(a.id, ExpiryOf(c1.tick, a.timeout, 0), c1.stamp);
    assert e in Act(c, a, elapsed).ever && f in Act(c, a, 0).ever;
  }

  /** A callback leaves the same table and the same record, of all timeouts ever added,
      with and without ticks elapsed exactly if it reads no clock. */
  lemma {:induction false} ReadingRecorded(c: Clock, acts: seq<Action>, elapsed: nat)
    requires Inv(c)
    ensures elapsed == 0 || ClockFree(acts) ==> ActAll(c, acts, elapsed) == ActAll(c, acts, 0)
    ensures !(elapsed == 0 || ClockFree(acts)) ==> Differ(ActAll(c, acts, elapsed), ActAll(c, acts, 0))
    decreases |acts|
  {
    hide Inv, Act, Differ, ReadsClock;
    if acts != [] && elapsed > 0 {
      var a, rest := acts[0], acts[1..];
      ActKeeps(c, a, elapsed);
      ActKeeps(c, a, 0);
      if ReadsClock(a) {
        ActReads(c, a, elapsed);
        ActAllKeeps(Act(c, a, elapsed), rest, elapsed);
        ActAllKeeps(Act(c, a, 0), rest, 0);
        DifferForGood(Act(c, a, elapsed), Act(c, a, 0), ActAll(c, acts, elapsed), ActAll(c, acts, 0));
      } else {
        ActUnread(c, a, elapsed);
        ReadingRecorded(Act(c, a, elapsed), rest, elapsed);
        assert ClockFree(acts) <==> ClockFree(rest) by {
          assert forall i :: 0 < i < |acts| ==> acts[i] == rest[i - 1];
        }
      }
    }
  }

  /** The firing does not depend on how many ticks are left to announce: some are left, or
      the hardware reports none elapsed, or the callback does not look. */
  ghost predicate Unhurried(c: Clock, a: nat, env: Env)
    requires c.pending != []
  {
    var h, k := c.pending[0], |c.fired|;
    c.tick < a || env.elapsed(k) == 0 || ClockFree(env.callback(k, h.id, h.expiry))
  }

  /** One firing goes the same, to the record of additions, whether the announce ends at `a`
      or later, if and only if it is unhurried. */
  lemma {:induction false} FireSameRecord(c: Clock, a: nat, b: nat, env: Env)
    requires Inv(c) && c.pending != [] && c.tick <= a < b
    ensures Fire(c, a, env) == Fire(c, b, env) <==> Unhurried(c, a, env)
    ensures !Unhurried(c, a, env) ==> Differ(Fire(c, a, env), Fire(c, b, env))
  {
    hide Inv, ActAll, ClockFree, Differ;
    var h, k := c.pending[0], |c.fired|;
    PopKeeps(c);
    ReadingRecorded(Pop(c), env.callback(k, h.id, h.expiry), env.elapsed(k));
    FireKeeps(c, a, env);
    if !Unhurried(c, a, env) {
      DifferForGood(Fire(c, a, env), Fire(c, b, env), Fire(c, a, env), Fire(c, b, env));
    }
  }

  /** Every firing of an announce to `a` is unhurried. */
  ghost predicate Steady(c: Clock, a: nat, env: Env)
    requires Inv(c) && c.tick <= a
    decreases a - c.tick, DueNow(c)
  {
    if c.pending == [] || c.pending[0].expiry > a then true
    else FireKeeps(c, a, env); Unhurried(c, a, env) && Steady(Fire(c, a, env), a, env)
  }

  /** Announcing in two batches or in one is the same, to the record of additions, if and
      only if every firing of the first batch is unhurried. */
  lemma {:induction false} BatchingRecord(c: Clock, a: nat, b: nat, env: Env)
    requires Inv(c) && c.tick <= a < b
    ensures Announce(Announce(c, a, env), b, env) == Announce(c, b, env) <==> Steady(c, a, env)
    decreases a - c.tick, DueNow(c)
  {
    hide Inv, Quiet, Unhurried, Differ;
    if c.pending == [] || c.pending[0].expiry > a {
      Idle(c, a);
      var c1 := c.(tick := a);
      if c.pending != [] && c.pending[0].expiry <= b {
        assert Fire(c1, b, env) == Fire(c, b, env) by { IdleFires(c, a, b, env); }
      }
    } else {
      hide Fire;
      FireKeeps(c, a, env);
      FireKeeps(c, b, env);
      FireSameRecord(c, a, b, env);
      if Unhurried(c, a, env) {
        BatchingRecord(Fire(c, a, env), a, b, env);
      } else {
        DifferForGood(Fire(c, a, env), Fire(c, b, env), Announce(Announce(c, a, env), b, env), Announce(c, b, env));
      }
    }
  }

  /** A tick that passes without a firing changes nothing about the next one, which comes
      after it. */
  lemma {:induction false} IdleFires(c: Clock, a: nat, b: nat, env: Env)
    requires c.pending != [] && c.tick <= a < b
    ensures Fire(c.(tick := a), b, env) == Fire(c, b, env)
  {
    assert Pop(c.(tick := a)) == Pop(c);
    hide ActAll;
  }

  // ---- ... and what can be seen of it ------------------------------------------------

  /** The same firings and the same table; the record of aborted timeouts may differ. */
  ghost predicate Alike(c: Clock, c': Clock) {
    c'.tick == c.tick && c'.pending == c.pending && c'.stamp == c.stamp && c'.fired == c.fired
  }

  /** No later action of `acts` is about the same timeout. */
  ghost predicate LastOn(acts: seq<Action>, i: nat)
    requires i < |acts|
  {
    forall j :: i < j < |acts| ==> acts[j].id != acts[i].id
  }

  /** For no timeout is the last action one that reads the clock. */
  ghost predicate Unseen(acts: seq<Action>) {
    forall i :: 0 <= i < |acts| && LastOn(acts, i) ==> !ReadsClock(acts[i])
  }

  /** The timeouts whose last action reads the clock, `ids` to begin with. */
  function Telling(acts: seq<Action>, ids: set<Tid>): set<Tid>
    decreases |acts|
  {
    if acts == [] then ids
    else Telling(acts[1..], if ReadsClock(acts[0]) then ids + {acts[0].id} else ids - {acts[0].id})
  }

  lemma {:induction false} TellingIs(acts: seq<Action>, ids: set<Tid>, id: Tid)
    ensures id in Telling(acts, ids) <==>
      || (exists i :: 0 <= i < |acts| && acts[i].id == id && LastOn(acts, i) && ReadsClock(acts[i]))
      || (id in ids && forall i :: 0 <= i < |acts| ==> acts[i].id != id)
    decreases |acts|
  {
    hide ReadsClock;
    if acts != [] {
      var a, rest := acts[0], acts[1..];
      var ids' := if ReadsClock(a) then ids + {a.id} else ids - {a.id};
      TellingIs(rest, ids', id);
      assert forall i :: 0 < i < |acts| ==> acts[i] == rest[i - 1] && (LastOn(acts, i) <==> LastOn(rest, i - 1)) by {
        LastOnTail(acts);
      }
      if exists i :: 0 <= i < |rest| && rest[i].id == id && LastOn(rest, i) && ReadsClock(rest[i]) {
        var i :| 0 <= i < |rest| && rest[i].id == id && LastOn(rest, i) && ReadsClock(rest[i]);
        assert acts[i + 1].id == id && LastOn(acts, i + 1);
      }
      assert LastOn(acts, 0) <==> forall i :: 0 <= i < |rest| ==> rest[i].id != a.id;
    }
  }

  lemma {:induction false} LastOnTail(acts: seq<Action>)
    requires acts != []
    ensures forall i :: 0 < i < |acts| ==>
        acts[i] == acts[1..][i - 1] && (LastOn(acts, i) <==> LastOn(acts[1..], i - 1))
  {
    var rest := acts[1..];
    forall i | 0 < i < |acts| ensures LastOn(acts, i) <==> LastOn(rest, i - 1) {
      assert forall j :: i < j < |acts| ==> acts[j] == rest[j - 1];
      assert forall j :: i - 1 < j < |rest| ==> rest[j] == acts[j + 1];
    }
  }

  lemma {:induction false} UnseenIs(acts: seq<Action>)
    ensures Unseen(acts) <==> Telling(acts, {}) == {}
  {
    forall id ensures id in Telling(acts, {}) <==>
      exists i :: 0 <= i < |acts| && acts[i].id == id && LastOn(acts, i) && ReadsClock(acts[i])
    {
      TellingIs(acts, {}, id);
    }
    hide ReadsClock, LastOn, Telling;
    if Telling(acts, {}) != {} {
      var id :| id in Telling(acts, {});
      var i :| 0 <= i < |acts| && acts[i].id == id && LastOn(acts, i) && ReadsClock(acts[i]);
    } else {
      forall i | 0 <= i < |acts| && LastOn(acts, i) ensures !ReadsClock(acts[i]) {
        assert acts[i].id !in Telling(acts, {});
      }
    }
  }

  /** What an action adds to the table. */
  function Added(c: Clock, a: Action, elapsed: nat): seq<Entry> {
    if a.Begin? && !a.timeout.Forever? then [Entry(a.id, ExpiryOf(c.tick, a.timeout, elapsed), c.stamp)] else []
  }

  /** What is pending after an action. */
  ghost predicate Becomes(c: Clock, d: Clock, id: Tid, added: seq<Entry>) {
    && d.tick == c.tick && d.fired == c.fired && d.stamp == c.stamp + |added|
    && forall e :: e in d.pending <==> (e in c.pending && e.id != id) || e in added
  }

  lemma {:induction false} AbortBecomes(c: Clock, id: Tid)
    requires Ordered(c.pending) && DistinctIds(c.pending)
    ensures Becomes(c, Abort(c, id), id, [])
  {
    var p, c1 := Find(c.pending, id), Abort(c, id);
    if p < |c.pending| {
      RemoveOrdered(c.pending, p);
    }
    forall e ensures e in c1.pending <==> e in c.pending && e.id != id {
      assert e in c.pending && p < |c.pending| ==> (e == c.pending[p] <==> e.id == id);
    }
  }

  lemma {:induction false} AddBecomes(c: Clock, id: Tid, t: Timeout, elapsed: nat)
    ensures var d, n := Add(c, id, t, elapsed), Added(c, Begin(id, t), elapsed);
      d.tick == c.tick && d.fired == c.fired && d.stamp == c.stamp + |n| &&
      forall e :: e in d.pending <==> e in c.pending || e in n
  {
    if !t.Forever? {
      var n := Entry(id, ExpiryOf(c.tick, t, elapsed), c.stamp);
      hide ExpiryOf, Slot;
      InsertIn(c.pending, Slot(c.pending, n.expiry), n);
    }
  }

  lemma {:induction false} ActBecomes(c: Clock, a: Action, elapsed: nat)
    requires Inv(c)
    ensures Becomes(c, Act(c, a, elapsed), a.id, Added(c, a, elapsed))
  {
    hide Abort, Add, Ordered, DistinctIds;
    AbortBecomes(c, a.id);
    if a.Begin? {
      AddBecomes(Abort(c, a.id), a.id, a.timeout, elapsed);
    }
  }

  /** The tables differ in the timeouts `ids`, each pending in both at different ticks, and
      nowhere else. */
  ghost predicate DifferIn(c: Clock, c': Clock, ids: set<Tid>) {
    && c'.tick == c.tick && c'.stamp == c.stamp && c'.fired == c.fired
    && (forall e: Entry :: e.id !in ids ==> (e in c.pending <==> e in c'.pending))
    && (forall id :: id in ids ==> DueTwice(c, c', id))
  }

  ghost predicate DueTwice(c: Clock, c': Clock, id: Tid) {
    exists e, e' :: e in c.pending && e' in c'.pending && e.id == e'.id == id && e.expiry != e'.expiry
  }

  lemma {:induction false} ActDiffers(c: Clock, c': Clock, a: Action, elapsed: nat, ids: set<Tid>)
    requires Inv(c) && Inv(c') && DifferIn(c, c', ids) && elapsed > 0
    ensures DifferIn(Act(c, a, elapsed), Act(c', a, 0), if ReadsClock(a) then ids + {a.id} else ids - {a.id})
  {
    var n, n' := Added(c, a, elapsed), Added(c', a, 0);
    ActBecomes(c, a, elapsed);
    ActBecomes(c', a, 0);
    assert |n| == |n'| <= 1 && forall e :: e in n || e in n' ==> e.id == a.id;
    assert ReadsClock(a) ==> n[0].expiry != n'[0].expiry;
    assert !ReadsClock(a) ==> n == n';
    hide Inv, Act, Added;
    if ReadsClock(a) {
      Parts(c, c', Act(c, a, elapsed), Act(c', a, 0), a.id, n[0], n'[0], ids);
    } else {
      Meets(c, c', Act(c, a, elapsed), Act(c', a, 0), a.id, n, ids);
    }
  }

  /** Two tables come to differ in `id`. */
  lemma {:induction false} Parts(c: Clock, c': Clock, d: Clock, d': Clock, id: Tid, n: Entry, n': Entry, ids: set<Tid>)
    requires DifferIn(c, c', ids) && Becomes(c, d, id, [n]) && Becomes(c', d', id, [n'])
    requires n.id == n'.id == id && n.expiry != n'.expiry
    ensures DifferIn(d, d', ids + {id})
  {
    forall x | x in ids + {id} ensures DueTwice(d, d', x) {
      if x == id {
        assert n in d.pending && n' in d'.pending;
      } else {
        StillTwice(c, c', d, d', id, [n], [n'], x);
      }
    }
    hide DueTwice;
  }

  /** Two tables come to agree on `id`. */
  lemma {:induction false} Meets(c: Clock, c': Clock, d: Clock, d': Clock, id: Tid, added: seq<Entry>, ids: set<Tid>)
    requires DifferIn(c, c', ids) && Becomes(c, d, id, added) && Becomes(c', d', id, added)
    ensures DifferIn(d, d', ids - {id})
  {
    forall x | x in ids - {id} ensures DueTwice(d, d', x) {
      StillTwice(c, c', d, d', id, added, added, x);
    }
    hide DueTwice;
  }

  lemma {:induction false} StillTwice(c: Clock, c': Clock, d: Clock, d': Clock, id: Tid, n: seq<Entry>, n': seq<Entry>,
      x: Tid)
    requires Becomes(c, d, id, n) && Becomes(c', d', id, n') && DueTwice(c, c', x) && x != id
    ensures DueTwice(d, d', x)
  {
    var e, e' :| e in c.pending && e' in c'.pending && e.id == e'.id == x && e.expiry != e'.expiry;
    assert e in d.pending && e' in d'.pending;
  }

  lemma {:induction false} ActAllDiffers(c: Clock, c': Clock, acts: seq<Action>, elapsed: nat, ids: set<Tid>)
    requires Inv(c) && Inv(c') && DifferIn(c, c', ids) && elapsed > 0
    ensures DifferIn(ActAll(c, acts, elapsed), ActAll(c', acts, 0), Telling(acts, ids))
    decreases |acts|
  {
    hide Inv, Act, DifferIn, ReadsClock;
    if acts != [] {
      ActKeeps(c, acts[0], elapsed);
      ActKeeps(c', acts[0], 0);
      ActDiffers(c, c', acts[0], elapsed, ids);
      ActAllDiffers(Act(c, acts[0], elapsed), Act(c', acts[0], 0), acts[1..], elapsed,
                    if ReadsClock(acts[0]) then ids + {acts[0].id} else ids - {acts[0].id});
    }
  }

  /** A list in order is determined by its members. */
  lemma {:induction false} OrderedOnce(a: seq<Entry>, b: seq<Entry>)
    requires Ordered(a) && Ordered(b) && forall e :: e in a <==> e in b
    ensures a == b
    decreases |a|
  {
    if a != [] && b != [] {
      assert a[0] in b && b[0] in a;
      assert a[0] == b[0] by {
        assert a[0] in a && b[0] in b;
      }
      var a', b' := a[1..], b[1..];
      assert a == [a[0]] + a' && b == [b[0]] + b';
      assert a[0] !in a' && b[0] !in b';
      assert forall e :: (e in a' <==> e in a && e != a[0]) && (e in b' <==> e in b && e != b[0]);
      hide Before;
      OrderedOnce(a', b');
    } else {
      SomeMember(a);
      SomeMember(b);
    }
  }

  lemma {:induction false} SomeMember(es: seq<Entry>)
    ensures es != [] ==> exists e :: e in es
  {
    if es != [] {
      assert es[0] in es;
    }
  }

  /** A callback leaves the same table with and without ticks elapsed if and only if for no
      timeout its last action reads the clock. */
  lemma {:induction false} ReadingMatters(c: Clock, acts: seq<Action>, elapsed: nat)
    requires Inv(c)
    ensures Alike(ActAll(c, acts, elapsed), ActAll(c, acts, 0)) <==> elapsed == 0 || Unseen(acts)
  {
    if elapsed > 0 {
      hide Telling, Act, Unseen;
      var d, d' := ActAll(c, acts, elapsed), ActAll(c, acts, 0);
      assert DifferIn(c, c, {});
      ActAllDiffers(c, c, acts, elapsed, {});
      UnseenIs(acts);
      ActAllKeeps(c, acts, elapsed);
      ActAllKeeps(c, acts, 0);
      var ids := Telling(acts, {});
      if ids == {} {
        assert Ordered(d.pending) && Ordered(d'.pending);
        hide Inv, ActAll;
        OrderedOnce(d.pending, d'.pending);
      } else {
        var id :| id in ids;
        assert DueTwice(d, d', id);
        DueTwiceShows(d, d', id);
      }
    }
  }

  lemma {:induction false} DueTwiceShows(c: Clock, c': Clock, id: Tid)
    requires Inv(c) && DueTwice(c, c', id)
    ensures c.pending != c'.pending
  {
    var e, e' :| e in c.pending && e' in c'.pending && e.id == e'.id == id && e.expiry != e'.expiry;
    assert e in c.pending;
  }

  /** The firing looks the same however many ticks are left to announce: some are left, or
      none are reported elapsed, or what the callback read is not seen in the end. */
  ghost predicate Unmoved(c: Clock, a: nat, env: Env)
    requires c.pending != []
  {
    var h, k := c.pending[0], |c.fired|;
    c.tick < a || env.elapsed(k) == 0 || Unseen(env.callback(k, h.id, h.expiry))
  }

  /** One firing leaves the same firings and the same table whether the announce ends at `a`
      or later, if and only if it is unmoved. */
  lemma {:induction false} FireSame(c: Clock, a: nat, b: nat, env: Env)
    requires Inv(c) && c.pending != [] && c.tick <= a < b
    ensures Alike(Fire(c, a, env), Fire(c, b, env)) <==> Unmoved(c, a, env)
  {
    hide Inv, ActAll, Unseen;
    var h, k := c.pending[0], |c.fired|;
    PopKeeps(c);
    ReadingMatters(Pop(c), env.callback(k, h.id, h.expiry), env.elapsed(k));
  }

  /** What happens next depends on the table alone. */
  lemma {:induction false} ActAlike(c: Clock, c': Clock, acts: seq<Action>, elapsed: nat)
    requires Alike(c, c')
    ensures Alike(ActAll(c, acts, elapsed), ActAll(c', acts, elapsed))
    decreases |acts|
  {
    if acts != [] {
      assert Alike(Act(c, acts[0], elapsed), Act(c', acts[0], elapsed));
      hide Act, Alike;
      ActAlike(Act(c, acts[0], elapsed), Act(c', acts[0], elapsed), acts[1..], elapsed);
    }
  }

  lemma {:induction false} FireAlike(c: Clock, c': Clock, limit: nat, env: Env)
    requires Alike(c, c') && c.pending != []
    ensures Alike(Fire(c, limit, env), Fire(c', limit, env))
  {
    hide ActAll;
    var h, k := c.pending[0], |c.fired|;
    ActAlike(Pop(c), Pop(c'), env.callback(k, h.id, h.expiry), if c.tick == limit then env.elapsed(k) else 0);
  }

  lemma {:induction false} AnnounceAlike(c: Clock, c': Clock, limit: nat, env: Env)
    requires Inv(c) && Inv(c') && Alike(c, c') && c.tick <= limit
    ensures Alike(Announce(c, limit, env), Announce(c', limit, env))
    decreases limit - c.tick, DueNow(c)
  {
    hide Inv, Fire, Quiet;
    if c.pending != [] && c.pending[0].expiry <= limit {
      FireKeeps(c, limit, env);
      FireKeeps(c', limit, env);
      FireAlike(c, c', limit, env);
      AnnounceAlike(Fire(c, limit, env), Fire(c', limit, env), limit, env);
    }
  }

  /** Every firing of an announce to `a` is unmoved. */
  ghost predicate Still(c: Clock, a: nat, env: Env)
    requires Inv(c) && c.tick <= a
    decreases a - c.tick, DueNow(c)
  {
    if c.pending == [] || c.pending[0].expiry > a then true
    else FireKeeps(c, a, env); Unmoved(c, a, env) && Still(Fire(c, a, env), a, env)
  }

  /** Announcing in two batches or in one gives the same firings and the same table if every
      firing of the first batch is unmoved. */
  lemma {:induction false} Batching(c: Clock, a: nat, b: nat, env: Env)
    requires Inv(c) && c.tick <= a <= b && Still(c, a, env)
    ensures Alike(Announce(Announce(c, a, env), b, env), Announce(c, b, env))
    decreases a - c.tick, DueNow(c)
  {
    hide Inv, Quiet, Unmoved;
    if c.pending == [] || c.pending[0].expiry > a {
      Idle(c, a);
      if c.pending != [] && c.pending[0].expiry <= b {
        assert Fire(c.(tick := a), b, env) == Fire(c, b, env) by { IdleFires(c, a, b, env); }
      }
    } else {
      hide Fire;
      FireKeeps(c, a, env);
      FireKeeps(c, b, env);
      Batching(Fire(c, a, env), a, b, env);
      if a < b {
        FireSame(c, a, b, env);
        AnnounceAlike(Fire(c, a, env), Fire(c, b, env), b, env);
        hide Announce, Still;
      }
    }
  }

  ghost predicate ClockAtRest(env: Env) {
    forall k: nat :: env.elapsed(k) == 0
  }

  /** So batching does not matter with the hardware at rest inside announces, or with
      callbacks that never read the clock. */
  lemma {:induction false} AlwaysSteady(c: Clock, a: nat, env: Env)
    requires Inv(c) && c.tick <= a
    requires ClockAtRest(env) || forall k: nat, id: Tid, tick: nat :: ClockFree(env.callback(k, id, tick))
    ensures Steady(c, a, env) && Still(c, a, env)
    decreases a - c.tick, DueNow(c)
  {
    hide Inv, Fire;
    if c.pending != [] && c.pending[0].expiry <= a {
      FireKeeps(c, a, env);
      AlwaysSteady(Fire(c, a, env), a, env);
    }
  }

  /** A timeout started and cancelled in one callback leaves a record that depends on the
      clock, and nothing else: the firing is hurried, and yet unmoved. */
  lemma {:induction false} StartedAndCancelled(c: Clock, elapsed: nat, id: Tid)
    requires Inv(c) && elapsed > 0
    ensures var acts := [Begin(id, Relative(0)), Cancel(id)];
      && Alike(ActAll(c, acts, elapsed), ActAll(c, acts, 0))
      && Differ(ActAll(c, acts, elapsed), ActAll(c, acts, 0))
  {
    var acts := [Begin(id, Relative(0)), Cancel(id)];
    assert acts[1].id == acts[0].id && !LastOn(acts, 0);
    assert ReadsClock(acts[0]) && !ClockFree(acts);
    hide Inv, ActAll;
    ReadingMatters(c, acts, elapsed);
    ReadingRecorded(c, acts, elapsed);
  }

  // ---- whole runs ------------------------------------------------------------------

  datatype Event = Api(action: Action, elapsed: nat) | Ticks(n: nat)

  ghost function Happen(c: Clock, ev: Event, env: Env): Clock
    requires Inv(c)
  {
    match ev
    case Api(a, elapsed) => Act(c, a, elapsed)
    case Ticks(n) => Announce(c, c.tick + n, env)
  }

  ghost predicate Reaches(c: Clock, evs: seq<Event>, env: Env, c': Clock)
    decreases |evs|
  {
    if evs == [] then c' == c else Inv(c) && Reaches(Happen(c, evs[0], env), evs[1..], env, c')
  }

  lemma {:induction false} HappenKeeps(c: Clock, ev: Event, env: Env)
    requires Inv(c) && Quiet(c)
    ensures Inv(Happen(c, ev, env)) && Quiet(Happen(c, ev, env))
    ensures c.fired <= Happen(c, ev, env).fired && c.tick <= Happen(c, ev, env).tick
  {
    if ev.Api? {
      ActKeeps(c, ev.action, ev.elapsed);
    }
  }

  /** In every run of calls and announces, each timeout ever added has fired exactly if
      its tick has come and it was not aborted, and firings are in order. */
  lemma {:induction false} EveryRun(c: Clock, evs: seq<Event>, env: Env, c': Clock)
    requires Inv(c) && Quiet(c) && Reaches(c, evs, env, c')
    ensures Inv(c') && Quiet(c') && c.fired <= c'.fired && c.tick <= c'.tick
    ensures forall e :: e in c'.ever ==> (e in c'.fired <==> e.expiry <= c'.tick && e !in c'.aborted)
    decreases |evs|
  {
    hide Happen, Act;
    if evs != [] {
      HappenKeeps(c, evs[0], env);
      EveryRun(Happen(c, evs[0], env), evs[1..], env, c');
    }
  }

  const Boot := Clock(0, [], 0, [], {}, {})

  lemma {:induction false} BootIsQuiet()
    ensures Inv(Boot) && Quiet(Boot)
  {
  }

  /** Two timeouts due at tick 1; the second one's callback adds it again. */
  function TwoDue(): Clock {
    var a, b := Entry(0, 1, 0), Entry(1, 1, 1);
    Clock(0, [a, b], 2, [], {}, {a, b})
  }

  function SecondAgain(): Env {
    Env((k: nat, id: Tid, tick: nat) => if k == 1 then [Begin(1, Relative(0))] else [], (k: nat) => 5)
  }

  lemma {:induction false} FirstDue(limit: nat)
    requires limit > 0
    ensures Inv(TwoDue()) && Fire(TwoDue(), limit, SecondAgain()) == Pop(TwoDue()) && Inv(Pop(TwoDue()))
  {
    assert ActAll(Pop(TwoDue()), [], 0) == Pop(TwoDue());
    PopKeeps(TwoDue());
  }

  lemma {:induction false} SecondDue(limit: nat)
    ensures var c := Pop(TwoDue());
      var next := Fire(c, limit, SecondAgain());
      c.pending != [] && |next.fired| == 2 && next.tick == 1 && |next.pending| == 1
      && next.pending[0].expiry == if limit == 1 then 7 else 2
  {
    var c := Pop(TwoDue());
    var act := Begin(1, Relative(0));
    var el := if limit == 1 then 5 else 0;
    assert c.pending == [Entry(1, 1, 1)] && c.tick == 1 && |c.fired| == 1;
    assert SecondAgain().callback(1, 1, 1) == [act] && [act][1..] == [];
    assert ActAll(Pop(c), [act], el) == Act(Pop(c), act, el);
    assert Pop(c).pending == [] && Abort(Pop(c), 1) == Pop(c);
  }

  /** With the hardware clock running inside an announce, batching can matter: announced
      alone, tick 1 leaves nothing to announce when the second of two tied timeouts
      fires, and what its callback adds is pushed back by the elapsed ticks. */
  lemma {:induction false} BatchingNeedsRest()
    ensures var c, env := TwoDue(), SecondAgain();
      Inv(c) && |Announce(Announce(c, 1, env), 2, env).fired| == 2 && |Announce(c, 2, env).fired| > 2
  {
    hide Inv, Quiet, Fire, Pop;
    var c, env := TwoDue(), SecondAgain();
    FirstDue(1);
    FirstDue(2);
    var c1 := Pop(c);
    SecondDue(1);
    SecondDue(2);
    FireKeeps(c1, 1, env);
    FireKeeps(c1, 2, env);
    Follow(c, c1, env);
    var late, soon := Fire(c1, 1, env), Fire(c1, 2, env);
    assert Announce(c, 1, env) == late.(tick := 1);
    assert Announce(c, 2, env) == Announce(soon, 2, env);
    FireKeeps(soon, 2, env);
  }

  lemma {:induction false} Follow(c: Clock, c1: Clock, env: Env)
    requires c == TwoDue() && env == SecondAgain() && c1 == Pop(c)
    requires Inv(c) && Inv(c1)
    ensures c1.tick == 1 && c1.pending != [] && c1.pending[0].expiry == 1
    ensures Announce(c, 1, env) == Announce(c1, 1, env) && Announce(c, 2, env) == Announce(c1, 2, env)
  {
    FirstDue(1);
    FirstDue(2);
    hide Inv, Quiet, Fire;
  }
}
