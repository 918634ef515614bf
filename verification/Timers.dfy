/** Kernel timers (timer.c) on top of the timeout list, and exactly when periodic ones
    drift. */
module Timers {
  import opened Rings
  import opened Clocks
  import opened Timeouts

  /** Ticks z_timer_expiration_handler adds to the uptime and one: a period less one tick.
      The encoding of absolute timeouts is negative, so an absolute period counts as none. */
  function Ahead(period: Timeout): nat {
    if period.Relative? then Max(period.ticks - 1, 0) else 0
  }

  predicate Periodic(period: Timeout) {
    period != Relative(0) && !period.Forever?
  }

  /** The distance between two expiries of an undisturbed periodic timer. */
  function Stride(period: Timeout): nat {
    Ahead(period) + 1
  }

  /** z_timer_expiration_handler re-adds a periodic timer, counting from the uptime it
      reads. */
  function HandlerActions(id: Tid, linked: bool, period: Timeout): seq<Action> {
    if linked || !Periodic(period) then [] else [Begin(id, Uptime(Ahead(period)))]
  }

  /** The start time k_timer_start hands to the timeout list. */
  function Adjusted(duration: Timeout): Timeout {
    if duration.Relative? then Relative(Max(duration.ticks - 1, 0)) else duration
  }

  class KTimer {
    const id: Tid
    var period: Timeout
    var status: nat
    var waitq: seq<Tid>

    constructor (id: Tid)
      ensures this.id == id && period == Relative(0) && status == 0 && waitq == []
    {
      this.id, period, status, waitq := id, Relative(0), 0, [];
    }

    /** z_impl_k_timer_start. */
    method Start(q: TimeoutQueue, duration: Timeout, period: Timeout, hardware: nat)
      requires q.Valid() && !duration.Uptime?
      modifies this`period, this`status, q`list, q`clock
      ensures q.Valid()
      ensures duration.Forever? ==> q.clock == old(q.clock) && this.period == old(this.period) && status == old(status)
      ensures !duration.Forever? ==>
        && q.clock == Act(old(q.clock), Begin(id, Adjusted(duration)), q.Elapsed(hardware))
        && this.period == period && status == 0
    {
      hide Inv, Matches, Add, Abort, Linked;
      if duration.Forever? { return; }
      var d := duration;
      if d.Relative? {
        d := Relative(Max(d.ticks - 1, 0));
      }
      var _ := q.AbortTimeout(id);
      this.period := period;
      status := 0;
      q.AddTimeout(id, d, hardware);
    }

    /** The first thread waiting for the timer, if any, is woken. */
    method WakeOne() returns (woken: seq<Tid>)
      modifies this`waitq
      ensures woken + waitq == old(waitq) && |woken| == if old(waitq) == [] then 0 else 1
    {
      woken := [];
      if waitq != [] {
        woken, waitq := [waitq[0]], waitq[1..];
      }
    }

    /** z_impl_k_timer_stop: a running timer is aborted and wakes one waiter; one that is
        not running stays as it is. */
    method Stop(q: TimeoutQueue) returns (stopped: bool, woken: seq<Tid>)
      requires q.Valid()
      modifies this`waitq, q`list, q`clock
      ensures q.Valid() && q.clock == Abort(old(q.clock), id) && stopped == old(Linked(q.clock, id))
      ensures woken + waitq == old(waitq) && |woken| == if stopped && old(waitq) != [] then 1 else 0
    {
      var ret := q.AbortTimeout(id);
      stopped, woken := ret == 0, [];
      if stopped {
        woken := WakeOne();
      }
    }

    /** z_timer_expiration_handler; `hardware` is what sys_clock_elapsed() reports. */
    method ExpirationHandler(q: TimeoutQueue, hardware: nat) returns (woken: seq<Tid>)
      requires q.Valid()
      modifies this`status, this`waitq, q`list, q`clock
      ensures q.Valid()
      ensures q.clock == ActAll(old(q.clock), HandlerActions(id, old(Linked(q.clock, id)), period), q.Elapsed(hardware))
      ensures status == if old(Linked(q.clock, id)) then old(status) else old(status) + 1
      ensures woken + waitq == old(waitq)
      ensures |woken| == if old(Linked(q.clock, id)) || old(waitq) == [] then 0 else 1
    {
      hide Inv, Matches, Add, Abort, Find;
      var p := q.Locate(id);
      MatchesLength(q.list, q.clock.pending, q.currTick);
      woken := [];
      if p < |q.list| { return; }
      if period != Relative(0) && !period.Forever? {
        var uptime, ahead := q.currTick + q.Elapsed(hardware), 0;
        if period.Relative? {
          ahead := Max(period.ticks - 1, 0);
        }
        AddUnlinked(q.clock, id, Uptime(ahead), q.Elapsed(hardware));
        AddByUptime(q.clock, id, ahead, q.Elapsed(hardware));
        q.AddTimeout(id, Absolute(uptime + 1 + ahead), hardware);
      }
      status := status + 1;
      woken := WakeOne();
    }
  }

  lemma {:induction false} AddUnlinked(c: Clock, id: Tid, t: Timeout, elapsed: nat)
    requires !Linked(c, id)
    ensures ActAll(c, [Begin(id, t)], elapsed) == Add(c, id, t, elapsed)
  {
    var a := Begin(id, t);
    assert [a][1..] == [] && Abort(c, id) == c;
    assert ActAll(c, [a], elapsed) == ActAll(Act(c, a, elapsed), [], elapsed);
  }

  // ---- when periodic timers drift --------------------------------------------------

  /** The timer's callback is its handler, perhaps followed by other calls; nobody else
      touches the timer. */
  ghost predicate Drives(env: Env, id: Tid, period: Timeout) {
    forall k: nat, t: Tid, tick: nat :: DrivesOne(env.callback(k, t, tick), id, period, t)
  }

  ghost predicate DrivesOne(acts: seq<Action>, id: Tid, period: Timeout, t: Tid) {
    if t == id then acts != [] && [acts[0]] == HandlerActions(id, false, period) && Apart(acts[1..], id)
    else Apart(acts, id)
  }

  ghost predicate Apart(acts: seq<Action>, id: Tid) {
    forall i :: 0 <= i < |acts| ==> acts[i].id != id
  }

  /** When the timer is due next. */
  ghost predicate DueAt(c: Clock, id: Tid, expiry: nat) {
    exists e :: e in c.pending && e.id == id && e.expiry == expiry
  }

  /** The ticks at which the timer fired. */
  function Beats(fired: seq<Entry>, id: Tid): seq<nat> {
    if fired == [] then []
    else
      var last := fired[|fired| - 1];
      Beats(fired[..|fired| - 1], id) + if last.id == id then [last.expiry] else []
  }

  /** Since firing number `n` the timer has fired at first, first + stride, and so on,
      and is due at the next multiple. */
  ghost predicate OnBeat(c: Clock, id: Tid, n: nat, first: nat, stride: nat) {
    Behind(c, id, n, first, stride, 0)
  }

  /** The timer is due `d` ticks later than it would be on its beat; with `d` 0 it never
      missed one. */
  ghost predicate Behind(c: Clock, id: Tid, n: nat, first: nat, stride: nat, d: nat) {
    && n <= |c.fired|
    && var beats := Beats(c.fired[n..], id);
       && (d == 0 ==> forall j :: 0 <= j < |beats| ==> beats[j] == first + j * stride)
       && DueAt(c, id, first + |beats| * stride + d)
  }

  /** The ticks a callback sees elapsed: those of the hardware, once none are left to
      announce. */
  function Lag(c: Clock, limit: nat, env: Env): nat {
    if c.tick == limit then env.elapsed(|c.fired|) else 0
  }

  lemma {:induction false} DueKept(c: Clock, a: Action, elapsed: nat, id: Tid, expiry: nat)
    requires Inv(c) && DueAt(c, id, expiry) && a.id != id
    ensures DueAt(Act(c, a, elapsed), id, expiry)
  {
    var e :| e in c.pending && e.id == id && e.expiry == expiry;
    OthersUntouched(c, a, elapsed, e);
  }

  lemma {:induction false} DueKeptAll(c: Clock, acts: seq<Action>, elapsed: nat, id: Tid, expiry: nat)
    requires Inv(c) && DueAt(c, id, expiry) && Apart(acts, id)
    ensures DueAt(ActAll(c, acts, elapsed), id, expiry)
    decreases |acts|
  {
    hide Inv, Act, DueAt;
    if acts != [] {
      DueKept(c, acts[0], elapsed, id, expiry);
      ActKeeps(c, acts[0], elapsed);
      assert Apart(acts[1..], id);
      DueKeptAll(Act(c, acts[0], elapsed), acts[1..], elapsed, id, expiry);
    }
  }

  lemma {:induction false} Restarted(c: Clock, id: Tid, t: Timeout, elapsed: nat)
    requires !t.Forever?
    ensures DueAt(Act(c, Begin(id, t), elapsed), id, ExpiryOf(c.tick, t, elapsed))
  {
    var c1 := Abort(c, id);
    var e := Entry(id, ExpiryOf(c.tick, t, elapsed), c1.stamp);
    var p := Slot(c1.pending, e.expiry);
    assert (c1.pending[..p] + [e] + c1.pending[p..])[p] == e;
  }

  lemma {:induction false} OneMore(fired: seq<Entry>, n: nat, h: Entry, id: Tid)
    requires n <= |fired|
    ensures Beats((fired + [h])[n..], id) == Beats(fired[n..], id) + if h.id == id then [h.expiry] else []
  {
    var s := (fired + [h])[n..];
    assert s == fired[n..] + [h];
    assert s[..|s| - 1] == fired[n..];
  }

  /** After a firing the timer is due one stride and the lag later if it was the one to
      fire, and as before otherwise. */
  lemma {:induction false} FireDue(c: Clock, limit: nat, env: Env, id: Tid, due: nat, period: Timeout)
    requires Inv(c) && c.pending != [] && Drives(env, id, period) && DueAt(c, id, due)
    ensures var h := c.pending[0];
      && (h.id == id ==> h.expiry == due && DueAt(Fire(c, limit, env), id, due + Stride(period) + Lag(c, limit, env)))
      && (h.id != id ==> DueAt(Fire(c, limit, env), id, due))
  {
    hide ActAll, Drives, Apart, Stride, Inv, DueAt, DrivesOne;
    var h, k := c.pending[0], |c.fired|;
    var acts := env.callback(k, h.id, h.expiry);
    DrivesAt(env, id, period, k, h.id, h.expiry);
    PopKeeps(c);
    PopDue(c, id, due);
    if h.id == id {
      BeatOn(Pop(c), acts, Lag(c, limit, env), id, period);
    } else {
      OthersApart(acts, id, period, h.id);
      DueKeptAll(Pop(c), acts, Lag(c, limit, env), id, due);
    }
  }

  lemma {:induction false} OthersApart(acts: seq<Action>, id: Tid, period: Timeout, t: Tid)
    requires DrivesOne(acts, id, period, t) && t != id
    ensures Apart(acts, id)
  {
  }

  /** The head is the timer, due now, or the timer stays due. */
  lemma {:induction false} PopDue(c: Clock, id: Tid, due: nat)
    requires Inv(c) && c.pending != [] && DueAt(c, id, due)
    ensures if c.pending[0].id == id then c.pending[0].expiry == due else DueAt(Pop(c), id, due)
  {
    var h := c.pending[0];
    var e :| e in c.pending && e.id == id && e.expiry == due;
    assert h in c.pending && c.pending == [h] + c.pending[1..];
    if h.id == id {
      SameEntry(c, h, e);
    } else {
      assert e in Pop(c).pending;
    }
  }

  lemma {:induction false} DrivesAt(env: Env, id: Tid, period: Timeout, k: nat, t: Tid, tick: nat)
    requires Drives(env, id, period)
    ensures DrivesOne(env.callback(k, t, tick), id, period, t)
  {
  }

  lemma {:induction false} SameEntry(c: Clock, a: Entry, b: Entry)
    requires DistinctIds(c.pending) && a in c.pending && b in c.pending && a.id == b.id
    ensures a == b
  {
  }

  lemma {:induction false} DueOnce(c: Clock, id: Tid, x: nat, y: nat)
    requires Inv(c) && DueAt(c, id, x) && DueAt(c, id, y)
    ensures x == y
  {
    var e :| e in c.pending && e.id == id && e.expiry == x;
    var f :| f in c.pending && f.id == id && f.expiry == y;
    SameEntry(c, e, f);
  }

  lemma {:induction false} BeatOn(c: Clock, acts: seq<Action>, elapsed: nat, id: Tid, period: Timeout)
    requires Inv(c) && DrivesOne(acts, id, period, id)
    ensures DueAt(ActAll(c, acts, elapsed), id, c.tick + Stride(period) + elapsed)
  {
    hide Inv, DueAt, Act;
    assert acts[0] == [acts[0]][0] == Begin(id, Uptime(Ahead(period)));
    Restarted(c, id, Uptime(Ahead(period)), elapsed);
    ActKeeps(c, acts[0], elapsed);
    DueKeptAll(Act(c, acts[0], elapsed), acts[1..], elapsed, id, c.tick + Stride(period) + elapsed);
  }

  /** What a firing adds to the timer's delay. */
  function FireLag(c: Clock, limit: nat, env: Env, id: Tid): nat {
    if c.pending != [] && c.pending[0].id == id then Lag(c, limit, env) else 0
  }

  lemma {:induction false} FireBehind(c: Clock, limit: nat, env: Env, id: Tid, n: nat, first: nat, period: Timeout,
      d: nat)
    requires Inv(c) && c.pending != [] && Drives(env, id, period)
    requires Behind(c, id, n, first, Stride(period), d)
    ensures Behind(Fire(c, limit, env), id, n, first, Stride(period), d + FireLag(c, limit, env, id))
  {
    hide Fire, Drives, Beats, DueAt, Inv, Stride, Lag;
    var h, m, stride := c.pending[0], |Beats(c.fired[n..], id)|, Stride(period);
    FireKeeps(c, limit, env);
    OneMore(c.fired, n, h, id);
    FireDue(c, limit, env, id, first + m * stride + d, period);
    NextBeat(first, m, stride);
  }

  lemma {:induction false} NextBeat(first: nat, m: nat, stride: nat)
    ensures first + m * stride + stride == first + (m + 1) * stride
  {
  }

  /** The delay an announce adds: the lag of each firing of the timer. */
  ghost function AnnounceLag(c: Clock, limit: nat, env: Env, id: Tid): nat
    requires Inv(c) && c.tick <= limit
    decreases limit - c.tick, DueNow(c)
  {
    if c.pending == [] || c.pending[0].expiry > limit then 0
    else FireKeeps(c, limit, env); FireLag(c, limit, env, id) + AnnounceLag(Fire(c, limit, env), limit, env, id)
  }

  lemma {:induction false} AnnounceBehind(c: Clock, limit: nat, env: Env, id: Tid, n: nat, first: nat, period: Timeout,
      d: nat)
    requires Inv(c) && c.tick <= limit && Drives(env, id, period) && Behind(c, id, n, first, Stride(period), d)
    ensures Behind(Announce(c, limit, env), id, n, first, Stride(period), d + AnnounceLag(c, limit, env, id))
    decreases limit - c.tick, DueNow(c)
  {
    hide Inv, Drives, Fire, Beats, Quiet, FireLag, Stride;
    if c.pending != [] && c.pending[0].expiry <= limit {
      hide Behind;
      FireBehind(c, limit, env, id, n, first, period, d);
      FireKeeps(c, limit, env);
      AnnounceBehind(Fire(c, limit, env), limit, env, id, n, first, period, d + FireLag(c, limit, env, id));
    } else {
      StillDue(c, limit, id, first + |Beats(c.fired[n..], id)| * Stride(period) + d);
    }
  }

  lemma {:induction false} StillDue(c: Clock, limit: nat, id: Tid, expiry: nat)
    requires DueAt(c, id, expiry)
    ensures DueAt(c.(tick := limit), id, expiry)
  {
  }

  /** The delay a run adds. */
  ghost function RunLag(c: Clock, evs: seq<Event>, env: Env, id: Tid): nat
    requires Inv(c) && Quiet(c)
    decreases |evs|
  {
    if evs == [] then 0
    else
      HappenKeeps(c, evs[0], env);
      (if evs[0].Ticks? then AnnounceLag(c, c.tick + evs[0].n, env, id) else 0)
      + RunLag(Happen(c, evs[0], env), evs[1..], env, id)
  }

  /** Other calls do not delay the timer. */
  lemma {:induction false} ActBehind(c: Clock, a: Action, elapsed: nat, id: Tid, n: nat, first: nat, stride: nat,
      d: nat)
    requires Inv(c) && a.id != id && Behind(c, id, n, first, stride, d)
    ensures Behind(Act(c, a, elapsed), id, n, first, stride, d)
  {
    hide Inv, Beats, Act;
    ActKeeps(c, a, elapsed);
    DueKept(c, a, elapsed, id, first + |Beats(c.fired[n..], id)| * stride + d);
  }

  /** Over every run of calls that leave the timer alone, it is due exactly as many ticks
      behind its beat as its own firings saw elapsed. */
  lemma {:induction false} DriftExact(c: Clock, evs: seq<Event>, env: Env, c': Clock, id: Tid, n: nat, first: nat,
      period: Timeout, d: nat)
    requires Inv(c) && Quiet(c) && Reaches(c, evs, env, c') && Drives(env, id, period)
    requires forall i :: 0 <= i < |evs| && evs[i].Api? ==> evs[i].action.id != id
    requires Behind(c, id, n, first, Stride(period), d)
    ensures Inv(c') && Behind(c', id, n, first, Stride(period), d + RunLag(c, evs, env, id))
    decreases |evs|
  {
    hide Inv, Quiet, Drives, Act, Stride, Behind;
    if evs != [] {
      var ev := evs[0];
      HappenKeeps(c, ev, env);
      var lag := if ev.Ticks? then AnnounceLag(c, c.tick + ev.n, env, id) else 0;
      if ev.Api? {
        ActBehind(c, ev.action, ev.elapsed, id, n, first, Stride(period), d);
      } else {
        AnnounceBehind(c, c.tick + ev.n, env, id, n, first, period, d);
      }
      DriftExact(Happen(c, ev, env), evs[1..], env, c', id, n, first, period, d + lag);
    }
  }

  /** However ticks are batched into announces, a periodic timer's k-th firing is at
      first + k * stride, and it is due next right on the beat, if and only if none of
      its own firings saw ticks elapsed. */
  lemma {:induction false} NoDrift(c: Clock, evs: seq<Event>, env: Env, c': Clock, id: Tid, n: nat, first: nat,
      period: Timeout)
    requires Inv(c) && Quiet(c) && Reaches(c, evs, env, c') && Drives(env, id, period)
    requires forall i :: 0 <= i < |evs| && evs[i].Api? ==> evs[i].action.id != id
    requires OnBeat(c, id, n, first, Stride(period))
    ensures OnBeat(c', id, n, first, Stride(period)) <==> RunLag(c, evs, env, id) == 0
  {
    hide Inv, Quiet, Drives, Beats, Stride, RunLag, DueAt;
    DriftExact(c, evs, env, c', id, n, first, period, 0);
    if OnBeat(c', id, n, first, Stride(period)) {
      var due := first + |Beats(c'.fired[n..], id)| * Stride(period);
      DueOnce(c', id, due, due + RunLag(c, evs, env, id));
    }
  }

  /** One firing of the timer itself keeps the beat if and only if ticks are left to
      announce, or the hardware reports none elapsed. */
  lemma {:induction false} FireOnBeat(c: Clock, limit: nat, env: Env, id: Tid, n: nat, first: nat, period: Timeout)
    requires Inv(c) && c.pending != [] && c.pending[0].id == id && Drives(env, id, period)
    requires OnBeat(c, id, n, first, Stride(period))
    ensures OnBeat(Fire(c, limit, env), id, n, first, Stride(period)) <==>
        c.tick != limit || env.elapsed(|c.fired|) == 0
  {
    hide Inv, Drives, Beats, Stride, Fire, DueAt;
    FireBehind(c, limit, env, id, n, first, period, 0);
    FireKeeps(c, limit, env);
    var c' := Fire(c, limit, env);
    if OnBeat(c', id, n, first, Stride(period)) {
      var due := first + |Beats(c'.fired[n..], id)| * Stride(period);
      DueOnce(c', id, due, due + FireLag(c, limit, env, id));
    }
  }

  /** With the hardware at rest inside announces no run adds a delay. */
  lemma {:induction false} RestAddsNoLag(c: Clock, limit: nat, env: Env, id: Tid)
    requires Inv(c) && c.tick <= limit && ClockAtRest(env)
    ensures AnnounceLag(c, limit, env, id) == 0
    decreases limit - c.tick, DueNow(c)
  {
    hide Inv, Fire;
    if c.pending != [] && c.pending[0].expiry <= limit {
      FireKeeps(c, limit, env);
      RestAddsNoLag(Fire(c, limit, env), limit, env, id);
    }
  }

  lemma {:induction false} RestNeverDrifts(c: Clock, evs: seq<Event>, env: Env, id: Tid)
    requires Inv(c) && Quiet(c) && ClockAtRest(env)
    ensures RunLag(c, evs, env, id) == 0
    decreases |evs|
  {
    hide Inv, Quiet, Happen, AnnounceLag, ClockAtRest;
    if evs != [] {
      HappenKeeps(c, evs[0], env);
      if evs[0].Ticks? {
        RestAddsNoLag(c, c.tick + evs[0].n, env, id);
      }
      RestNeverDrifts(Happen(c, evs[0], env), evs[1..], env, id);
    }
  }

  /** Timer 1 with a period of ten ticks, tied at tick 1 with another timeout. */
  function TiedTimer(): Env {
    Env((k: nat, id: Tid, tick: nat) => if id == 1 then HandlerActions(1, false, Relative(10)) else [], (k: nat) => 5)
  }

  /** Tied with another on the last tick of an announce, the timer does drift: it fires with
      nothing left to announce, reads an uptime of 6 at tick 1, and is due at 16 instead
      of 11. */
  lemma {:induction false} TiedTimersDrift()
    ensures var c, env := Pop(TwoDue()), TiedTimer();
      && c.pending != [] && c.pending[0].id == 1 && c.tick == 1
      && DueAt(Fire(c, 1, env), 1, 16) && DueAt(Fire(c, 2, env), 1, 11)
  {
    var c, env := Pop(TwoDue()), TiedTimer();
    assert c.pending == [Entry(1, 1, 1)] && c.tick == 1 && |c.fired| == 1;
    var a := Begin(1, Uptime(9));
    assert env.callback(1, 1, 1) == [a] && [a][1..] == [];
    Restarted(Pop(c), 1, Uptime(9), 5);
    Restarted(Pop(c), 1, Uptime(9), 0);
    assert ActAll(Pop(c), [a], 5) == Act(Pop(c), a, 5) && ActAll(Pop(c), [a], 0) == Act(Pop(c), a, 0);
  }

  /** A timer started with a duration or at an absolute tick is on its beat from the start:
      first due that many ticks (at least one) after the current uptime, or at that tick
      (at least the next). */
  lemma {:induction false} StartOnBeat(c: Clock, id: Tid, duration: Timeout, stride: nat, elapsed: nat)
    requires Inv(c) && (duration.Relative? || duration.Absolute?)
    ensures var c' := Act(c, Begin(id, Adjusted(duration)), elapsed);
      var first :=
        if duration.Relative? then c.tick + elapsed + Max(duration.ticks, 1) else Max(c.tick + 1, duration.tick);
      OnBeat(c', id, |c.fired|, first, stride)
  {
    hide Act, Inv, Behind;
    ActKeeps(c, Begin(id, Adjusted(duration)), elapsed);
    Restarted(c, id, Adjusted(duration), elapsed);
    FirstBeat(Act(c, Begin(id, Adjusted(duration)), elapsed), id, ExpiryOf(c.tick, Adjusted(duration), elapsed),
        stride);
  }

  lemma {:induction false} FirstBeat(c: Clock, id: Tid, first: nat, stride: nat)
    requires DueAt(c, id, first)
    ensures Behind(c, id, |c.fired|, first, stride, 0)
  {
    hide DueAt;
    assert c.fired[|c.fired|..] == [] && 0 * stride == 0;
  }
}
