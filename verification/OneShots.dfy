/** Kernel timers without a period (timer.c), and what a timer's expiry does to the timeout
    list. */
module OneShots {
  import opened Rings
  import opened Clocks
  import opened Timeouts
  import opened Timers

  /** A timer with a period comes round after exactly that; an absolute period counts as one
      tick. */
  lemma {:induction false} StrideIsPeriod(period: Timeout)
    ensures period.Relative? && period.ticks > 0 ==> Periodic(period) && Stride(period) == period.ticks
    ensures period.Absolute? ==> Periodic(period) && Stride(period) == 1
    ensures Periodic(period) <==> period != Relative(0) && period != Forever
  {
  }

  /** What z_timer_expiration_handler does to the list: nothing if the timer was started anew
      meanwhile or has no period; otherwise the timer is due one stride after the uptime, and
      every other timeout stays. */
  lemma {:induction false} HandlerDoes(c: Clock, id: Tid, period: Timeout, elapsed: nat)
    requires Inv(c)
    ensures var c' := ActAll(c, HandlerActions(id, Linked(c, id), period), elapsed);
      if Linked(c, id) || period == Relative(0) || period == Forever then c' == c
      else Joins(c, c', id, c.tick + elapsed + Stride(period))
  {
    if !Linked(c, id) && Periodic(period) {
      hide Inv, Linked;
      AddUnlinked(c, id, Uptime(Ahead(period)), elapsed);
      AddDue(c, id, Uptime(Ahead(period)), elapsed);
    }
  }

  // ---- a timer without a period fires once ---------------------------------------------------------

  /** The timer's callback is its handler, perhaps followed by other calls; nobody else
      touches the timer. */
  ghost predicate Serves(env: Env, id: Tid, period: Timeout) {
    forall k: nat, t: Tid, tick: nat :: ServesOne(env.callback(k, t, tick), id, period, t)
  }

  ghost predicate ServesOne(acts: seq<Action>, id: Tid, period: Timeout, t: Tid) {
    var own := if t == id then HandlerActions(id, false, period) else [];
    own <= acts && Apart(acts[|own|..], id)
  }

  /** The timer is not pending. */
  ghost predicate Away(c: Clock, id: Tid) {
    forall e :: e in c.pending ==> e.id != id
  }

  /** The timer has yet to fire at `due`, or has fired then and is pending no more. */
  ghost predicate Once(c: Clock, id: Tid, n: nat, due: nat) {
    && n <= |c.fired|
    && var beats := Beats(c.fired[n..], id);
       (beats == [] && DueAt(c, id, due)) || (beats == [due] && Away(c, id))
  }

  lemma {:induction false} AwayKept(c: Clock, acts: seq<Action>, elapsed: nat, id: Tid)
    requires Inv(c) && Away(c, id) && Apart(acts, id)
    ensures Away(ActAll(c, acts, elapsed), id)
    decreases |acts|
  {
    hide Inv, Act;
    if acts != [] {
      var a := acts[0];
      ActBecomes(c, a, elapsed);
      ActKeeps(c, a, elapsed);
      assert Away(Act(c, a, elapsed), id);
      assert Apart(acts[1..], id);
      AwayKept(Act(c, a, elapsed), acts[1..], elapsed, id);
    }
  }

  lemma {:induction false} NothingOwn(acts: seq<Action>, id: Tid, period: Timeout, t: Tid)
    requires ServesOne(acts, id, period, t) && (period == Relative(0) || period == Forever)
    ensures Apart(acts, id)
  {
    assert acts[0..] == acts;
  }

  lemma {:induction false} PopOnce(c: Clock, id: Tid, n: nat, due: nat)
    requires Inv(c) && c.pending != [] && Once(c, id, n, due)
    ensures Once(Pop(c), id, n, due)
  {
    var h := c.pending[0];
    OneMore(c.fired, n, h, id);
    assert h in c.pending && c.pending == [h] + c.pending[1..];
    hide Beats;
    if DueAt(c, id, due) {
      PopDue(c, id, due);
      if h.id == id {
        assert forall i :: 0 < i < |c.pending| ==> c.pending[i].id != c.pending[0].id;
      }
    }
  }

  lemma {:induction false} ActsOnce(c: Clock, acts: seq<Action>, elapsed: nat, id: Tid, n: nat, due: nat)
    requires Inv(c) && Once(c, id, n, due) && Apart(acts, id)
    ensures Once(ActAll(c, acts, elapsed), id, n, due)
  {
    hide Inv, Beats, DueAt, Away, ActAll;
    ActAllKeeps(c, acts, elapsed);
    if DueAt(c, id, due) {
      DueKeptAll(c, acts, elapsed, id, due);
    }
    if Away(c, id) {
      AwayKept(c, acts, elapsed, id);
    }
  }

  lemma {:induction false} FireOnce(c: Clock, limit: nat, env: Env, id: Tid, n: nat, due: nat, period: Timeout)
    requires Inv(c) && c.pending != [] && Once(c, id, n, due)
    requires Serves(env, id, period) && (period == Relative(0) || period == Forever)
    ensures Once(Fire(c, limit, env), id, n, due)
  {
    var h, k := c.pending[0], |c.fired|;
    var acts := env.callback(k, h.id, h.expiry);
    assert ServesOne(acts, id, period, h.id);
    hide Inv, Once, ActAll, ServesOne, Apart, Serves;
    NothingOwn(acts, id, period, h.id);
    PopOnce(c, id, n, due);
    PopKeeps(c);
    ActsOnce(Pop(c), acts, if c.tick == limit then env.elapsed(k) else 0, id, n, due);
  }

  lemma {:induction false} AnnounceOnce(c: Clock, limit: nat, env: Env, id: Tid, n: nat, due: nat, period: Timeout)
    requires Inv(c) && c.tick <= limit && Once(c, id, n, due)
    requires Serves(env, id, period) && (period == Relative(0) || period == Forever)
    ensures Once(Announce(c, limit, env), id, n, due)
    decreases limit - c.tick, DueNow(c)
  {
    hide Inv, Fire, Quiet, Serves, Beats;
    if c.pending != [] && c.pending[0].expiry <= limit {
      hide Once;
      FireOnce(c, limit, env, id, n, due, period);
      FireKeeps(c, limit, env);
      AnnounceOnce(Fire(c, limit, env), limit, env, id, n, due, period);
    }
  }

  lemma {:induction false} RunOnce(c: Clock, evs: seq<Event>, env: Env, c': Clock, id: Tid, n: nat, due: nat,
                                   period: Timeout)
    requires Inv(c) && Quiet(c) && Reaches(c, evs, env, c') && Once(c, id, n, due)
    requires Serves(env, id, period) && (period == Relative(0) || period == Forever)
    requires forall i :: 0 <= i < |evs| && evs[i].Api? ==> evs[i].action.id != id
    ensures Inv(c') && Quiet(c') && Once(c', id, n, due) && c.fired <= c'.fired
    decreases |evs|
  {
    hide Inv, Quiet, Serves, Act, Once;
    if evs != [] {
      var ev := evs[0];
      HappenKeeps(c, ev, env);
      if ev.Api? {
        ActsOnce(c, [ev.action], ev.elapsed, id, n, due);
        OneAct(c, ev.action, ev.elapsed);
      } else {
        AnnounceOnce(c, c.tick + ev.n, env, id, n, due, period);
      }
      RunOnce(Happen(c, ev, env), evs[1..], env, c', id, n, due, period);
    }
  }

  lemma {:induction false} OneAct(c: Clock, a: Action, elapsed: nat)
    ensures ActAll(c, [a], elapsed) == Act(c, a, elapsed)
  {
    assert [a][1..] == [];
    assert ActAll(c, [a], elapsed) == ActAll(Act(c, a, elapsed), [a][1..], elapsed);
  }

  lemma {:induction false} BeatFired(fired: seq<Entry>, id: Tid, j: nat) returns (e: Entry)
    requires j < |Beats(fired, id)|
    ensures e in fired && e.expiry == Beats(fired, id)[j]
    decreases |fired|
  {
    var last, rest := fired[|fired| - 1], fired[..|fired| - 1];
    if j < |Beats(rest, id)| {
      e := BeatFired(rest, id, j);
    } else {
      e := last;
    }
  }

  /** Over every run of calls that leave it alone, a timer without a period that is due fires
      exactly once, at its tick and once that has come, and is then pending no more. */
  lemma {:induction false} OneShot(c: Clock, evs: seq<Event>, env: Env, c': Clock, id: Tid, due: nat, period: Timeout)
    requires Inv(c) && Quiet(c) && Reaches(c, evs, env, c') && DueAt(c, id, due)
    requires Serves(env, id, period) && (period == Relative(0) || period == Forever)
    requires forall i :: 0 <= i < |evs| && evs[i].Api? ==> evs[i].action.id != id
    ensures c.fired <= c'.fired
    ensures var beats := Beats(c'.fired[|c.fired|..], id);
      if due <= c'.tick then beats == [due] && Away(c', id) else beats == [] && DueAt(c', id, due)
  {
    var n := |c.fired|;
    assert c.fired[n..] == [];
    RunOnce(c, evs, env, c', id, n, due, period);
    var beats := Beats(c'.fired[n..], id);
    if beats == [due] {
      var e := BeatFired(c'.fired[n..], id, 0);
      assert e in c'.fired;
    }
    hide Beats;
  }
}
