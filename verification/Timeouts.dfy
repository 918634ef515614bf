/** The timeout list of timeout.c: each node holds the ticks after its predecessor, and
    the list is changed in place. */
module Timeouts {
  import opened Rings
  import opened Clocks

  datatype Node = Node(id: Tid, dticks: int)

  /** A callback invocation: which timeout, and curr_tick at that moment. */
  datatype Invocation = Invocation(id: Tid, tick: nat)

  function ExpiryBefore(es: seq<Entry>, base: nat, i: nat): nat
    requires i <= |es|
  {
    if i == 0 then base else es[i - 1].expiry
  }

  /** The deltas of `list`, counted from tick `base`, add up to the expiries in `es`. */
  ghost predicate Matches(list: seq<Node>, es: seq<Entry>, base: nat) {
    && |list| == |es|
    && forall i {:trigger list[i]} {:trigger es[i]} :: 0 <= i < |list| ==>
         list[i].id == es[i].id && list[i].dticks == es[i].expiry - ExpiryBefore(es, base, i)
  }

  /** The list without node `p`, whose delta the next node takes over. */
  function HandOn(list: seq<Node>, p: nat): seq<Node>
    requires p < |list|
  {
    if p + 1 < |list| then
      list[..p] + [list[p + 1].(dticks := list[p + 1].dticks + list[p].dticks)] + list[p + 2..]
    else list[..p]
  }

  lemma {:induction false} MatchesRemove(list: seq<Node>, es: seq<Entry>, base: nat, p: nat)
    requires Matches(list, es, base) && p < |list|
    ensures Matches(HandOn(list, p), es[..p] + es[p + 1..], base)
  {
    var l, e := HandOn(list, p), es[..p] + es[p + 1..];
    forall i | 0 <= i < |l|
      ensures l[i].id == e[i].id && l[i].dticks == e[i].expiry - ExpiryBefore(e, base, i)
    {
      if i < p {
        assert l[i] == list[i] && e[i] == es[i];
        assert i > 0 ==> e[i - 1] == es[i - 1];
      } else if i == p {
        assert e[i] == es[p + 1] && list[p].id == es[p].id && list[p + 1].id == es[p + 1].id;
        assert i > 0 ==> e[i - 1] == es[i - 1];
      } else {
        assert l[i] == list[i + 1] && e[i] == es[i + 1] && e[i - 1] == es[i];
      }
    }
  }

  lemma {:induction false} MatchesInsert(list: seq<Node>, es: seq<Entry>, base: nat, p: nat, e: Entry)
    requires Matches(list, es, base) && p <= |list|
    ensures var d := e.expiry - ExpiryBefore(es, base, p);
      var list' := if p < |list| then list[p := list[p].(dticks := list[p].dticks - d)] else list;
      Matches(list'[..p] + [Node(e.id, d)] + list'[p..], es[..p] + [e] + es[p..], base)
  {
    var d := e.expiry - ExpiryBefore(es, base, p);
    var list' := if p < |list| then list[p := list[p].(dticks := list[p].dticks - d)] else list;
    var l, es' := list'[..p] + [Node(e.id, d)] + list'[p..], es[..p] + [e] + es[p..];
    forall i | 0 <= i < |l|
      ensures l[i].id == es'[i].id && l[i].dticks == es'[i].expiry - ExpiryBefore(es', base, i)
    {
      if i < p {
        assert l[i] == list[i] && es'[i] == es[i];
        if i > 0 { assert es'[i - 1] == es[i - 1]; }
      } else if i == p {
        if i > 0 { assert es'[i - 1] == es[i - 1]; }
      } else {
        assert l[i] == list'[i - 1] && es'[i] == es[i - 1] && es'[i - 1] == if i - 1 == p then e else es[i - 2];
        assert list[i - 1].id == es[i - 1].id;
      }
    }
  }

  lemma {:induction false} ExpiryDelta(tick: nat, t: Timeout, elapsed: nat)
    requires t.Absolute? || t.Relative?
    ensures ExpiryOf(tick, t, elapsed) - tick == if t.Absolute? then Max(1, t.tick - tick) else t.ticks + 1 + elapsed
  {
  }

  class TimeoutQueue {
    var currTick: nat
    var list: seq<Node>
    var announceRemaining: nat
    /** The callbacks invoked so far. */
    var log: seq<Invocation>
    ghost var clock: Clock

    ghost predicate Valid()
      reads this
    {
      && Inv(clock) && clock.tick == currTick && Matches(list, clock.pending, currTick)
      && |log| == |clock.fired|
      && forall i :: 0 <= i < |log| ==> log[i] == Invocation(clock.fired[i].id, clock.fired[i].expiry)
    }

    constructor ()
      ensures Valid() && clock == Boot && announceRemaining == 0
    {
      currTick, list, announceRemaining, log := 0, [], 0, [];
      clock := Boot;
      new;
      BootIsQuiet();
    }

    /** Position of a timeout in the list, or the length of the list. */
    method Locate(id: Tid) returns (p: nat)
      requires Valid()
      ensures p == Find(clock.pending, id) && p <= |list|
    {
      p := 0;
      while p < |list| && list[p].id != id
        invariant p <= |list| && p + Find(clock.pending[p..], id) == Find(clock.pending, id)
      {
        assert clock.pending[p].id == list[p].id;
        assert clock.pending[p..][1..] == clock.pending[p + 1..];
        p := p + 1;
      }
      if p < |list| { assert clock.pending[p..][0].id == list[p].id; }
    }

    /** remove_timeout: the next node takes over the removed delta. */
    method Remove(p: nat)
      requires Valid() && p < |list| == |clock.pending|
      modifies this`list
      ensures Matches(list, clock.pending[..p] + clock.pending[p + 1..], currTick)
    {
      hide Inv, Matches;
      MatchesRemove(list, clock.pending, currTick, p);
      ghost var was := list;
      if p + 1 < |list| {
        list := list[p + 1 := list[p + 1].(dticks := list[p + 1].dticks + list[p].dticks)];
      }
      list := list[..p] + list[p + 1..];
      assert list == HandOn(was, p);
    }

    /** z_abort_timeout: 0 if the timeout was linked, -EINVAL otherwise. */
    method AbortTimeout(id: Tid) returns (ret: int)
      requires Valid()
      modifies this`list, this`clock
      ensures Valid() && clock == Abort(old(clock), id) && !Linked(clock, id)
      ensures ret == if old(Linked(clock, id)) then 0 else -22
    {
      hide Inv, Matches;
      AbortKeeps(clock, id);
      var p := Locate(id);
      ret := -22;
      if p < |list| {
        MatchesLength(list, clock.pending, currTick);
        Remove(p);
        ret := 0;
      } else {
        MatchesLength(list, clock.pending, currTick);
      }
      clock := Abort(clock, id);
    }
  
    /** elapsed(): during an announce, time stands at the tick that is firing. */
    function Elapsed(hardware: nat): nat
      reads this
    {
      if announceRemaining == 0 then hardware else 0
    }

    /** z_add_timeout for a timeout that is not linked. */
    method AddTimeout(id: Tid, t: Timeout, hardware: nat)
      requires Valid() && !Linked(clock, id) && !t.Uptime?
      modifies this`list, this`clock
      ensures Valid() && clock == Add(old(clock), id, t, Elapsed(hardware))
    {
      hide Inv, ExpiryOf, Linked, Slot, Matches;
      if t.Forever? { return; }
      var dticks: int;
      if t.Absolute? {
        dticks := Max(1, t.tick - currTick);
      } else {
        dticks := t.ticks + 1 + Elapsed(hardware);
      }
      ExpiryDelta(currTick, t, Elapsed(hardware));
      ghost var e := Entry(id, ExpiryOf(currTick, t, Elapsed(hardware)), clock.stamp);
      AddKeeps(clock, id, t, Elapsed(hardware));
      MatchesLength(list, clock.pending, currTick);
      var p, left := FindSlot(dticks, e);
      Insert(p, left, id, e);
      clock := Add(clock, id, t, Elapsed(hardware));
    }

    /** The node goes in front of position `p`, whose delta shrinks accordingly. */
    method Insert(p: nat, dticks: int, id: Tid, ghost e: Entry)
      requires Matches(list, clock.pending, currTick) && p <= |list| == |clock.pending| && id == e.id
      requires dticks == e.expiry - ExpiryBefore(clock.pending, currTick, p)
      modifies this`list
      ensures Matches(list, clock.pending[..p] + [e] + clock.pending[p..], currTick)
    {
      hide Matches;
      MatchesInsert(list, clock.pending, currTick, p, e);
      if p < |list| {
        list := list[p := list[p].(dticks := list[p].dticks - dticks)];
      }
      list := list[..p] + [Node(id, dticks)] + list[p..];
    }

    /** The walk of z_add_timeout: past every node whose delta fits into what is left. */
    method FindSlot(dticks: int, ghost e: Entry) returns (i: nat, left: int)
      requires Valid() && dticks == e.expiry - currTick
      ensures i == Slot(clock.pending, e.expiry) && i <= |list| && i <= |clock.pending|
      ensures left == e.expiry - ExpiryBefore(clock.pending, currTick, i)
    {
      hide Inv;
      ghost var es := clock.pending;
      i, left := 0, dticks;
      while i < |list| && list[i].dticks <= left
        invariant i <= |list| && left == e.expiry - ExpiryBefore(es, currTick, i)
        invariant i + Slot(es[i..], e.expiry) == Slot(es, e.expiry)
      {
        assert list[i].dticks == es[i].expiry - ExpiryBefore(es, currTick, i);
        assert es[i..][0] == es[i] && es[i..][1..] == es[i + 1..];
        left, i := left - list[i].dticks, i + 1;
      }
      if i < |list| {
        assert list[i].dticks == es[i].expiry - ExpiryBefore(es, currTick, i);
        assert es[i..][0] == es[i];
      }
    }

    /** The body of a callback: its calls into the timeout list, one by one. */
    method RunCallback(acts: seq<Action>, hardware: nat)
      requires Valid()
      modifies this`list, this`clock
      ensures Valid() && clock == ActAll(old(clock), acts, Elapsed(hardware))
    {
      hide Inv, Matches, Abort, Add, Linked;
      var i := 0;
      assert acts[0..] == acts;
      while i < |acts|
        invariant i <= |acts| && Valid()
        invariant ActAll(clock, acts[i..], Elapsed(hardware)) == ActAll(old(clock), acts, Elapsed(hardware))
      {
        assert acts[i..][0] == acts[i] && acts[i..][1..] == acts[i + 1..];
        var _ := AbortTimeout(acts[i].id);
        if acts[i].Begin? {
          var t := acts[i].timeout;
          if t.Uptime? {
            AddByUptime(clock, acts[i].id, t.ahead, Elapsed(hardware));
            t := Absolute(currTick + Elapsed(hardware) + 1 + t.ahead);
          }
          AddTimeout(acts[i].id, t, hardware);
        }
        i := i + 1;
      }
    }

    /** The first node leaves the list at its own tick. */
    method TakeFirst() returns (id: Tid, dt: nat)
      requires Valid() && list != []
      modifies this`currTick, this`list, this`log, this`clock
      ensures Valid() && old(clock.pending) != [] && clock == Pop(old(clock))
      ensures id == old(clock.pending[0].id) && dt == clock.tick - old(clock.tick) && dt == old(list[0].dticks)
      ensures log == old(log) + [Invocation(id, currTick)]
    {
      PopKeeps(clock);
      FirstDelta(list, clock.pending, currTick);
      assert clock.pending[0] in clock.pending;
      hide Inv, Matches;
      id, dt := list[0].id, list[0].dticks;
      currTick := currTick + dt;
      list := list[1..];
      log := log + [Invocation(id, currTick)];
      clock := Pop(clock);
    }

    /** sys_clock_announce: fires what is due within `ticks`, each timeout at its own
        tick, and leaves the clock `ticks` later. */
    method SysClockAnnounce(ticks: nat, env: Env)
      requires Valid() && announceRemaining == 0
      modifies this
      ensures Valid() && announceRemaining == 0 && Quiet(clock)
      ensures clock == Announce(old(clock), old(currTick) + ticks, env)
    {
      hide Inv, Matches, Fire, Quiet;
      ghost var limit := currTick + ticks;
      announceRemaining := ticks;
      while list != [] && list[0].dticks <= announceRemaining
        invariant Valid() && announceRemaining == limit - currTick
        invariant Announce(clock, limit, env) == Announce(old(clock), limit, env)
        decreases limit - currTick, DueNow(clock)
      {
        FirstDelta(list, clock.pending, currTick);
        FireKeeps(clock, limit, env);
        FireUnfold(clock, limit, env);
        var k := |log|;
        var id, dt := TakeFirst();
        RunCallback(env.callback(k, id, currTick), env.elapsed(k));
        announceRemaining := announceRemaining - dt;
      }
      MatchesLength(list, clock.pending, currTick);
      if list != [] {
        FirstDelta(list, clock.pending, currTick);
        MatchesLater(list, clock.pending, currTick, announceRemaining);
        list := list[0 := list[0].(dticks := list[0].dticks - announceRemaining)];
      } else {
        MatchesEmpty(currTick + announceRemaining);
      }
      Idle(clock, limit);
      currTick := currTick + announceRemaining;
      announceRemaining := 0;
      clock := clock.(tick := limit);
    }

    /** timeout_rem: ticks from curr_tick to the expiry of a linked timeout. */
    method TimeoutRem(p: nat) returns (ticks: int)
      requires Valid() && p < |list|
      ensures ticks == clock.pending[p].expiry - currTick
    {
      hide Inv;
      var i := 0;
      ticks := 0;
      while i <= p
        invariant i <= p + 1 && ticks == ExpiryBefore(clock.pending, currTick, i) - currTick
      {
        assert list[i].id == clock.pending[i].id;
        ticks, i := ticks + list[i].dticks, i + 1;
      }
    }

    /** z_timeout_expires: the table's expiry, or now for a timeout that is not linked. */
    method TimeoutExpires(id: Tid) returns (tick: nat)
      requires Valid()
      ensures Linked(clock, id) ==> tick == clock.pending[Find(clock.pending, id)].expiry
      ensures !Linked(clock, id) ==> tick == currTick
    {
      var p := Locate(id);
      tick := currTick;
      if p < |list| {
        var rem := TimeoutRem(p);
        tick := tick + rem;
      }
    }

    /** z_timeout_remaining. */
    method TimeoutRemaining(id: Tid, hardware: nat) returns (ticks: int)
      requires Valid()
      ensures Linked(clock, id) ==>
          ticks == clock.pending[Find(clock.pending, id)].expiry - currTick - Elapsed(hardware)
      ensures !Linked(clock, id) ==> ticks == 0
    {
      var p := Locate(id);
      ticks := 0;
      if p < |list| {
        var rem := TimeoutRem(p);
        ticks := rem - Elapsed(hardware);
      }
    }
  }

  /** Asking for an absolute tick computed from the uptime. */
  lemma {:induction false} AddByUptime(c: Clock, id: Tid, ahead: nat, elapsed: nat)
    ensures Add(c, id, Absolute(c.tick + elapsed + 1 + ahead), elapsed) == Add(c, id, Uptime(ahead), elapsed)
  {
  }

  lemma {:induction false} MatchesLength(list: seq<Node>, es: seq<Entry>, base: nat)
    requires Matches(list, es, base)
    ensures |list| == |es|
  {
  }

  lemma {:induction false} MatchesEmpty(base: nat)
    ensures Matches([], [], base)
  {
  }

  /** All deltas are non-negative, and outside an announce the first is at least 1. */
  lemma {:induction false} DeltasNonNegative(list: seq<Node>, c: Clock)
    requires Inv(c) && Matches(list, c.pending, c.tick)
    ensures forall i :: 0 <= i < |list| ==> list[i].dticks >= 0
    ensures Quiet(c) && list != [] ==> list[0].dticks >= 1
  {
    forall i | 0 <= i < |list| ensures list[i].dticks >= 0 {
      assert c.pending[i] in c.pending;
      if i > 0 { assert Before(c.pending[i - 1], c.pending[i]); }
    }
    if list != [] {
      assert c.pending[0] in c.pending;
      assert list[0].dticks == c.pending[0].expiry - c.tick;
    }
  }

  lemma {:induction false} FirstDelta(list: seq<Node>, es: seq<Entry>, base: nat)
    requires Matches(list, es, base) && list != []
    ensures es != [] && list[0].id == es[0].id && list[0].dticks == es[0].expiry - base
    ensures Matches(list[1..], es[1..], es[0].expiry)
  {
    var l, e := list[1..], es[1..];
    forall i | 0 <= i < |l|
      ensures l[i].id == e[i].id && l[i].dticks == e[i].expiry - ExpiryBefore(e, es[0].expiry, i)
    {
      assert l[i] == list[i + 1] && e[i] == es[i + 1];
    }
    assert list[0].id == es[0].id;
  }

  lemma {:induction false} MatchesLater(list: seq<Node>, es: seq<Entry>, base: nat, ticks: nat)
    requires Matches(list, es, base) && list != []
    ensures Matches(list[0 := list[0].(dticks := list[0].dticks - ticks)], es, base + ticks)
  {
    assert list[0].id == es[0].id;
  }

  lemma {:induction false} FireUnfold(c: Clock, limit: nat, env: Env)
    requires c.pending != []
    ensures var h, k := c.pending[0], |c.fired|;
      Fire(c, limit, env) == ActAll(Pop(c), env.callback(k, h.id, h.expiry),
          if c.tick == limit then env.elapsed(k) else 0)
  {
  }
}
