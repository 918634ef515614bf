/** poll.c as it runs: each locked section changes event lists and pollers in place, and is
    proved to be the step the theorems about runs speak of. */
module Pollers {
  import opened Rings
  import opened RunQueues
  import opened Polls

  class PollKernel {
    var pollers: seq<Poller>
    var lists: map<nat, seq<Ev>>
    var ready: set<nat>

    ghost function Here(): World
      reads this
    {
      World(pollers, lists, ready)
    }

    ghost predicate Valid()
      reads this
    {
      Inv(Here())
    }

    /** Every list names existing pollers. */
    ghost predicate Sized()
      reads this
    {
      forall o, k :: 0 <= k < |List(Here(), o)| ==> List(Here(), o)[k].p < |pollers|
    }

    lemma ValidSized()
      requires Valid()
      ensures Sized()
    {
      forall o, k | 0 <= k < |List(Here(), o)| ensures List(Here(), o)[k].p < |pollers| {
        assert ListOk(Here(), o);
        assert List(Here(), o)[k] in List(Here(), o);
      }
    }

    /** The place add_event finds. */
    method FindSlot(q: seq<Ev>, r: Rank) returns (at: nat)
      requires forall k :: 0 <= k < |q| ==> q[k].p < |pollers|
      ensures at == EventSlot(Ranks(Here(), q), r)
    {
      ghost var rs := Ranks(Here(), q);
      if q == [] || PrioCmp(pollers[q[|q| - 1].p].rank, r) > 0 {
        return |q|;
      }
      at := 0;
      while at < |q| && PrioCmp(r, pollers[q[at].p].rank) <= 0
        invariant at <= |q| && at + Slot(rs[at..], r) == Slot(rs, r)
      {
        assert rs[at..][0] == pollers[q[at].p].rank && rs[at..][1..] == rs[at + 1..];
        at := at + 1;
      }
      if at < |q| {
        assert rs[at..][0] == pollers[q[at].p].rank;
      }
    }

    /** add_event. */
    method AddEvent(p: nat, i: nat, o: nat)
      requires Sized() && p < |pollers|
      modifies this`lists
      ensures Here() == Link(old(Here()), p, i, o)
    {
      var q := if o in lists then lists[o] else [];
      assert q == List(Here(), o);
      hide EventSlot, Ranks;
      var at := FindSlot(q, pollers[p].rank);
      lists := lists[o := q[..at] + [Ev(p, i)] + q[at..]];
    }

    /** One round of register_events: its condition is met, or it is registered while the
        poller still polls, or it is passed over. */
    method RegisterRound(p: nat)
      requires Valid() && Enabled(Here(), RegisterStep(p))
      modifies this
      ensures Valid() && Here() == Register(old(Here()), p)
    {
      RegisterKeeps(Here(), p);
      ValidSized();
      hide Inv, Link;
      var x := pollers[p];
      var ii, cnt := x.pc.ii, x.pc.cnt;
      var e := x.events[ii];
      if e.kind.On? && e.kind.o in ready {
        x := x.(events := x.events[ii := e.(armed := false, state := e.state + {e.kind.flag})], polling := false);
      } else if !x.noWait && x.polling {
        if e.kind.On? {
          AddEvent(p, ii, e.kind.o);
        }
        x := x.(events := x.events[ii := e.(armed := true)], registered := x.registered + [ii]);
        cnt := cnt + 1;
      }
      pollers := pollers[p := x.(pc := Registering(ii + 1, cnt))];
    }

    /** The section of k_poll between register_events and its wait or return. */
    method CheckPolling(p: nat)
      requires Valid() && Enabled(Here(), CheckStep(p))
      modifies this`pollers
      ensures Valid() && Here() == Check(old(Here()), p)
    {
      CheckKeeps(Here(), p);
      hide Inv;
      var x := pollers[p];
      if !x.polling {
        pollers := pollers[p := x.(pc := Clearing(x.pc.cnt, Success))];
        return;
      }
      x := x.(polling := false);
      if x.noWait {
        pollers := pollers[p := x.(pc := Done(Again))];
      } else {
        pollers := pollers[p := x.(pc := Pending(x.pc.cnt))];
      }
    }

    /** One round of clear_event_registrations, or the return. */
    method ClearRound(p: nat)
      requires Valid() && Enabled(Here(), ClearStep(p))
      modifies this
      ensures Valid() && Here() == Clear(old(Here()), p)
    {
      ClearKeeps(Here(), p);
      hide Inv, Remove;
      var x := pollers[p];
      if x.pc.k == 0 {
        pollers := pollers[p := x.(pc := Done(x.pc.rc))];
        return;
      }
      var i := x.pc.k - 1;
      var e := x.events[i];
      if e.kind.On? {
        var q := Unlink(if e.kind.o in lists then lists[e.kind.o] else [], Ev(p, i));
        lists := lists[e.kind.o := q];
      }
      pollers := pollers[p := x.(pc := Clearing(i, x.pc.rc), events := x.events[i := e.(armed := false)])];
    }

    /** z_handle_obj_poll_events with signal_poll_event: the object's first event, if any,
        is taken off and its poller woken. */
    method HandleObjPollEvents(o: nat, flag: Flag)
      requires Valid()
      modifies this
      ensures Valid() && Here() == Signal(old(Here()), o, flag)
    {
      SignalKeeps(Here(), o, flag);
      if o in lists && lists[o] != [] {
        var e := lists[o][0];
        assert ListOk(Here(), o);
        assert e in List(Here(), o) && Linked(Here(), e.p, e.i);
        hide Inv;
        lists := lists[o := lists[o][1..]];
        var x := pollers[e.p];
        var event := x.events[e.i];
        if event.armed {
          if x.pc.Pending? {
            x := x.(pc := Clearing(x.pc.cnt, if flag == Cancelled then Interrupted else Success));
          }
          x := x.(polling := false);
        }
        x := x.(events := x.events[e.i := event.(armed := false, state := event.state + {flag})]);
        pollers := pollers[e.p := x];
      }
    }

    /** register_events, nobody interfering: it reports exactly the events whose objects are
        available, and the poller goes on polling exactly if there are none. */
    method RegisterEvents(p: nat)
      requires Valid() && p < |pollers| && pollers[p].pc == Registering(0, 0) && pollers[p].polling
      modifies this
      ensures Valid() && |pollers| == old(|pollers|) && ready == old(ready)
      ensures Reported(old(pollers[p]), pollers[p], ready, |pollers[p].events|) &&
          pollers[p].noWait == old(pollers[p].noWait)
      ensures pollers[p].pc.Registering? && pollers[p].pc.ii == |pollers[p].events|
      ensures pollers[p].polling <==> NoneReady(old(pollers[p].events), ready, |pollers[p].events|)
    {
      hide Inv, Register;
      ghost var x := pollers[p];
      while pollers[p].pc.ii < |pollers[p].events|
        invariant Valid() && |pollers| == old(|pollers|) && ready == old(ready)
        invariant pollers[p].pc.Registering? && pollers[p].pc.ii <= |pollers[p].events| && pollers[p].noWait == x.noWait
        invariant Reported(x, pollers[p], ready, pollers[p].pc.ii)
        invariant pollers[p].polling <==> NoneReady(x.events, ready, pollers[p].pc.ii)
        decreases |pollers[p].events| - pollers[p].pc.ii
      {
        RoundReports(Here(), p, x);
        RegisterRound(p);
      }
    }

    /** clear_event_registrations, down to the return. */
    method ClearRegistrations(p: nat)
      requires Valid() && p < |pollers| && pollers[p].pc.Clearing? && pollers[p].pc.k <= |pollers[p].events|
      modifies this
      ensures Valid() && |pollers| == old(|pollers|) && ready == old(ready)
      ensures pollers[p].pc == Done(old(pollers[p].pc.rc)) && SameStates(old(pollers[p]), pollers[p])
    {
      hide Inv, Clear;
      ghost var x := pollers[p];
      while pollers[p].pc.Clearing?
        invariant Valid() && |pollers| == old(|pollers|) && ready == old(ready) && SameStates(x, pollers[p])
        invariant pollers[p].pc == Done(x.pc.rc)
          || (pollers[p].pc.Clearing? && pollers[p].pc.rc == x.pc.rc && pollers[p].pc.k <= |pollers[p].events|)
        decreases if pollers[p].pc.Clearing? then 1 + pollers[p].pc.k else 0
      {
        ClearClears(Here(), p);
        ClearRound(p);
      }
    }

    /** k_poll, nobody interfering, up to its wait or its return: it reports exactly the
        events whose objects are available; it returns 0 if there are any; otherwise it
        returns -EAGAIN or waits. */
    method Poll(p: nat, events: seq<Event>, noWait: bool)
      requires Valid() && Enabled(Here(), BeginStep(p, events, noWait))
      modifies this
      ensures Valid() && |pollers| == old(|pollers|) && ready == old(ready)
      ensures |pollers[p].events| == |events|
      ensures forall i :: 0 <= i < |events| ==>
        pollers[p].events[i].state == events[i].state + if IsReady(events[i], ready) then {events[i].kind.flag} else {}
      ensures pollers[p].pc == Done(Success) <==> !NoneReady(events, ready, |events|)
      ensures NoneReady(events, ready, |events|) ==> pollers[p].pc == if noWait then Done(Again) else Pending(|events|)
    {
      hide Inv, Begin, Check;
      BeginKeeps(Here(), p, events, noWait);
      BeginBegins(Here(), p, events, noWait);
      pollers := pollers[p := Poller(pollers[p].rank, Registering(0, 0), true, noWait, events, [])];
      RegisterEvents(p);
      ghost var x := pollers[p];
      CheckChecks(Here(), p);
      CheckPolling(p);
      if pollers[p].pc.Clearing? {
        ClearRegistrations(p);
      }
    }
  }

  /** is_condition_met. */
  predicate IsReady(e: Event, ready: set<nat>) {
    e.kind.On? && e.kind.o in ready
  }

  /** None of the first `n` events is ready. */
  ghost predicate NoneReady(es: seq<Event>, ready: set<nat>, n: nat) {
    forall i :: 0 <= i < |es| && i < n ==> !IsReady(es[i], ready)
  }

  /** The first `n` events have been looked at: those ready have their flag, the rest of the
      states are as before. */
  ghost predicate Reported(x: Poller, x': Poller, ready: set<nat>, n: nat) {
    && |x'.events| == |x.events|
    && forall i :: 0 <= i < |x.events| ==>
         && x'.events[i].kind == x.events[i].kind
         && x'.events[i].state == x.events[i].state +
           if i < n && IsReady(x.events[i], ready) then {x.events[i].kind.flag} else {}
  }

  ghost predicate SameStates(x: Poller, x': Poller) {
    |x'.events| == |x.events| && forall i :: 0 <= i < |x.events| ==>
      x'.events[i].kind == x.events[i].kind && x'.events[i].state == x.events[i].state
  }

  lemma {:induction false} RoundReports(w: World, p: nat, x: Poller)
    requires Enabled(w, RegisterStep(p)) && Reported(x, w.pollers[p], w.ready, w.pollers[p].pc.ii)
    requires w.pollers[p].polling <==> NoneReady(x.events, w.ready, w.pollers[p].pc.ii)
    ensures var w' := Register(w, p); var ii := w.pollers[p].pc.ii;
      && |w'.pollers| == |w.pollers| && w'.ready == w.ready && w'.pollers[p].noWait == w.pollers[p].noWait
      && w'.pollers[p].pc.Registering? && w'.pollers[p].pc.ii == ii + 1
      && Reported(x, w'.pollers[p], w'.ready, ii + 1)
      && (w'.pollers[p].polling <==> NoneReady(x.events, w'.ready, ii + 1))
  {
    hide EventSlot, Ranks;
    var ii := w.pollers[p].pc.ii;
    assert NoneReady(x.events, w.ready, ii + 1) <==>
        NoneReady(x.events, w.ready, ii) && !IsReady(x.events[ii], w.ready);
  }

  lemma {:induction false} ClearClears(w: World, p: nat)
    requires Enabled(w, ClearStep(p))
    ensures var x, w' := w.pollers[p], Clear(w, p);
      && |w'.pollers| == |w.pollers| && w'.ready == w.ready && SameStates(x, w'.pollers[p])
      && (if x.pc.k == 0 then w'.pollers[p].pc == Done(x.pc.rc) else w'.pollers[p].pc == Clearing(x.pc.k - 1, x.pc.rc))
  {
    hide Remove;
  }

  lemma {:induction false} CheckChecks(w: World, p: nat)
    requires Inv(w) && Enabled(w, CheckStep(p))
    ensures var x, w' := w.pollers[p], Check(w, p);
      && |w'.pollers| == |w.pollers| && w'.ready == w.ready && w'.pollers[p].events == x.events
      && (!x.polling ==> w'.pollers[p].pc == Clearing(x.pc.cnt, Success) && x.pc.cnt <= |x.events|)
      && (x.polling ==> w'.pollers[p].pc == if x.noWait then Done(Again) else Pending(|x.events|))
  {
    assert PollerOk(w, p);
    hide LinkedBelow, LinkedAll, Reports, UpTo, ListOk;
  }

  lemma {:induction false} BeginBegins(w: World, p: nat, events: seq<Event>, noWait: bool)
    requires p < |w.pollers|
    ensures Begin(w, p, events, noWait) ==
      w.(pollers := w.pollers[p := Poller(w.pollers[p].rank, Registering(0, 0), true, noWait, events, [])])
  {
  }
}
