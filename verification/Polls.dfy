/** Polling (poll.c): threads that register their events with kernel objects, wait, and take
    the events back, one short locked section at a time, while objects signal at any moment. */
module Polls {
  import opened Rings
  import opened RunQueues

  datatype Flag = SemAvailable | FifoData | Signaled | MsgqData | PipeData | Cancelled

  /** What an event waits for: nothing, or object `o` to become available. */
  datatype Kind = Ignore | On(o: nat, flag: Flag)

  /** `armed` says that the event names its poller. */
  datatype Event = Event(kind: Kind, state: set<Flag>, armed: bool)

  /** 0, -EAGAIN, -EINTR. */
  datatype Code = Success | Again | Interrupted

  /** Where a thread is in k_poll: event `ii` is next to be looked at and `cnt` are
      registered; `k` registrations are left to clear. */
  datatype Pc = Idle | Registering(ii: nat, cnt: nat) | Pending(cnt: nat) | Clearing(k: nat, rc: Code) | Done(rc: Code)

  /** `registered` is history: the events passed to register_event, in order. */
  datatype Poller = Poller(rank: Rank, pc: Pc, polling: bool, noWait: bool, events: seq<Event>, registered: seq<nat>)

  /** Event `i` of poller `p`. */
  datatype Ev = Ev(p: nat, i: nat)

  /** `lists` holds each object's linked events; `ready` the objects available now. */
  datatype World = World(pollers: seq<Poller>, lists: map<nat, seq<Ev>>, ready: set<nat>)

  function List(w: World, o: nat): seq<Ev> {
    if o in w.lists then w.lists[o] else []
  }

  function RankOf(w: World, e: Ev): Rank {
    if e.p < |w.pollers| then w.pollers[e.p].rank else Rank(0, 0, 0)
  }

  function Ranks(w: World, es: seq<Ev>): (r: seq<Rank>)
    ensures |r| == |es|
  {
    seq(|es|, i requires 0 <= i < |es| => RankOf(w, es[i]))
  }

  /** is_condition_met. */
  predicate Met(w: World, e: Event) {
    e.kind.On? && e.kind.o in w.ready
  }

  /** add_event: at the tail if the last one is of higher priority, otherwise in front of
      the first that the newcomer beats. */
  function EventSlot(q: seq<Rank>, r: Rank): (p: nat)
    ensures p <= |q|
  {
    if q == [] || PrioCmp(q[|q| - 1], r) > 0 then |q| else Slot(q, r)
  }

  // ---- the locked sections -------------------------------------------------------------------

  function SetPoller(w: World, p: nat, x: Poller): World
    requires p < |w.pollers|
  {
    w.(pollers := w.pollers[p := x])
  }

  function Link(w: World, p: nat, i: nat, o: nat): World
    requires p < |w.pollers|
  {
    var q := List(w, o);
    var at := EventSlot(Ranks(w, q), w.pollers[p].rank);
    w.(lists := w.lists[o := q[..at] + [Ev(p, i)] + q[at..]])
  }

  /** k_poll up to register_events. */
  function Begin(w: World, p: nat, events: seq<Event>, noWait: bool): World
    requires p < |w.pollers|
  {
    SetPoller(w, p, Poller(w.pollers[p].rank, Registering(0, 0), true, noWait, events, []))
  }

  /** One round of register_events. */
  function Register(w: World, p: nat): World
    requires p < |w.pollers| && w.pollers[p].pc.Registering? && w.pollers[p].pc.ii < |w.pollers[p].events|
  {
    var x := w.pollers[p];
    var ii, cnt := x.pc.ii, x.pc.cnt;
    var e := x.events[ii];
    if Met(w, e) then
      SetPoller(w, p, x.(pc := Registering(ii + 1, cnt), polling := false,
                         events := x.events[ii := e.(armed := false, state := e.state + {e.kind.flag})]))
    else if !x.noWait && x.polling then
      var w1 := if e.kind.On? then Link(w, p, ii, e.kind.o) else w;
      SetPoller(w1, p, x.(pc := Registering(ii + 1, cnt + 1), events := x.events[ii := e.(armed := true)],
                          registered := x.registered + [ii]))
    else SetPoller(w, p, x.(pc := Registering(ii + 1, cnt)))
  }

  /** k_poll between register_events and its wait or its return. */
  function Check(w: World, p: nat): World
    requires p < |w.pollers| && w.pollers[p].pc.Registering?
  {
    var x := w.pollers[p];
    if !x.polling then SetPoller(w, p, x.(pc := Clearing(x.pc.cnt, Success)))
    else SetPoller(w, p, x.(polling := false, pc := if x.noWait then Done(Again) else Pending(x.pc.cnt)))
  }

  /** The wait times out. */
  function TimeOut(w: World, p: nat): World
    requires p < |w.pollers| && w.pollers[p].pc.Pending?
  {
    var x := w.pollers[p];
    SetPoller(w, p, x.(pc := Clearing(x.pc.cnt, Again)))
  }

  /** One round of clear_event_registrations, or the return from k_poll. */
  function Clear(w: World, p: nat): World
    requires p < |w.pollers| && w.pollers[p].pc.Clearing? && w.pollers[p].pc.k <= |w.pollers[p].events|
  {
    var x := w.pollers[p];
    if x.pc.k == 0 then SetPoller(w, p, x.(pc := Done(x.pc.rc)))
    else
      var i := x.pc.k - 1;
      var e := x.events[i];
      var w1 := if e.kind.On? then w.(lists := w.lists[e.kind.o := Remove(List(w, e.kind.o), Ev(p, i))]) else w;
      SetPoller(w1, p, x.(pc := Clearing(i, x.pc.rc), events := x.events[i := e.(armed := false)]))
  }

  /** signal_poll_event for an event taken off its list. */
  function Notify(x: Poller, i: nat, flag: Flag): Poller
    requires i < |x.events|
  {
    var e := x.events[i];
    var x1 :=
      if e.armed then
        x.(polling := false,
           pc := if x.pc.Pending? then Clearing(x.pc.cnt, if flag == Cancelled then Interrupted else Success) else x.pc)
      else x;
    x1.(events := x.events[i := e.(armed := false, state := e.state + {flag})])
  }

  /** z_handle_obj_poll_events: the first linked event of the object is signalled. */
  function Signal(w: World, o: nat, flag: Flag): World {
    var q := List(w, o);
    if q == [] then w
    else
      var w1 := w.(lists := w.lists[o := q[1..]]);
      var e := q[0];
      if e.p < |w.pollers| && e.i < |w.pollers[e.p].events| then
        SetPoller(w1, e.p, Notify(w.pollers[e.p], e.i, flag))
      else w1
  }

  /** z_thread_prio_set on a thread, polling or not: no list is sorted anew. */
  function Rerank(w: World, p: nat, rank: Rank): World
    requires p < |w.pollers|
  {
    SetPoller(w, p, w.pollers[p].(rank := rank))
  }

  // ---- what holds between any two of them ------------------------------------------------------

  /** Event `i` of poller `p` is linked in its object's list. */
  predicate Linked(w: World, p: nat, i: nat) {
    && p < |w.pollers| && i < |w.pollers[p].events| && w.pollers[p].events[i].kind.On?
    && Ev(p, i) in List(w, w.pollers[p].events[i].kind.o)
  }

  /** An object's list holds, once each, events that wait for that object. */
  ghost predicate ListOk(w: World, o: nat) {
    && Distinct(List(w, o))
    && forall e :: e in List(w, o) ==> Linked(w, e.p, e.i) && w.pollers[e.p].events[e.i].kind.o == o
  }

  /** Some event of the poller has a state to report. */
  ghost predicate Reports(x: Poller) {
    exists i :: 0 <= i < |x.events| && x.events[i].state != {}
  }

  function UpTo(n: nat): (r: seq<nat>)
    ensures |r| == n
  {
    seq(n, i requires 0 <= i < n => i)
  }

  /** A linked event is armed, and among the first `n`. */
  ghost predicate LinkedBelow(w: World, p: nat, n: nat)
    requires p < |w.pollers|
  {
    forall i :: 0 <= i < |w.pollers[p].events| && Linked(w, p, i) ==> i < n && w.pollers[p].events[i].armed
  }

  /** Each of the first `n` events that waits for an object is linked. */
  ghost predicate LinkedAll(w: World, p: nat, n: nat)
    requires p < |w.pollers|
  {
    forall i :: 0 <= i < |w.pollers[p].events| && i < n && w.pollers[p].events[i].kind.On? ==> Linked(w, p, i)
  }

  ghost predicate PollerOk(w: World, p: nat)
    requires p < |w.pollers|
  {
    var x := w.pollers[p];
    match x.pc
    case Idle => LinkedBelow(w, p, 0)
    case Registering(ii, cnt) =>
      && cnt <= ii <= |x.events| && x.registered == UpTo(cnt) && (x.noWait ==> cnt == 0)
      && LinkedBelow(w, p, cnt)
      && (if x.polling then LinkedAll(w, p, cnt) && (!x.noWait ==> cnt == ii) else Reports(x))
    case Pending(cnt) =>
      cnt == |x.events| && x.registered == UpTo(cnt) && LinkedBelow(w, p, cnt) && LinkedAll(w, p, cnt)
    case Clearing(k, rc) =>
      k <= |x.events| && LinkedBelow(w, p, k) && (rc == Success ==> Reports(x))
    case Done(rc) =>
      LinkedBelow(w, p, 0) && (rc == Success ==> Reports(x))
  }

  ghost predicate Inv(w: World) {
    && (forall o :: ListOk(w, o))
    && (forall p :: 0 <= p < |w.pollers| ==> PollerOk(w, p))
  }

  /** Only poller `p` and its events changed. */
  ghost predicate OnlyFor(w: World, w': World, p: nat) {
    && |w'.pollers| == |w.pollers|
    && (forall q :: 0 <= q < |w.pollers| && q != p ==> w'.pollers[q] == w.pollers[q])
    && (forall o, e: Ev :: e.p != p ==> (e in List(w', o) <==> e in List(w, o)))
  }

  lemma {:induction false} OthersKept(w: World, w': World, p: nat)
    requires OnlyFor(w, w', p) && forall q :: 0 <= q < |w.pollers| ==> PollerOk(w, q)
    requires p < |w'.pollers| ==> PollerOk(w', p)
    ensures forall q :: 0 <= q < |w'.pollers| ==> PollerOk(w', q)
  {
    hide Reports, UpTo;
    forall q | 0 <= q < |w'.pollers| ensures PollerOk(w', q) {
      if q != p {
        assert PollerOk(w, q);
        assert forall i :: Linked(w', q, i) == Linked(w, q, i);
        assert forall n :: LinkedBelow(w, q, n) ==> LinkedBelow(w', q, n);
        assert forall n :: LinkedAll(w, q, n) ==> LinkedAll(w', q, n);
      }
    }
  }

  /** Poller `p` moves on without touching the kinds of its events or any list. */
  lemma {:induction false} ListsSame(w: World, w': World, p: nat)
    requires forall o :: ListOk(w, o)
    requires w'.lists == w.lists && |w'.pollers| == |w.pollers| && p < |w.pollers|
    requires forall q :: 0 <= q < |w.pollers| && q != p ==> w'.pollers[q] == w.pollers[q]
    requires |w'.pollers[p].events| == |w.pollers[p].events|
    requires forall i :: 0 <= i < |w.pollers[p].events| ==> w'.pollers[p].events[i].kind == w.pollers[p].events[i].kind
    ensures forall o :: ListOk(w', o)
    ensures OnlyFor(w, w', p) && forall i :: Linked(w', p, i) == Linked(w, p, i)
  {
    forall o ensures ListOk(w', o) {
      assert ListOk(w, o);
      assert List(w', o) == List(w, o);
    }
  }

  // ---- each section keeps it ----------------------------------------------------------------------

  lemma {:induction false} BeginKeeps(w: World, p: nat, events: seq<Event>, noWait: bool)
    requires Inv(w) && p < |w.pollers| && (w.pollers[p].pc.Idle? || w.pollers[p].pc.Done?)
    ensures Inv(Begin(w, p, events, noWait))
  {
    hide Reports;
    var w' := Begin(w, p, events, noWait);
    assert PollerOk(w, p) && UpTo(0) == [];
    forall o, e | e in List(w, o) ensures e.p != p {
      assert ListOk(w, o);
    }
    forall o ensures ListOk(w', o) {
      assert ListOk(w, o);
      assert List(w', o) == List(w, o);
    }
    forall i: nat ensures !Linked(w', p, i) {
      if i < |events| && events[i].kind.On? {
        assert List(w', events[i].kind.o) == List(w, events[i].kind.o);
      }
    }
    OthersKept(w, w', p);
  }

  lemma {:induction false} RegisterMet(w: World, p: nat)
    requires Inv(w) && p < |w.pollers| && w.pollers[p].pc.Registering? && w.pollers[p].pc.ii < |w.pollers[p].events|
    requires Met(w, w.pollers[p].events[w.pollers[p].pc.ii])
    ensures Inv(Register(w, p))
  {
    hide UpTo;
    var w', ii := Register(w, p), w.pollers[p].pc.ii;
    assert PollerOk(w, p);
    ListsSame(w, w', p);
    assert w'.pollers[p].events[ii].state != {};
    OthersKept(w, w', p);
  }

  lemma {:induction false} RegisterSkip(w: World, p: nat)
    requires Inv(w) && p < |w.pollers| && w.pollers[p].pc.Registering? && w.pollers[p].pc.ii < |w.pollers[p].events|
    requires !Met(w, w.pollers[p].events[w.pollers[p].pc.ii]) && (w.pollers[p].noWait || !w.pollers[p].polling)
    ensures Inv(Register(w, p))
  {
    hide UpTo, Reports;
    assert PollerOk(w, p);
    ListsSame(w, Register(w, p), p);
    SameReports(w.pollers[p], Register(w, p).pollers[p]);
    OthersKept(w, Register(w, p), p);
  }

  lemma {:induction false} SameReports(x: Poller, x': Poller)
    requires |x'.events| == |x.events| && forall i :: 0 <= i < |x.events| ==> x'.events[i].state >= x.events[i].state
    ensures Reports(x) ==> Reports(x')
  {
    if Reports(x) {
      var i :| 0 <= i < |x.events| && x.events[i].state != {};
      assert x'.events[i].state != {};
    }
  }

  /** Event `ii` of `p` joins, or event `ii` leaves, the list of the object it waits for. */
  lemma {:induction false} ListChanged(w: World, w': World, p: nat, ii: nat, o: nat)
    requires (forall n :: ListOk(w, n)) && p < |w.pollers| == |w'.pollers|
    requires forall q :: 0 <= q < |w.pollers| && q != p ==> w'.pollers[q] == w.pollers[q]
    requires ii < |w.pollers[p].events| == |w'.pollers[p].events|
    requires forall i :: 0 <= i < |w.pollers[p].events| ==> w'.pollers[p].events[i].kind == w.pollers[p].events[i].kind
    requires w.pollers[p].events[ii].kind.On? && w.pollers[p].events[ii].kind.o == o
    requires forall n :: n != o ==> List(w', n) == List(w, n)
    requires Distinct(List(w', o)) && forall e :: e != Ev(p, ii) ==> (e in List(w', o) <==> e in List(w, o))
    ensures forall n :: ListOk(w', n)
    ensures OnlyFor(w, w', p)
    ensures forall i :: i != ii ==> Linked(w', p, i) == Linked(w, p, i)
    ensures Linked(w', p, ii) <==> Ev(p, ii) in List(w', o)
  {
    forall n ensures ListOk(w', n) {
      assert ListOk(w, n);
    }
  }

  lemma {:induction false} LinkKeeps(w: World, p: nat)
    requires Inv(w) && p < |w.pollers| && w.pollers[p].pc.Registering? && w.pollers[p].pc.ii < |w.pollers[p].events|
    requires !Met(w, w.pollers[p].events[w.pollers[p].pc.ii]) && !w.pollers[p].noWait && w.pollers[p].polling
    requires w.pollers[p].events[w.pollers[p].pc.ii].kind.On?
    ensures Inv(Register(w, p))
  {
    var w', x := Register(w, p), w.pollers[p];
    var ii, o := x.pc.ii, x.events[x.pc.ii].kind.o;
    assert PollerOk(w, p) && ListOk(w, o);
    var q, at := List(w, o), EventSlot(Ranks(w, List(w, o)), x.rank);
    hide EventSlot, Ranks, Reports;
    assert !Linked(w, p, ii);
    PlacedDistinct(q, at, Ev(p, ii));
    PlacedIn(q, at, Ev(p, ii));
    assert List(w', o) == q[..at] + [Ev(p, ii)] + q[at..];
    ListChanged(w, w', p, ii, o);
    OneMore(ii);
    OthersKept(w, w', p);
  }

  lemma {:induction false} OneMore(n: nat)
    ensures UpTo(n) + [n] == UpTo(n + 1)
  {
  }

  lemma {:induction false} IgnoreKeeps(w: World, p: nat)
    requires Inv(w) && p < |w.pollers| && w.pollers[p].pc.Registering? && w.pollers[p].pc.ii < |w.pollers[p].events|
    requires !w.pollers[p].noWait && w.pollers[p].polling
    requires w.pollers[p].events[w.pollers[p].pc.ii].kind.Ignore?
    ensures Inv(Register(w, p))
  {
    var w' := Register(w, p);
    assert PollerOk(w, p);
    hide Reports;
    ListsSame(w, w', p);
    OneMore(w.pollers[p].pc.ii);
    OthersKept(w, w', p);
  }

  lemma {:induction false} RegisterKeeps(w: World, p: nat)
    requires Inv(w) && p < |w.pollers| && w.pollers[p].pc.Registering? && w.pollers[p].pc.ii < |w.pollers[p].events|
    ensures Inv(Register(w, p))
  {
    hide Inv, Register;
    var x := w.pollers[p];
    if Met(w, x.events[x.pc.ii]) {
      RegisterMet(w, p);
    } else if x.noWait || !x.polling {
      RegisterSkip(w, p);
    } else if x.events[x.pc.ii].kind.On? {
      LinkKeeps(w, p);
    } else {
      IgnoreKeeps(w, p);
    }
  }

  lemma {:induction false} CheckKeeps(w: World, p: nat)
    requires Inv(w) && p < |w.pollers| && w.pollers[p].pc.Registering? && w.pollers[p].pc.ii == |w.pollers[p].events|
    ensures Inv(Check(w, p))
  {
    hide UpTo, Reports;
    assert PollerOk(w, p);
    ListsSame(w, Check(w, p), p);
    SameReports(w.pollers[p], Check(w, p).pollers[p]);
    OthersKept(w, Check(w, p), p);
  }

  lemma {:induction false} TimeOutKeeps(w: World, p: nat)
    requires Inv(w) && p < |w.pollers| && w.pollers[p].pc.Pending?
    ensures Inv(TimeOut(w, p))
  {
    hide UpTo, Reports;
    assert PollerOk(w, p);
    ListsSame(w, TimeOut(w, p), p);
    OthersKept(w, TimeOut(w, p), p);
  }

  lemma {:induction false} ClearKeeps(w: World, p: nat)
    requires Inv(w) && p < |w.pollers| && w.pollers[p].pc.Clearing?
    ensures PollerOk(w, p) && Inv(Clear(w, p))
  {
    assert PollerOk(w, p);
    var w', x := Clear(w, p), w.pollers[p];
    hide UpTo, Reports, Remove;
    if x.pc.k > 0 && x.events[x.pc.k - 1].kind.On? {
      hide PollerOk, ListOk, Clear;
      UnlinkKeeps(w, p);
      OthersKept(w, w', p);
    } else {
      SameReports(x, w'.pollers[p]);
      ListsSame(w, w', p);
      OthersKept(w, w', p);
    }
  }

  /** A round that takes an event off its object's list. */
  lemma {:induction false} UnlinkKeeps(w: World, p: nat)
    requires Inv(w) && p < |w.pollers| && w.pollers[p].pc.Clearing? && 0 < w.pollers[p].pc.k <= |w.pollers[p].events|
    requires w.pollers[p].events[w.pollers[p].pc.k - 1].kind.On?
    ensures var w' := Clear(w, p);
      |w'.pollers| == |w.pollers| && PollerOk(w', p) && OnlyFor(w, w', p) && forall o :: ListOk(w', o)
  {
    var w', x := Clear(w, p), w.pollers[p];
    var i := x.pc.k - 1;
    var o := x.events[i].kind.o;
    assert ListOk(w, o) && PollerOk(w, p);
    SameReports(x, w'.pollers[p]);
    RemoveIn(List(w, o), Ev(p, i));
    hide UpTo, Reports, Remove, ListOk;
    ListChanged(w, w', p, i, o);
  }

  lemma {:induction false} SignalKeeps(w: World, o: nat, flag: Flag)
    requires Inv(w)
    ensures Inv(Signal(w, o, flag))
  {
    var q, w' := List(w, o), Signal(w, o, flag);
    if q != [] {
      var p, i := q[0].p, q[0].i;
      assert ListOk(w, o);
      assert q == [q[0]] + q[1..];
      assert q[0] in q && Linked(w, p, i);
      assert PollerOk(w, p);
      assert List(w', o) == q[1..];
      assert forall n :: n != o ==> List(w', n) == List(w, n);
      assert q[0] !in q[1..];
      ListChanged(w, w', p, i, o);
      hide PollerOk, Notify, ListOk, List, Signal;
      NotifyKeeps(w, w', p, i, flag);
      OthersKept(w, w', p);
    }
  }

  /** The poller of a signalled event, which is linked no more. */
  lemma {:induction false} NotifyKeeps(w: World, w': World, p: nat, i: nat, flag: Flag)
    requires p < |w.pollers| == |w'.pollers| && PollerOk(w, p) && Linked(w, p, i)
    requires w'.pollers[p] == Notify(w.pollers[p], i, flag)
    requires !Linked(w', p, i) && forall j :: j != i ==> Linked(w', p, j) == Linked(w, p, j)
    ensures PollerOk(w', p)
  {
    hide UpTo, Reports, List;
    Notified(w.pollers[p], i, flag);
    var x, x' := w.pollers[p], w'.pollers[p];
    assert x.events[i].armed;
    assert forall j :: 0 <= j < |x.events| && j != i ==> x'.events[j] == x.events[j];
    assert forall n :: LinkedBelow(w, p, n) ==> LinkedBelow(w', p, n);
  }

  lemma {:induction false} Notified(x: Poller, i: nat, flag: Flag)
    requires i < |x.events|
    ensures Reports(Notify(x, i, flag))
  {
    assert Notify(x, i, flag).events[i].state != {};
  }

  // ---- whole runs ------------------------------------------------------------------------------------

  datatype Step =
    | BeginStep(p: nat, events: seq<Event>, noWait: bool)
    | RegisterStep(p: nat) | CheckStep(p: nat) | TimeOutStep(p: nat) | ClearStep(p: nat)
    | SignalStep(o: nat, flag: Flag)
    | RankStep(p: nat, rank: Rank)
    | ObjectsChange(ready: set<nat>)

  /** A thread calls k_poll only when it is not in one; the rest goes by the program. */
  ghost predicate Enabled(w: World, s: Step) {
    match s
    case BeginStep(p, events, _) => p < |w.pollers| && (w.pollers[p].pc.Idle? || w.pollers[p].pc.Done?)
    case RegisterStep(p) =>
      p < |w.pollers| && w.pollers[p].pc.Registering? && w.pollers[p].pc.ii < |w.pollers[p].events|
    case CheckStep(p) => p < |w.pollers| && w.pollers[p].pc.Registering? && w.pollers[p].pc.ii == |w.pollers[p].events|
    case TimeOutStep(p) => p < |w.pollers| && w.pollers[p].pc.Pending?
    case ClearStep(p) => p < |w.pollers| && w.pollers[p].pc.Clearing? && w.pollers[p].pc.k <= |w.pollers[p].events|
    case SignalStep(_, _) => true
    case RankStep(p, _) => p < |w.pollers|
    case ObjectsChange(_) => true
  }

  ghost function Next(w: World, s: Step): World
    requires Enabled(w, s)
  {
    match s
    case BeginStep(p, events, noWait) => Begin(w, p, events, noWait)
    case RegisterStep(p) => Register(w, p)
    case CheckStep(p) => Check(w, p)
    case TimeOutStep(p) => TimeOut(w, p)
    case ClearStep(p) => Clear(w, p)
    case SignalStep(o, flag) => Signal(w, o, flag)
    case RankStep(p, rank) => Rerank(w, p, rank)
    case ObjectsChange(ready) => w.(ready := ready)
  }

  ghost predicate Reaches(w: World, ss: seq<Step>, w': World)
    decreases |ss|
  {
    if ss == [] then w' == w else Enabled(w, ss[0]) && Reaches(Next(w, ss[0]), ss[1..], w')
  }

  lemma {:induction false} ChangeKeeps(w: World, ready: set<nat>)
    requires Inv(w)
    ensures Inv(w.(ready := ready))
  {
    var w' := w.(ready := ready);
    forall o ensures ListOk(w', o) {
      assert ListOk(w, o);
      assert List(w', o) == List(w, o);
    }
    assert forall p, i :: Linked(w', p, i) == Linked(w, p, i);
    assert |w.pollers| > 0 ==> PollerOk(w, 0) && PollerOk(w', 0);
    OthersKept(w, w', 0);
  }

  lemma {:induction false} RerankKeeps(w: World, p: nat, rank: Rank)
    requires Inv(w) && p < |w.pollers|
    ensures Inv(Rerank(w, p, rank))
  {
    hide UpTo, Reports;
    assert PollerOk(w, p);
    ListsSame(w, Rerank(w, p, rank), p);
    SameReports(w.pollers[p], Rerank(w, p, rank).pollers[p]);
    OthersKept(w, Rerank(w, p, rank), p);
  }

  lemma {:induction false} NextKeeps(w: World, s: Step)
    requires Inv(w) && Enabled(w, s)
    ensures Inv(Next(w, s))
  {
    hide Inv, Begin, Register, Check, TimeOut, Clear, Signal, Rerank;
    match s
    case BeginStep(p, events, noWait) => BeginKeeps(w, p, events, noWait);
    case RegisterStep(p) => RegisterKeeps(w, p);
    case CheckStep(p) => CheckKeeps(w, p);
    case TimeOutStep(p) => TimeOutKeeps(w, p);
    case ClearStep(p) => ClearKeeps(w, p);
    case SignalStep(o, flag) => SignalKeeps(w, o, flag);
    case RankStep(p, rank) => RerankKeeps(w, p, rank);
    case ObjectsChange(ready) => ChangeKeeps(w, ready);
  }

  lemma {:induction false} EveryRun(w: World, ss: seq<Step>, w': World)
    requires Inv(w) && Reaches(w, ss, w')
    ensures Inv(w')
    decreases |ss|
  {
    if ss != [] {
      hide Inv, Next, Enabled;
      NextKeeps(w, ss[0]);
      EveryRun(Next(w, ss[0]), ss[1..], w');
    }
  }

  /** Nobody polls and nothing is linked. */
  ghost predicate Fresh(w: World) {
    w.lists == map[] && forall p :: 0 <= p < |w.pollers| ==> w.pollers[p].pc == Idle
  }

  lemma {:induction false} FreshKeeps(w: World)
    requires Fresh(w)
    ensures Inv(w)
  {
    assert forall o :: List(w, o) == [];
  }

  /** Under any interleaving of any number of polls and signals: a k_poll that has returned
      left none of its events in any list, and if it returned 0, one of them has a state;
      while one waits, the events it registered are the whole array from the start. */
  lemma {:induction false} PollLeavesNothing(w: World, ss: seq<Step>, w': World, p: nat)
    requires Fresh(w) && Reaches(w, ss, w') && p < |w'.pollers|
    ensures w'.pollers[p].pc.Done? ==> forall o, i :: Ev(p, i) !in List(w', o)
    ensures w'.pollers[p].pc == Done(Success) ==> Reports(w'.pollers[p])
    ensures w'.pollers[p].pc.Registering? ==> w'.pollers[p].registered == UpTo(w'.pollers[p].pc.cnt)
    ensures w'.pollers[p].pc.Pending? ==> w'.pollers[p].registered == UpTo(|w'.pollers[p].events|)
  {
    FreshKeeps(w);
    EveryRun(w, ss, w');
    assert PollerOk(w', p);
    hide Reports, UpTo;
    if w'.pollers[p].pc.Done? {
      forall o, i ensures Ev(p, i) !in List(w', o) {
        assert ListOk(w', o);
      }
    }
  }

  /** A waiting poll cannot miss the signal of an event of its own: that event is linked,
      and when the object reaches it the wait ends with the right code. */
  lemma {:induction false} SignalEndsWait(w: World, p: nat, i: nat, flag: Flag)
    requires Inv(w) && p < |w.pollers| && w.pollers[p].pc.Pending?
    requires i < |w.pollers[p].events| && w.pollers[p].events[i].kind.On?
    ensures var o := w.pollers[p].events[i].kind.o;
      && Ev(p, i) in List(w, o)
      && (List(w, o)[0] == Ev(p, i) ==>
        var x' := Signal(w, o, flag).pollers[p];
        && x'.pc == Clearing(|w.pollers[p].events|, if flag == Cancelled then Interrupted else Success)
        && x'.events[i].state == w.pollers[p].events[i].state + {flag})
  {
    assert PollerOk(w, p);
    hide Reports, UpTo;
    assert Linked(w, p, i);
  }

  // ---- the code a poll returns -----------------------------------------------------------------------

  /** How a step moves poller `p` on. While it registers, only its own check ends that: with 0 if
      an event was reported, with -EAGAIN if none was and it may not wait, and otherwise it
      waits. A wait is ended by its timeout, with -EAGAIN, or by a signal to one of its events,
      with -EINTR for a cancellation and 0 for anything else. From then on the code stands. */
  lemma {:induction false} CodeOf(w: World, s: Step, p: nat)
    requires Inv(w) && Enabled(w, s) && p < |w.pollers|
    ensures p < |Next(w, s).pollers|
    ensures var x, pc := w.pollers[p], Next(w, s).pollers[p].pc;
      match x.pc
      case Idle => (s.BeginStep? && s.p == p) || pc == Idle
      case Registering(ii, cnt) =>
        if s != CheckStep(p) then pc.Registering?
        else if !x.polling then pc == Clearing(cnt, Success) && Reports(x)
        else if x.noWait then pc == Done(Again)
        else pc == Pending(|x.events|)
      case Pending(cnt) =>
        if s == TimeOutStep(p) then pc == Clearing(cnt, Again)
        else if s.SignalStep? && List(w, s.o) != [] && List(w, s.o)[0].p == p
        then pc == Clearing(cnt, if s.flag == Cancelled then Interrupted else Success)
        else pc == Pending(cnt)
      case Clearing(k, rc) =>
        if s != ClearStep(p) then pc == Clearing(k, rc)
        else if k == 0 then pc == Done(rc)
        else pc == Clearing(k - 1, rc)
      case Done(rc) => (s.BeginStep? && s.p == p) || pc == Done(rc)
  {
    assert PollerOk(w, p);
    if s.SignalStep? && List(w, s.o) != [] {
      var e := List(w, s.o)[0];
      assert ListOk(w, s.o);
      assert e in List(w, s.o) && Linked(w, e.p, e.i);
    }
    hide Reports, UpTo, EventSlot, Ranks, Remove, Distinct;
  }

  /** Once the code is known, it is what the poll returns, whatever happens meanwhile. */
  lemma {:induction false} CodeStands(w: World, ss: seq<Step>, w': World, p: nat, rc: Code)
    requires Inv(w) && Reaches(w, ss, w') && p < |w.pollers|
    requires w.pollers[p].pc == Done(rc) || (w.pollers[p].pc.Clearing? && w.pollers[p].pc.rc == rc)
    requires forall i :: 0 <= i < |ss| ==> !(ss[i].BeginStep? && ss[i].p == p)
    ensures p < |w'.pollers|
    ensures w'.pollers[p].pc == Done(rc) || (w'.pollers[p].pc.Clearing? && w'.pollers[p].pc.rc == rc)
    decreases |ss|
  {
    if ss != [] {
      hide Inv, Next, Enabled;
      NextKeeps(w, ss[0]);
      CodeOf(w, ss[0], p);
      CodeStands(Next(w, ss[0]), ss[1..], w', p, rc);
    }
  }

  /** A poll starts with its events as the caller left them, nothing registered, and nobody else
      affected. */
  lemma {:induction false} BeginOf(w: World, p: nat, events: seq<Event>, noWait: bool)
    requires Inv(w) && Enabled(w, BeginStep(p, events, noWait))
    ensures var w' := Next(w, BeginStep(p, events, noWait));
      && OnlyFor(w, w', p) && w'.lists == w.lists && p < |w'.pollers|
      && w'.pollers[p].events == events && w'.pollers[p].rank == w.pollers[p].rank
      && w'.pollers[p].pc == Registering(0, 0) && w'.pollers[p].noWait == noWait && !Reporting(w', p)
      && forall i :: !Linked(w', p, i)
  {
    var w' := Next(w, BeginStep(p, events, noWait));
    BeginKeeps(w, p, events, noWait);
    assert PollerOk(w', p);
    assert forall o :: List(w', o) == List(w, o);
  }

  /** Poller `p` has come across an event to report, or was signalled one. */
  predicate Reporting(w: World, p: nat) {
    p < |w.pollers| && !w.pollers[p].polling
  }

  /** What a step adds to the state of an event: the flag of its object when that is found
      available, the flag of a signal that reaches it, and nothing otherwise. */
  lemma {:induction false} StateOf(w: World, s: Step, p: nat, i: nat)
    requires Inv(w) && Enabled(w, s) && p < |w.pollers| && i < |w.pollers[p].events|
    requires !(s.BeginStep? && s.p == p)
    ensures p < |Next(w, s).pollers| && |Next(w, s).pollers[p].events| == |w.pollers[p].events|
    ensures var x, e, e' := w.pollers[p], w.pollers[p].events[i], Next(w, s).pollers[p].events[i];
      && e'.kind == e.kind
      && e'.state == e.state +
           if s == RegisterStep(p) && x.pc.ii == i && e.kind.On? && e.kind.o in w.ready then {e.kind.flag}
           else if s.SignalStep? && List(w, s.o) != [] && List(w, s.o)[0] == Ev(p, i) then {s.flag}
           else {}
  {
    match s
    case SignalStep(o, flag) =>
      hide Inv;
      SignalState(w, o, flag, p, i);
    case _ => hide Inv, EventSlot, Ranks, Remove, List, Signal;
  }

  lemma {:induction false} SignalState(w: World, o: nat, flag: Flag, p: nat, i: nat)
    requires Inv(w) && p < |w.pollers| && i < |w.pollers[p].events|
    ensures var w', e := Signal(w, o, flag), w.pollers[p].events[i];
      && p < |w'.pollers| && |w'.pollers[p].events| == |w.pollers[p].events|
      && w'.pollers[p].events[i].kind == e.kind
      && w'.pollers[p].events[i].state ==
           e.state + if List(w, o) != [] && List(w, o)[0] == Ev(p, i) then {flag} else {}
  {
    if List(w, o) != [] {
      var e := List(w, o)[0];
      assert ListOk(w, o);
      assert e in List(w, o) && Linked(w, e.p, e.i);
    }
    hide Inv;
  }

  /** What an event has to report is never lost while its poll lasts. */
  lemma {:induction false} StatesGrow(w: World, ss: seq<Step>, w': World, p: nat, i: nat)
    requires Inv(w) && Reaches(w, ss, w') && p < |w.pollers| && i < |w.pollers[p].events|
    requires forall j :: 0 <= j < |ss| ==> !(ss[j].BeginStep? && ss[j].p == p)
    ensures p < |w'.pollers| && |w'.pollers[p].events| == |w.pollers[p].events|
    ensures w'.pollers[p].events[i].kind == w.pollers[p].events[i].kind
    ensures w.pollers[p].events[i].state <= w'.pollers[p].events[i].state
    decreases |ss|
  {
    if ss != [] {
      hide Inv, Next, Enabled;
      NextKeeps(w, ss[0]);
      StateOf(w, ss[0], p, i);
      StatesGrow(Next(w, ss[0]), ss[1..], w', p, i);
    }
  }

  // ---- the order of an object's list ---------------------------------------------------------------------

  lemma {:induction false} TailShortCut(q: seq<Rank>, r: Rank)
    requires Ordered(q) && AllNear(q) && NearTo(q, r)
    ensures EventSlot(q, r) == Slot(q, r)
  {
    var at := Slot(q, r);
    hide PrioCmp, Slot;
    if q != [] {
      var last := q[|q| - 1];
      assert Near(last, r) && Near(r, last);
      CmpIsOrder(last, r);
      CmpIsOrder(r, last);
      SlotParts(q, r, |q| - 1);
    }
  }

  /** add_event's look at the tail is only a short cut: it puts the event where the walk
      over the list would, and keeps the list in order. */
  lemma {:induction false} ShortCut(q: seq<Rank>, r: Rank)
    requires Ordered(q) && AllNear(q) && NearTo(q, r)
    ensures EventSlot(q, r) == Slot(q, r)
    ensures var at := EventSlot(q, r); Ordered(q[..at] + [r] + q[at..])
  {
    hide Ordered, AllNear, NearTo, Slot, EventSlot;
    TailShortCut(q, r);
    SlotInLine(q, r);
  }

  /** Every object's list is in order of its pollers' priorities. */
  ghost predicate Ranked(w: World) {
    forall o :: InLine(Ranks(w, List(w, o)))
  }

  lemma {:induction false} SameRanks(w: World, w': World, es: seq<Ev>)
    requires |w'.pollers| == |w.pollers| && forall p :: 0 <= p < |w.pollers| ==> w'.pollers[p].rank == w.pollers[p].rank
    ensures Ranks(w', es) == Ranks(w, es)
  {
  }

  /** Only the list of `o` changes, and it stays in line. */
  lemma {:induction false} StaysRanked(w: World, w': World, o: nat)
    requires Ranked(w) && |w'.pollers| == |w.pollers|
    requires forall p :: 0 <= p < |w.pollers| ==> w'.pollers[p].rank == w.pollers[p].rank
    requires forall n :: n != o ==> List(w', n) == List(w, n)
    requires InLine(Ranks(w, List(w', o)))
    ensures Ranked(w')
  {
    hide InLine, Ranks, List;
    forall n ensures InLine(Ranks(w', List(w', n))) {
      SameRanks(w, w', List(w', n));
      assert InLine(Ranks(w, List(w, n)));
    }
  }

  lemma {:induction false} RemoveInLine(w: World, q: seq<Ev>, e: Ev)
    requires InLine(Ranks(w, q))
    ensures InLine(Ranks(w, Remove(q, e)))
  {
    var k, d := Index(q, e), Remove(q, e);
    if k < |q| {
      assert forall i :: 0 <= i < |d| ==> d[i] == q[if i < k then i else i + 1];
      hide InLine, Remove, Index;
      CutInLine(Ranks(w, q), k);
      assert Ranks(w, d) == Ranks(w, q)[..k] + Ranks(w, q)[k + 1..];
    }
  }

  lemma {:induction false} LinkInLine(w: World, p: nat, i: nat, o: nat)
    requires p < |w.pollers| && InLine(Ranks(w, List(w, o))) && NearTo(Ranks(w, List(w, o)), w.pollers[p].rank)
    ensures InLine(Ranks(w, List(Link(w, p, i, o), o)))
  {
    var q, r := List(w, o), w.pollers[p].rank;
    var rs := Ranks(w, q);
    var at := EventSlot(rs, r);
    hide Slot, Ordered, AllNear, NearTo, EventSlot;
    ShortCut(rs, r);
    SlotInLine(rs, r);
    RanksPlaced(w, q, at, Ev(p, i));
  }

  lemma {:induction false} RanksPlaced(w: World, q: seq<Ev>, at: nat, e: Ev)
    requires at <= |q|
    ensures Ranks(w, q[..at] + [e] + q[at..]) == Ranks(w, q)[..at] + [RankOf(w, e)] + Ranks(w, q)[at..]
  {
    hide RankOf;
  }

  // ---- priorities change ----------------------------------------------------------------------------

  /** With rank `r`, poller `p` stays where its event at place `i` of the list stands: near
      the others, not behind one it beats, not in front of one that beats it. */
  ghost predicate Fitting(w: World, q: seq<Ev>, p: nat, r: Rank, i: nat)
    requires i < |q|
  {
    && (forall j :: 0 <= j < |q| && q[j].p != p ==> Near(r, RankOf(w, q[j])))
    && (i > 0 && q[i - 1].p != p ==> PrioCmp(RankOf(w, q[i - 1]), r) >= 0)
    && (i + 1 < |q| && q[i + 1].p != p ==> PrioCmp(r, RankOf(w, q[i + 1])) >= 0)
  }

  ghost predicate FitsAll(w: World, q: seq<Ev>, p: nat, r: Rank) {
    forall i :: 0 <= i < |q| && q[i].p == p ==> Fitting(w, q, p, r, i)
  }

  lemma {:induction false} RanksAfter(w: World, p: nat, r: Rank, q: seq<Ev>)
    requires p < |w.pollers|
    ensures forall i :: 0 <= i < |q| ==> Ranks(Rerank(w, p, r), q)[i] == if q[i].p == p then r else RankOf(w, q[i])
  {
  }

  lemma {:induction false} FitsStay(w: World, p: nat, r: Rank, q: seq<Ev>)
    requires p < |w.pollers| && InLine(Ranks(w, q)) && FitsAll(w, q, p, r)
    ensures InLine(Ranks(Rerank(w, p, r), q))
  {
    var old', new' := Ranks(w, q), Ranks(Rerank(w, p, r), q);
    RanksAfter(w, p, r, q);
    CmpIsOrder(r, r);
    assert Near(r, r) && forall a, b :: Near(a, b) <==> Near(b, a);
    hide PrioCmp, Near, Rerank, RankOf;
    assert forall i :: 0 <= i < |q| ==> old'[i] == RankOf(w, q[i]);
    forall i, j | 0 <= i < |q| && 0 <= j < |q| ensures Near(new'[i], new'[j]) {
      if q[i].p == p { assert Fitting(w, q, p, r, i); }
      if q[j].p == p { assert Fitting(w, q, p, r, j); }
      assert Near(old'[i], old'[j]);
    }
    forall k | 0 <= k < |q| - 1 ensures PrioCmp(new'[k], new'[k + 1]) >= 0 {
      if q[k].p == p { assert Fitting(w, q, p, r, k); }
      if q[k + 1].p == p { assert Fitting(w, q, p, r, k + 1); }
      assert PrioCmp(old'[k], old'[k + 1]) >= 0;
    }
    forall i, j | 0 <= i < j < |q| ensures PrioCmp(new'[i], new'[j]) >= 0 {
      Neighbours(new', i, j);
    }
  }

  lemma {:induction false} StayFits(w: World, p: nat, r: Rank, q: seq<Ev>)
    requires p < |w.pollers| && InLine(Ranks(Rerank(w, p, r), q))
    ensures FitsAll(w, q, p, r)
  {
    var new' := Ranks(Rerank(w, p, r), q);
    RanksAfter(w, p, r, q);
    hide PrioCmp, Near, Rerank, RankOf;
    forall i | 0 <= i < |q| && q[i].p == p ensures Fitting(w, q, p, r, i) {
      assert new'[i] == r;
      forall j | 0 <= j < |q| && q[j].p != p ensures Near(r, RankOf(w, q[j])) {
        assert Near(new'[i], new'[j]);
      }
      assert i > 0 ==> PrioCmp(new'[i - 1], new'[i]) >= 0;
      assert i + 1 < |q| ==> PrioCmp(new'[i], new'[i + 1]) >= 0;
    }
  }

  /** A list stays in line through a change of rank if and only if the poller's events fit
      where they stand. */
  lemma {:induction false} RerankListIff(w: World, p: nat, r: Rank, q: seq<Ev>)
    requires p < |w.pollers| && InLine(Ranks(w, q))
    ensures InLine(Ranks(Rerank(w, p, r), q)) <==> FitsAll(w, q, p, r)
  {
    hide InLine, FitsAll, Rerank, Ranks;
    if FitsAll(w, q, p, r) {
      FitsStay(w, p, r, q);
    }
    if InLine(Ranks(Rerank(w, p, r), q)) {
      StayFits(w, p, r, q);
    }
  }

  /** A change of priority keeps every list in line if and only if each linked event of that
      poller fits where it stands. */
  lemma {:induction false} RerankIff(w: World, p: nat, r: Rank)
    requires Ranked(w) && p < |w.pollers|
    ensures Ranked(Rerank(w, p, r)) <==> forall o :: FitsAll(w, List(w, o), p, r)
  {
    var w' := Rerank(w, p, r);
    hide InLine, FitsAll, Ranks;
    forall o ensures InLine(Ranks(w', List(w', o))) <==> FitsAll(w, List(w, o), p, r) {
      assert InLine(Ranks(w, List(w, o))) && List(w', o) == List(w, o);
      RerankListIff(w, p, r, List(w, o));
    }
  }

  /** What keeps the lists in line: an event joins a list it is near to, and a poller whose
      priority changes fits where its events stand. */
  ghost predicate InTurn(w: World, s: Step) {
    match s
    case RegisterStep(p) =>
      p < |w.pollers| && w.pollers[p].pc.Registering? && w.pollers[p].pc.ii < |w.pollers[p].events| ==>
        var x, e := w.pollers[p], w.pollers[p].events[w.pollers[p].pc.ii];
        e.kind.On? && !Met(w, e) && !x.noWait && x.polling ==> NearTo(Ranks(w, List(w, e.kind.o)), x.rank)
    case RankStep(p, r) => forall o :: FitsAll(w, List(w, o), p, r)
    case _ => true
  }

  lemma {:induction false} NextRanked(w: World, s: Step)
    requires Ranked(w) && Enabled(w, s) && InTurn(w, s)
    ensures Ranked(Next(w, s))
  {
    match s
    case RegisterStep(p) => RegisterRanked(w, p);
    case ClearStep(p) => ClearRanked(w, p);
    case SignalStep(o, flag) => SignalRanked(w, o, flag);
    case RankStep(p, r) => RerankIff(w, p, r);
    case _ => NoListRanked(w, s);
  }

  lemma {:induction false} NoListRanked(w: World, s: Step)
    requires Ranked(w) && Enabled(w, s) && !s.RegisterStep? && !s.ClearStep? && !s.SignalStep? && !s.RankStep?
    ensures Ranked(Next(w, s))
  {
    assert InLine(Ranks(w, List(w, 0)));
    hide InLine, Ranks, Ranked;
    StaysRanked(w, Next(w, s), 0);
  }

  lemma {:induction false} RegisterRanked(w: World, p: nat)
    requires Ranked(w) && Enabled(w, RegisterStep(p)) && InTurn(w, RegisterStep(p))
    ensures Ranked(Register(w, p))
  {
    var x := w.pollers[p];
    var e := x.events[x.pc.ii];
    var o := if e.kind.On? then e.kind.o else 0;
    assert InLine(Ranks(w, List(w, o)));
    hide InLine, Ranks, EventSlot, NearTo;
    if e.kind.On? && !Met(w, e) && !x.noWait && x.polling {
      LinkInLine(w, p, x.pc.ii, o);
    }
    StaysRanked(w, Register(w, p), o);
  }

  /** Clearing touches one list, and no rank. */
  lemma {:induction false} ClearLists(w: World, p: nat, o: nat)
    requires Enabled(w, ClearStep(p))
    requires var x := w.pollers[p]; x.pc.k > 0 && x.events[x.pc.k - 1].kind.On? ==> o == x.events[x.pc.k - 1].kind.o
    ensures var w' := Clear(w, p);
      && |w'.pollers| == |w.pollers| && (forall q :: 0 <= q < |w.pollers| ==> w'.pollers[q].rank == w.pollers[q].rank)
      && (forall n :: n != o ==> List(w', n) == List(w, n))
      && (List(w', o) == List(w, o) ||
          (w.pollers[p].pc.k > 0 && List(w', o) == Remove(List(w, o), Ev(p, w.pollers[p].pc.k - 1))))
  {
    hide Remove;
  }

  lemma {:induction false} ClearRanked(w: World, p: nat)
    requires Ranked(w) && Enabled(w, ClearStep(p))
    ensures Ranked(Clear(w, p))
  {
    var x := w.pollers[p];
    var o := if x.pc.k > 0 && x.events[x.pc.k - 1].kind.On? then x.events[x.pc.k - 1].kind.o else 0;
    ClearLists(w, p, o);
    assert InLine(Ranks(w, List(w, o)));
    hide InLine, Ranks, Remove, Clear, List, Ranked;
    if x.pc.k > 0 {
      RemoveInLine(w, List(w, o), Ev(p, x.pc.k - 1));
    }
    StaysRanked(w, Clear(w, p), o);
  }

  lemma {:induction false} SignalRanked(w: World, o: nat, flag: Flag)
    requires Ranked(w)
    ensures Ranked(Signal(w, o, flag))
  {
    var q := List(w, o);
    assert InLine(Ranks(w, q));
    if q != [] {
      assert Index(q, q[0]) == 0 && Remove(q, q[0]) == q[1..];
      hide InLine, Ranks, Remove;
      RemoveInLine(w, q, q[0]);
      StaysRanked(w, Signal(w, o, flag), o);
    }
  }

  ghost predicate AllInTurn(w: World, ss: seq<Step>)
    decreases |ss|
  {
    ss == [] || (InTurn(w, ss[0]) && (Enabled(w, ss[0]) ==> AllInTurn(Next(w, ss[0]), ss[1..])))
  }

  /** In every run all of whose steps are in turn, the event an object signals first belongs
      to a poller that no other poller in its list beats. */
  lemma {:induction false} FirstIsBest(w: World, ss: seq<Step>, w': World)
    requires Ranked(w) && Reaches(w, ss, w') && AllInTurn(w, ss)
    ensures Ranked(w')
    ensures forall o, k :: 0 < k < |List(w', o)| ==>
        PrioCmp(RankOf(w', List(w', o)[0]), RankOf(w', List(w', o)[k])) >= 0
    decreases |ss|
  {
    if ss == [] {
      forall o, k | 0 < k < |List(w, o)| ensures PrioCmp(RankOf(w, List(w, o)[0]), RankOf(w, List(w, o)[k])) >= 0 {
        var rs := Ranks(w, List(w, o));
        assert InLine(rs);
        assert PrioCmp(rs[0], rs[k]) >= 0;
      }
    } else {
      hide Ranked, Next, Enabled, InTurn;
      NextRanked(w, ss[0]);
      FirstIsBest(Next(w, ss[0]), ss[1..], w');
    }
  }

  /** Two pollers wait for object 0, the first of higher priority. */
  function TwoWait(): World {
    var x := Poller(Rank(1, 0, 0), Pending(1), false, false, [Event(On(0, Signaled), {}, true)], [0]);
    World([x, x.(rank := Rank(2, 0, 0))], map[0 := [Ev(0, 0), Ev(1, 0)]], {})
  }

  /** A change of priority can leave the list out of order: the second poller, raised above
      the first, stays behind it. */
  lemma {:induction false} RerankMisplaces()
    ensures var w := TwoWait(); var w' := Rerank(w, 1, Rank(0, 0, 0));
      && Inv(w) && Ranked(w) && Enabled(w, RankStep(1, Rank(0, 0, 0))) && !Ranked(w')
      && PrioCmp(RankOf(w', List(w', 0)[0]), RankOf(w', List(w', 0)[1])) < 0
  {
    var w := TwoWait();
    var w' := Rerank(w, 1, Rank(0, 0, 0));
    TwoWaitOk();
    assert Ranks(w, List(w, 0)) == [Rank(1, 0, 0), Rank(2, 0, 0)];
    forall o ensures InLine(Ranks(w, List(w, o))) {
      assert o != 0 ==> List(w, o) == [] && Ranks(w, []) == [];
    }
    var rs := Ranks(w', List(w', 0));
    assert rs == [Rank(1, 0, 0), Rank(0, 0, 0)] && PrioCmp(rs[0], rs[1]) < 0;
    assert !InLine(rs);
  }

  lemma {:induction false} TwoWaitOk()
    ensures Inv(TwoWait())
  {
    var w := TwoWait();
    assert List(w, 0) == [Ev(0, 0), Ev(1, 0)];
    forall o ensures ListOk(w, o) {
      assert o != 0 ==> List(w, o) == [];
    }
    assert UpTo(1) == [0];
  }
}
