/** Message queues (msg_q.c) as values: stored messages and one wait queue that readers and
    writers share; and what every run of them keeps. */
module MsgQSpec {
  import opened Rings

  type Msg = seq<byte>

  datatype Waiter = Reader(t: Tid) | Writer(t: Tid, data: Msg)

  datatype MsgQ = MsgQ(max: nat, stored: seq<Msg>, waiting: seq<Waiter>)

  /** What memcpy finds behind a waiter's swap_data; a reader has nothing to give. */
  function Offer(w: Waiter): Msg {
    if w.Writer? then w.data else []
  }

  /** 0 with the message stored, 0 with the message copied to the first waiter's buffer,
      -ENOMSG, or the caller waits. */
  datatype PutResult = Stored | HandedTo(w: Waiter, copied: Msg) | NoRoom | PutWaits

  datatype PutEffect = PutEffect(q: MsgQ, out: PutResult)

  /** z_impl_k_msgq_put; whoever is first in the wait queue gets the message. */
  function Put(q: MsgQ, t: Tid, m: Msg, noWait: bool, place: nat): PutEffect
    requires place <= |q.waiting|
  {
    if |q.stored| < q.max then
      if q.waiting != [] then PutEffect(q.(waiting := q.waiting[1..]), HandedTo(q.waiting[0], m))
      else PutEffect(q.(stored := q.stored + [m]), Stored)
    else if noWait then PutEffect(q, NoRoom)
    else PutEffect(q.(waiting := Place(q.waiting, place, Writer(t, m))), PutWaits)
  }

  /** 0 with a message, -ENOMSG, or the caller waits. */
  datatype GetResult = Received(m: Msg) | NoMessage | GetWaits

  datatype GetEffect = GetEffect(q: MsgQ, out: GetResult)

  /** z_impl_k_msgq_get; whoever is first in the wait queue has its buffer stored. */
  function Get(q: MsgQ, t: Tid, noWait: bool, place: nat): GetEffect
    requires place <= |q.waiting|
  {
    if q.stored != [] then
      var rest := q.stored[1..];
      GetEffect(if q.waiting != [] then q.(stored := rest + [Offer(q.waiting[0])], waiting := q.waiting[1..])
                else q.(stored := rest), Received(q.stored[0]))
    else if noWait then GetEffect(q, NoMessage)
    else GetEffect(q.(waiting := Place(q.waiting, place, Reader(t))), GetWaits)
  }

  /** z_impl_k_msgq_purge. */
  function Purge(q: MsgQ): MsgQ {
    q.(stored := [], waiting := [])
  }

  /** A waiter's timeout. */
  function Leave(q: MsgQ, i: nat): MsgQ {
    if i < |q.waiting| then q.(waiting := Without(q.waiting, i)) else q
  }

  // ---- the unstated invariant ----------------------------------------------------------------------

  ghost predicate AllReaders(ws: seq<Waiter>) {
    forall i :: 0 <= i < |ws| ==> ws[i].Reader?
  }

  ghost predicate AllWriters(ws: seq<Waiter>) {
    forall i :: 0 <= i < |ws| ==> ws[i].Writer?
  }

  /** Whoever waits is a reader of an empty queue or a writer to a full one. */
  ghost predicate OneKind(q: MsgQ) {
    || (AllReaders(q.waiting) && (q.waiting != [] ==> q.stored == []))
    || (AllWriters(q.waiting) && |q.stored| == q.max)
  }

  ghost predicate Inv(q: MsgQ) {
    |q.stored| <= q.max && OneKind(q)
  }

  lemma {:induction false} PutKeeps(q: MsgQ, t: Tid, m: Msg, noWait: bool, place: nat)
    requires q.max > 0 && Inv(q) && place <= |q.waiting|
    ensures var e := Put(q, t, m, noWait, place); Inv(e.q) && (e.out.HandedTo? ==> e.out.w.Reader?)
  {
    var q' := Put(q, t, m, noWait, place).q;
    assert forall i :: 0 <= i < |q.waiting[..place]| ==> q.waiting[..place][i] == q.waiting[i];
  }

  lemma {:induction false} GetKeeps(q: MsgQ, t: Tid, noWait: bool, place: nat)
    requires q.max > 0 && Inv(q) && place <= |q.waiting|
    ensures Inv(Get(q, t, noWait, place).q) && (q.stored != [] && q.waiting != [] ==> q.waiting[0].Writer?)
  {
    var q' := Get(q, t, noWait, place).q;
    assert forall i :: 0 <= i < |q.waiting[..place]| ==> q.waiting[..place][i] == q.waiting[i];
  }

  /** A waiter whose wait times out leaves the queue, and nothing else changes. */
  lemma {:induction false} LeaveKeeps(q: MsgQ, i: nat)
    requires Inv(q)
    ensures var q' := Leave(q, i);
      && Inv(q') && q' == q.(waiting := q'.waiting)
      && q.waiting == if i < |q.waiting| then q'.waiting[..i] + [q.waiting[i]] + q'.waiting[i..] else q'.waiting
  {
    var ws := Leave(q, i).waiting;
    assert i < |q.waiting| ==> ws[..i] == q.waiting[..i] && ws[i..] == q.waiting[i + 1..];
  }

  // ---- which answer, and who is left waiting ----------------------------------------------------------

  /** A put finds room exactly while the queue is not full; then the first waiter, if there is
      one, has the message and no longer waits. To a full queue it returns -ENOMSG exactly if it
      may not wait, and otherwise the caller waits at its place with its message. */
  ghost predicate PutAnswered(q: MsgQ, t: Tid, m: Msg, noWait: bool, place: nat, e: PutEffect) {
    && e.q.max == q.max
    && (e.out.NoRoom? <==> |q.stored| == q.max && noWait)
    && (e.out.PutWaits? <==> |q.stored| == q.max && !noWait)
    && (e.out.HandedTo? <==> |q.stored| < q.max && q.waiting != [])
    && (e.out.Stored? ==> q.waiting == e.q.waiting == [] && e.q.stored == q.stored + [m])
    && (e.out.HandedTo? ==> q.waiting == [e.out.w] + e.q.waiting && e.out.copied == m && e.q.stored == q.stored)
    && (e.out.NoRoom? ==> e.q == q)
    && (e.out.PutWaits? ==> e.q.stored == q.stored && JoinsAt(q.waiting, e.q.waiting, place, Writer(t, m)))
  }

  lemma {:induction false} PutAnswers(q: MsgQ, t: Tid, m: Msg, noWait: bool, place: nat)
    requires |q.stored| <= q.max && place <= |q.waiting|
    ensures PutAnswered(q, t, m, noWait, place, Put(q, t, m, noWait, place))
  {
    if q.waiting != [] {
      assert q.waiting == [q.waiting[0]] + q.waiting[1..];
    }
  }

  /** A get finds a message exactly while one is stored; then the first waiter's message takes
      the place freed, and it no longer waits. On an empty queue it returns -ENOMSG exactly if
      it may not wait, and otherwise the caller waits at its place. */
  ghost predicate GetAnswered(q: MsgQ, t: Tid, noWait: bool, place: nat, e: GetEffect) {
    && e.q.max == q.max
    && (e.out.NoMessage? <==> q.stored == [] && noWait)
    && (e.out.GetWaits? <==> q.stored == [] && !noWait)
    && (e.out.Received? ==>
          if q.waiting == [] then [e.out.m] + e.q.stored == q.stored && e.q.waiting == []
          else [e.out.m] + e.q.stored == q.stored + [Offer(q.waiting[0])] && q.waiting == [q.waiting[0]] + e.q.waiting)
    && (e.out.NoMessage? ==> e.q == q)
    && (e.out.GetWaits? ==> e.q.stored == [] && JoinsAt(q.waiting, e.q.waiting, place, Reader(t)))
  }

  lemma {:induction false} GetAnswers(q: MsgQ, t: Tid, noWait: bool, place: nat)
    requires place <= |q.waiting|
    ensures GetAnswered(q, t, noWait, place, Get(q, t, noWait, place))
  {
    if q.waiting != [] {
      assert q.waiting == [q.waiting[0]] + q.waiting[1..];
    }
  }

  /** `w` waits at `place`, the others before and behind it as they did. */
  ghost predicate JoinsAt(ws: seq<Waiter>, ws': seq<Waiter>, place: nat, w: Waiter) {
    && |ws'| == |ws| + 1 && place < |ws'| && ws'[place] == w
    && ws'[..place] + ws'[place + 1..] == ws
  }

  // ---- first in, first out ----------------------------------------------------------------------------

  /** The messages of the waiting writers, in wait-queue order. */
  function Pending(ws: seq<Waiter>): seq<Msg> {
    if ws == [] then [] else (if ws[0].Writer? then [ws[0].data] else []) + Pending(ws[1..])
  }

  function Fifo(q: MsgQ): seq<Msg> {
    q.stored + Pending(q.waiting)
  }

  lemma {:induction false} PendingConcat(a: seq<Waiter>, b: seq<Waiter>)
    ensures Pending(a + b) == Pending(a) + Pending(b)
    decreases |a|
  {
    if a == [] {
      assert a + b == b;
    } else {
      assert (a + b)[0] == a[0] && (a + b)[1..] == a[1..] + b;
      PendingConcat(a[1..], b);
    }
  }

  lemma {:induction false} PendingReaders(ws: seq<Waiter>)
    requires AllReaders(ws)
    ensures Pending(ws) == []
    decreases |ws|
  {
    if ws != [] {
      PendingReaders(ws[1..]);
    }
  }

  lemma {:induction false} PendingPlace(ws: seq<Waiter>, place: nat, w: Waiter)
    requires place <= |ws|
    ensures Pending(Place(ws, place, w)) == Pending(ws[..place]) + Pending([w]) + Pending(ws[place..])
    ensures Pending(ws) == Pending(ws[..place]) + Pending(ws[place..])
  {
    hide Pending;
    assert ws == ws[..place] + ws[place..];
    PendingConcat(ws[..place], ws[place..]);
    PendingConcat(ws[..place] + [w], ws[place..]);
    PendingConcat(ws[..place], [w]);
  }

  lemma {:induction false} PendingOne(w: Waiter)
    ensures Pending([w]) == if w.Writer? then [w.data] else []
  {
    assert Pending([w][1..]) == [];
  }

  /** A message put without waiting joins the end of the line, or goes straight to the
      first waiting reader, and then there is no line. */
  lemma {:induction false} PutJoinsLine(q: MsgQ, t: Tid, m: Msg, noWait: bool, place: nat)
    requires q.max > 0 && Inv(q) && place <= |q.waiting|
    ensures var e := Put(q, t, m, noWait, place);
      match e.out
      case Stored => Fifo(e.q) == Fifo(q) + [m]
      case HandedTo(w, copied) => w == q.waiting[0] && w.Reader? && copied == m && Fifo(q) == [] && Fifo(e.q) == []
      case NoRoom => e.q == q && |q.stored| == q.max && noWait
      case PutWaits =>
        Fifo(e.q) == q.stored + Pending(q.waiting[..place]) + [m] + Pending(q.waiting[place..]) &&
        |q.stored| == q.max && !noWait
  {
    hide Pending;
    if |q.stored| < q.max {
      if q.waiting != [] {
        assert AllReaders(q.waiting) && AllReaders(q.waiting[1..]) && q.stored == [];
        PendingReaders(q.waiting);
        PendingReaders(q.waiting[1..]);
      } else {
        PendingReaders([]);
      }
    } else if !noWait {
      PendingPlace(q.waiting, place, Writer(t, m));
      PendingOne(Writer(t, m));
      Regroup(q.stored, Pending(q.waiting[..place]), [m], Pending(q.waiting[place..]));
    }
  }

  lemma {:induction false} Regroup(a: seq<Msg>, b: seq<Msg>, c: seq<Msg>, d: seq<Msg>)
    ensures a + (b + c + d) == a + b + c + d
  {
  }

  /** A get takes exactly the first message of the line, and the queue stays full while
      writers wait. */
  lemma {:induction false} GetTakesFirst(q: MsgQ, t: Tid, noWait: bool, place: nat)
    requires q.max > 0 && Inv(q) && place <= |q.waiting|
    ensures var e := Get(q, t, noWait, place);
      match e.out
      case Received(m) => Fifo(q) == [m] + Fifo(e.q) && (q.waiting != [] ==> |e.q.stored| == q.max)
      case NoMessage => e.q == q && Fifo(q) == [] && noWait
      case GetWaits => Fifo(q) == [] && Fifo(e.q) == [] && !noWait
  {
    var e := Get(q, t, noWait, place);
    if q.stored != [] {
      assert q.stored == [q.stored[0]] + q.stored[1..];
      if q.waiting != [] {
        assert q.waiting[0].Writer?;
        assert Pending(q.waiting) == [q.waiting[0].data] + Pending(q.waiting[1..]);
      }
    } else {
      assert AllReaders(q.waiting);
      PendingReaders(q.waiting);
      assert AllReaders(Place(q.waiting, place, Reader(t)));
      PendingReaders(Place(q.waiting, place, Reader(t)));
    }
  }

  // ---- whole runs -----------------------------------------------------------------------------------

  datatype Call =
    | PutCall(t: Tid, m: Msg, noWait: bool, place: nat)
    | GetCall(t: Tid, noWait: bool, place: nat)
    | TimedOut(i: nat)
    | PurgeCall

  /** A queue with its history: messages taken over from writers, messages handed to
      readers in that order, and messages that were purged or given up. */
  datatype Trace = Trace(q: MsgQ, accepted: seq<Msg>, delivered: seq<Msg>, dropped: multiset<Msg>)

  function Start(max: nat): Trace {
    Trace(MsgQ(max, [], []), [], [], multiset{})
  }

  function Step(r: Trace, c: Call): Trace {
    match c
    case PutCall(t, m, noWait, place) =>
      var e := Put(r.q, t, m, noWait, Min(place, |r.q.waiting|));
      r.(q := e.q,
         accepted := if e.out.NoRoom? then r.accepted else r.accepted + [m],
         delivered := if e.out.HandedTo? then r.delivered + [e.out.copied] else r.delivered)
    case GetCall(t, noWait, place) =>
      var e := Get(r.q, t, noWait, Min(place, |r.q.waiting|));
      r.(q := e.q, delivered := if e.out.Received? then r.delivered + [e.out.m] else r.delivered)
    case TimedOut(i) =>
      r.(q := Leave(r.q, i),
         dropped := r.dropped +
           if i < |r.q.waiting| && r.q.waiting[i].Writer? then multiset{r.q.waiting[i].data} else multiset{})
    case PurgeCall =>
      r.(q := Purge(r.q), dropped := r.dropped + multiset(Fifo(r.q)))
  }

  function After(r: Trace, cs: seq<Call>): Trace
    decreases |cs|
  {
    if cs == [] then r else After(Step(r, cs[0]), cs[1..])
  }

  ghost predicate Conserved(r: Trace) {
    multiset(r.accepted) == multiset(r.delivered) + multiset(Fifo(r.q)) + r.dropped
  }

  ghost predicate InOrder(r: Trace) {
    r.accepted == r.delivered + Fifo(r.q)
  }

  /** New writers queue up at the end, and nothing is thrown away. */
  predicate Orderly(r: Trace, c: Call) {
    match c
    case PutCall(_, _, _, place) => place >= |r.q.waiting|
    case GetCall(_, _, _) => true
    case TimedOut(i) => i < |r.q.waiting| ==> r.q.waiting[i].Reader?
    case PurgeCall => false
  }

  lemma {:induction false} Joins(r: Trace, r': Trace, a: seq<Msg>, m: Msg, b: seq<Msg>)
    requires Fifo(r.q) == a + b && Fifo(r'.q) == a + [m] + b
    requires r'.accepted == r.accepted + [m] && r'.delivered == r.delivered && r'.dropped == r.dropped
    ensures Conserved(r) ==> Conserved(r')
    ensures InOrder(r) && b == [] ==> InOrder(r')
  {
    hide Fifo;
    assert multiset(a + [m] + b) == multiset(a + b) + multiset{m};
    if b == [] {
      assert a + b == a && a + [m] + b == a + [m];
      assert r.delivered + (a + [m]) == r.delivered + a + [m];
    }
  }

  lemma {:induction false} PassesThrough(r: Trace, r': Trace, m: Msg)
    requires Fifo(r.q) == [] && Fifo(r'.q) == []
    requires r'.accepted == r.accepted + [m] && r'.delivered == r.delivered + [m] && r'.dropped == r.dropped
    ensures Conserved(r) ==> Conserved(r')
    ensures InOrder(r) ==> InOrder(r')
  {
    hide Fifo;
    assert r.delivered + [] == r.delivered && r'.delivered + [] == r'.delivered;
  }

  lemma {:induction false} Leaves(r: Trace, r': Trace, m: Msg)
    requires Fifo(r.q) == [m] + Fifo(r'.q)
    requires r'.accepted == r.accepted && r'.delivered == r.delivered + [m] && r'.dropped == r.dropped
    ensures Conserved(r) ==> Conserved(r')
    ensures InOrder(r) ==> InOrder(r')
  {
    hide Fifo;
    assert r.delivered + ([m] + Fifo(r'.q)) == r.delivered + [m] + Fifo(r'.q);
    assert multiset([m] + Fifo(r'.q)) == multiset{m} + multiset(Fifo(r'.q));
    assert multiset(r.delivered + [m]) == multiset(r.delivered) + multiset{m};
  }

  lemma {:induction false} Dropped(r: Trace, r': Trace, a: seq<Msg>, c: seq<Msg>, b: seq<Msg>)
    requires Fifo(r.q) == a + c + b && Fifo(r'.q) == a + b
    requires r'.accepted == r.accepted && r'.delivered == r.delivered && r'.dropped == r.dropped + multiset(c)
    ensures Conserved(r) ==> Conserved(r')
    ensures InOrder(r) && c == [] ==> InOrder(r')
  {
    hide Fifo;
    assert multiset(a + c + b) == multiset(a + b) + multiset(c);
    if c == [] {
      assert a + c + b == a + b;
    }
  }

  lemma {:induction false} PutStep(r: Trace, t: Tid, m: Msg, noWait: bool, place: nat)
    requires r.q.max > 0 && Inv(r.q)
    ensures var r' := Step(r, PutCall(t, m, noWait, place));
      && Inv(r'.q) && (Conserved(r) ==> Conserved(r'))
      && (InOrder(r) && place >= |r.q.waiting| ==> InOrder(r'))
  {
    hide Inv, Put, Fifo, Pending, Conserved, InOrder;
    var q, p, r' := r.q, Min(place, |r.q.waiting|), Step(r, PutCall(t, m, noWait, place));
    var e := Put(q, t, m, noWait, p);
    PutKeeps(q, t, m, noWait, p);
    PutJoinsLine(q, t, m, noWait, p);
    match e.out
    case Stored => Joins(r, r', Fifo(q), m, []);
    case HandedTo(w, copied) => PassesThrough(r, r', m);
    case NoRoom =>
    case PutWaits =>
      PendingPlace(q.waiting, p, Writer(t, m));
      FifoSplits(q, p);
      Joins(r, r', q.stored + Pending(q.waiting[..p]), m, Pending(q.waiting[p..]));
  }

  lemma {:induction false} FifoSplits(q: MsgQ, p: nat)
    requires p <= |q.waiting|
    ensures Fifo(q) == (q.stored + Pending(q.waiting[..p])) + Pending(q.waiting[p..])
    ensures p == |q.waiting| ==> Pending(q.waiting[p..]) == []
  {
    PendingPlace(q.waiting, p, Reader(0));
  }

  lemma {:induction false} GetStep(r: Trace, t: Tid, noWait: bool, place: nat)
    requires r.q.max > 0 && Inv(r.q)
    ensures var r' := Step(r, GetCall(t, noWait, place));
      Inv(r'.q) && (Conserved(r) ==> Conserved(r')) && (InOrder(r) ==> InOrder(r'))
  {
    hide Inv, Get, Fifo, Conserved, InOrder;
    var p, r' := Min(place, |r.q.waiting|), Step(r, GetCall(t, noWait, place));
    var e := Get(r.q, t, noWait, p);
    GetKeeps(r.q, t, noWait, p);
    GetTakesFirst(r.q, t, noWait, p);
    if e.out.Received? {
      Leaves(r, r', e.out.m);
    } else {
      SameLine(r, r');
    }
  }

  lemma {:induction false} SameLine(r: Trace, r': Trace)
    requires Fifo(r'.q) == Fifo(r.q) && r' == r.(q := r'.q)
    ensures Conserved(r) ==> Conserved(r')
    ensures InOrder(r) ==> InOrder(r')
  {
  }

  lemma {:induction false} LeaveStep(r: Trace, i: nat)
    requires Inv(r.q)
    ensures var r' := Step(r, TimedOut(i));
      Inv(r'.q) && (Conserved(r) ==> Conserved(r')) && (InOrder(r) && Orderly(r, TimedOut(i)) ==> InOrder(r'))
  {
    hide Inv, OneKind, Fifo, Pending, Conserved, InOrder;
    LeaveKeeps(r.q, i);
    var ws, r' := r.q.waiting, Step(r, TimedOut(i));
    if i < |ws| {
      LeaveSplits(r.q, i);
      Dropped(r, r', r.q.stored + Pending(ws[..i]), if ws[i].Writer? then [ws[i].data] else [], Pending(ws[i + 1..]));
    } else {
      assert r'.dropped == r.dropped && r' == r;
    }
  }

  lemma {:induction false} LeaveSplits(q: MsgQ, i: nat)
    requires i < |q.waiting|
    ensures var a, w, b := q.stored + Pending(q.waiting[..i]), q.waiting[i], Pending(q.waiting[i + 1..]);
      Fifo(q) == a + (if w.Writer? then [w.data] else []) + b && Fifo(Leave(q, i)) == a + b
  {
    var ws := q.waiting;
    var rest := Without(ws, i);
    assert Place(rest, i, ws[i]) == ws;
    assert rest[..i] == ws[..i] && rest[i..] == ws[i + 1..];
    PendingPlace(rest, i, ws[i]);
    PendingOne(ws[i]);
    hide Pending;
    var x, c, y := Pending(ws[..i]), Pending([ws[i]]), Pending(ws[i + 1..]);
    assert q.stored + (x + c + y) == q.stored + x + c + y;
    assert q.stored + (x + y) == q.stored + x + y;
  }

  lemma {:induction false} StepKeeps(r: Trace, c: Call)
    requires r.q.max > 0 && Inv(r.q)
    ensures var r' := Step(r, c);
      r'.q.max == r.q.max && Inv(r'.q) && (Conserved(r) ==> Conserved(r')) &&
      (InOrder(r) && Orderly(r, c) ==> InOrder(r'))
  {
    hide Inv, Conserved, InOrder;
    match c
    case PutCall(t, m, noWait, place) => PutStep(r, t, m, noWait, place);
    case GetCall(t, noWait, place) => GetStep(r, t, noWait, place);
    case TimedOut(i) => LeaveStep(r, i);
    case PurgeCall => PurgeStep(r);
  }

  lemma {:induction false} PurgeStep(r: Trace)
    ensures Inv(Step(r, PurgeCall).q) && (Conserved(r) ==> Conserved(Step(r, PurgeCall)))
  {
    assert Fifo(Purge(r.q)) == [];
  }

  /** In every run of a queue that can hold a message: whoever waits is a reader of an
      empty queue or a writer to a full one, and no message is lost, made up or doubled. */
  lemma {:induction false} EveryRun(r: Trace, cs: seq<Call>)
    requires r.q.max > 0 && Inv(r.q) && Conserved(r)
    ensures Inv(After(r, cs).q) && Conserved(After(r, cs)) && After(r, cs).q.max == r.q.max
    decreases |cs|
  {
    if cs != [] {
      hide Inv, Conserved, Step;
      StepKeeps(r, cs[0]);
      EveryRun(Step(r, cs[0]), cs[1..]);
    }
  }

  ghost predicate AllOrderly(r: Trace, cs: seq<Call>)
    decreases |cs|
  {
    cs == [] || (Orderly(r, cs[0]) && AllOrderly(Step(r, cs[0]), cs[1..]))
  }

  /** While writers queue up in turn and nothing is purged or given up, messages come out
      in the order they went in. */
  lemma {:induction false} OrderlyRun(r: Trace, cs: seq<Call>)
    requires r.q.max > 0 && Inv(r.q) && Conserved(r) && InOrder(r) && AllOrderly(r, cs)
    ensures InOrder(After(r, cs))
    decreases |cs|
  {
    if cs != [] {
      hide Inv, Conserved, Step, InOrder, Orderly;
      StepKeeps(r, cs[0]);
      OrderlyRun(Step(r, cs[0]), cs[1..]);
    }
  }

  lemma {:induction false} StartKeeps(max: nat)
    ensures Inv(Start(max).q) && Conserved(Start(max)) && InOrder(Start(max))
  {
  }

  /** The waiters are of one kind in every run if and only if the queue can hold a
      message; with room for none, a reader and a writer wait side by side. */
  lemma {:induction false} OneKindIff(max: nat)
    ensures max > 0 <==> forall cs :: OneKind(After(Start(max), cs).q)
  {
    if max > 0 {
      StartKeeps(max);
      forall cs ensures OneKind(After(Start(max), cs).q) {
        EveryRun(Start(max), cs);
      }
    } else {
      var c1, c2 := GetCall(0, false, 0), PutCall(1, [], false, 0);
      var r1 := Step(Start(0), c1);
      assert r1.q.waiting == [Reader(0)];
      var r2 := Step(r1, c2);
      assert r2.q.waiting == [Writer(1, []), Reader(0)];
      assert r2.q.waiting[0].Writer? && r2.q.waiting[1].Reader?;
      assert [c1, c2][1..] == [c2] && [c2][1..] == [];
      assert After(r2, []) == r2;
      assert After(r1, [c2]) == r2;
      assert After(Start(0), [c1, c2]) == r2;
      assert !OneKind(After(Start(max), [c1, c2]).q);
    }
  }
}
