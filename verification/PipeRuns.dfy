/** Whole runs of a pipe: any sequence of puts, gets and timeouts, by any threads in
    any scheduler order. */
module PipeRuns {
  import opened Rings
  import opened PipeStreams
  import opened PipeSpec

  datatype Call =
    | PutCall(putter: Tid, data: seq<byte>, least: nat, noWait: bool, place: nat)
    | GetCall(getter: Tid, n: nat, least: nat, noWait: bool, place: nat)
    | ReaderTimeout(i: nat)
    | WriterTimeout(i: nat)

  /** A pipe with its history: the bytes taken over from putters, the bytes that came to
      getters (returned at once, or added to a waiting reader's descriptor), and the bytes
      timed-out writers took back. */
  datatype Trace = Trace(view: View, accepted: seq<byte>, delivered: seq<byte>, withdrawn: multiset<byte>)

  function Start(size: nat): Trace {
    Trace(View(size, [], [], []), [], [], multiset{})
  }

  function PutTrace(t: Trace, e: PutEffect, data: seq<byte>): Trace {
    t.(view := e.view,
       accepted := t.accepted + if e.out.Blocks? then data else Clip(data, e.out.count),
       delivered := t.delivered + Gains(t.view.readers, Readers(e)))
  }

  function Step(t: Trace, c: Call): Trace
    requires |t.view.ring| <= t.view.size
  {
    match c
    case PutCall(thread, data, least, noWait, place) =>
      PutTrace(t, Put(t.view, thread, data, least, noWait, Min(place, |t.view.writers|)), data)
    case GetCall(thread, n, least, noWait, place) =>
      var e := CheckedGet(t.view, thread, n, least, noWait, Min(place, |t.view.readers|));
      t.(view := e.view, delivered := t.delivered + e.got)
    case ReaderTimeout(i) =>
      if i < |t.view.readers| then t.(view := t.view.(readers := Without(t.view.readers, i))) else t
    case WriterTimeout(i) =>
      if i < |t.view.writers| then
        t.(view := t.view.(writers := Without(t.view.writers, i)),
           withdrawn := t.withdrawn + multiset(t.view.writers[i].rest))
      else t
  }

  /** Bytes are conserved: what was accepted was delivered, is in the stream, or was
      taken back. */
  ghost predicate Conserved(t: Trace) {
    multiset(t.accepted) == multiset(t.delivered) + multiset(Stream(t.view)) + t.withdrawn
  }

  ghost predicate InOrder(t: Trace) {
    t.accepted == t.delivered + Stream(t.view)
  }

  // ---- one call ---------------------------------------------------------------

  lemma {:induction false} FlatWithout(ws: seq<Source>, i: nat)
    requires i < |ws|
    ensures multiset(Flat(ws)) == multiset(Flat(Without(ws, i))) + multiset(ws[i].rest)
    ensures Flat(Without(ws, i)) != [] ==> Flat(ws) != []
  {
    assert ws == (ws[..i] + [ws[i]]) + ws[i + 1..];
    FlatConcat(ws[..i] + [ws[i]], ws[i + 1..]);
    FlatConcat(ws[..i], [ws[i]]);
    FlatConcat(ws[..i], ws[i + 1..]);
    FlatOne(ws[i]);
    hide Flat;
    assert multiset(Flat(ws[..i]) + ws[i].rest + Flat(ws[i + 1..]))
        == multiset(Flat(ws[..i])) + multiset(ws[i].rest) + multiset(Flat(ws[i + 1..]));
  }

  /** How a put's data shows up in the history and the stream. */
  lemma {:induction false} PutHistory(t: Trace, thread: Tid, data: seq<byte>, least: nat, noWait: bool, place: nat)
    requires Inv(t.view) && place <= |t.view.writers| && !PutRefused(t.view, data, least, noWait)
    ensures var t' := PutTrace(t, Put(t.view, thread, data, least, noWait, place), data);
      && Inv(t'.view)
      && (Conserved(t) ==> Conserved(t'))
      && (InOrder(t) && place == |t.view.writers| ==> InOrder(t'))
  {
    hide Put, Stream, Flat, Served, Gains, Conserved, InOrder;
    var v, e := t.view, Put(t.view, thread, data, least, noWait, place);
    PutInOrder(v, thread, data, least, noWait, place);
    var toReaders, toRing := Gains(v.readers, Readers(e)), e.view.ring[|v.ring|..];
    var taken := toReaders + toRing;
    var t' := PutTrace(t, e, data);
    assert e.view.ring == v.ring + toRing;
    if e.out.Blocks? {
      PutBlocked(t, t', place, toReaders, toRing, data[|taken|..]);
    } else {
      PutDone(t, t', toReaders, toRing);
    }
  }

  lemma {:induction false} GainsNothing(rs: seq<Sink>)
    ensures Gains(rs, rs) == []
  {
    if rs != [] {
      GainsNothing(rs[1..]);
    }
  }

  /** A put that is turned away leaves pipe and history as they are. */
  lemma {:induction false} PutTurnedAway(t: Trace, thread: Tid, data: seq<byte>, least: nat, noWait: bool, place: nat)
    requires Inv(t.view) && place <= |t.view.writers| && PutRefused(t.view, data, least, noWait)
    ensures PutTrace(t, Put(t.view, thread, data, least, noWait, place), data) == t
  {
    hide Put, PutRefused, Gains;
    PutTurnsAway(t.view, thread, data, least, noWait, place);
    GainsNothing(t.view.readers);
    assert [] + t.view.readers == t.view.readers && Clip(data, 0) == [];
    assert t.accepted + [] == t.accepted && t.delivered + [] == t.delivered;
  }

  lemma {:induction false} PutDone(t: Trace, t': Trace, toReaders: seq<byte>, toRing: seq<byte>)
    requires toReaders != [] ==> Stream(t.view) == []
    requires t'.accepted == t.accepted + (toReaders + toRing) && t'.delivered == t.delivered + toReaders
    requires t'.withdrawn == t.withdrawn && Stream(t'.view) == Stream(t.view) + toRing
    ensures Conserved(t) ==> Conserved(t')
    ensures InOrder(t) ==> InOrder(t')
  {
    hide Stream;
    if toReaders != [] {
      assert Stream(t.view) + toRing == toRing;
      assert t.accepted + (toReaders + toRing) == (t.accepted + toReaders) + toRing;
      if InOrder(t) {
        assert t.accepted == t.delivered by { assert t.delivered + [] == t.delivered; }
      }
    } else {
      assert toReaders + toRing == toRing && t.delivered + toReaders == t.delivered;
      if InOrder(t) {
        assert (t.delivered + Stream(t.view)) + toRing == t.delivered + (Stream(t.view) + toRing);
      }
    }
  }

  lemma {:induction false} PutBlocked(t: Trace, t': Trace, place: nat, toReaders: seq<byte>, toRing: seq<byte>,
      left: seq<byte>)
    requires place <= |t.view.writers|
    requires toReaders != [] ==> Stream(t.view) == []
    requires toRing != [] ==> Flat(t.view.writers) == []
    requires t'.accepted == t.accepted + (toReaders + toRing + left) && t'.delivered == t.delivered + toReaders
    requires t'.withdrawn == t.withdrawn
    requires Stream(t'.view) == (t.view.ring + toRing) + Flat(t.view.writers[..place]) + left +
        Flat(t.view.writers[place..])
    ensures Conserved(t) ==> Conserved(t')
    ensures InOrder(t) && place == |t.view.writers| ==> InOrder(t')
  {
    hide Flat, Stream, Conserved, InOrder;
    var ws := t.view.writers;
    var a, b := Flat(ws[..place]), Flat(ws[place..]);
    StreamAt(t.view, place);
    SpliceConserved(t, t', a, b, toReaders, toRing, left);
    if InOrder(t) && place == |ws| {
      SpliceInOrder(t, t', a, toReaders, toRing, left);
    }
  }

  lemma {:induction false} StreamAt(v: View, place: nat)
    requires place <= |v.writers|
    ensures Stream(v) == v.ring + (Flat(v.writers[..place]) + Flat(v.writers[place..]))
    ensures place == |v.writers| ==> Flat(v.writers[place..]) == []
    ensures Flat(v.writers) == Flat(v.writers[..place]) + Flat(v.writers[place..])
  {
    assert v.writers == v.writers[..place] + v.writers[place..];
    FlatConcat(v.writers[..place], v.writers[place..]);
  }

  lemma {:induction false} SpliceConserved(t: Trace, t': Trace, a: seq<byte>, b: seq<byte>,
                                           toReaders: seq<byte>, toRing: seq<byte>, left: seq<byte>)
    requires Stream(t.view) == t.view.ring + (a + b)
    requires t'.accepted == t.accepted + (toReaders + toRing + left) && t'.delivered == t.delivered + toReaders
    requires t'.withdrawn == t.withdrawn
    requires Stream(t'.view) == (t.view.ring + toRing) + a + left + b
    ensures Conserved(t) ==> Conserved(t')
  {
    hide Stream;
    SpliceKept(t.view.ring, a, b, toRing, left);
    assert multiset(t'.accepted) == multiset(t.accepted) + multiset(toReaders) + multiset(toRing) + multiset(left);
    assert multiset(t'.delivered) == multiset(t.delivered) + multiset(toReaders);
  }

  lemma {:induction false} SpliceInOrder(t: Trace, t': Trace, a: seq<byte>, toReaders: seq<byte>, toRing: seq<byte>,
      left: seq<byte>)
    requires InOrder(t) && Stream(t.view) == t.view.ring + (a + [])
    requires toReaders != [] ==> Stream(t.view) == []
    requires toRing != [] ==> a == []
    requires t'.accepted == t.accepted + (toReaders + toRing + left) && t'.delivered == t.delivered + toReaders
    requires Stream(t'.view) == (t.view.ring + toRing) + a + left + []
    ensures InOrder(t')
  {
    hide Stream;
    SpliceLast(t.accepted, t.delivered, t.view.ring, a, toReaders, toRing, left);
  }

  lemma {:induction false} SpliceKept(ring: seq<byte>, a: seq<byte>, b: seq<byte>, toRing: seq<byte>, left: seq<byte>)
    ensures multiset((ring + toRing) + a + left + b) == multiset(ring + (a + b)) + multiset(toRing) + multiset(left)
  {
  }

  lemma {:induction false} SpliceLast(accepted: seq<byte>, delivered: seq<byte>, ring: seq<byte>, a: seq<byte>,
                                      toReaders: seq<byte>, toRing: seq<byte>, left: seq<byte>)
    requires accepted == delivered + (ring + (a + []))
    requires toReaders != [] ==> ring + (a + []) == []
    requires toRing != [] ==> a == []
    ensures accepted + (toReaders + toRing + left) == (delivered + toReaders) + ((ring + toRing) + a + left + [])
  {
    assert a + [] == a;
    if toRing == [] {
      assert (ring + toRing) + a == ring + a;
    } else {
      assert (ring + toRing) + a == ring + toRing;
    }
    if toReaders == [] {
      assert delivered + toReaders == delivered;
    } else {
      assert ring == [] && a == [] && accepted == delivered;
    }
  }

  lemma {:induction false} PutKeeps(t: Trace, thread: Tid, data: seq<byte>, least: nat, noWait: bool, place: nat)
    requires Inv(t.view) && place <= |t.view.writers|
    ensures var t' := PutTrace(t, Put(t.view, thread, data, least, noWait, place), data);
      && Inv(t'.view)
      && (Conserved(t) ==> Conserved(t'))
      && (InOrder(t) && place == |t.view.writers| ==> InOrder(t'))
  {
    hide Flat, Put, PutTrace, PutRefused, Inv, Conserved, InOrder;
    assert Inv(t.view);
    if PutRefused(t.view, data, least, noWait) {
      PutTurnedAway(t, thread, data, least, noWait, place);
    } else {
      PutHistory(t, thread, data, least, noWait, place);
    }
  }

  lemma {:induction false} GetKeeps(t: Trace, thread: Tid, n: nat, least: nat, noWait: bool, place: nat)
    requires Inv(t.view) && place <= |t.view.readers|
    ensures var e := CheckedGet(t.view, thread, n, least, noWait, place);
      && Inv(e.view) && e.got + Stream(e.view) == Stream(t.view)
  {
    hide Stream, Clip, Past, Flat, Get;
    if least <= n {
      if noWait && |Stream(t.view)| < least {
        GetRefused(t.view, thread, n, least, place);
      } else {
        GetIsFifo(t.view, thread, n, least, noWait, place);
        ClipPast(Stream(t.view), n);
      }
    }
  }

  lemma {:induction false} WriterTimeoutKeeps(t: Trace, i: nat)
    requires Inv(t.view) && Conserved(t) && i < |t.view.writers|
    ensures Inv(Step(t, WriterTimeout(i)).view) && Conserved(Step(t, WriterTimeout(i)))
  {
    hide Flat;
    FlatWithout(t.view.writers, i);
    var a, b := Flat(t.view.writers), Flat(Without(t.view.writers, i));
    hide Without;
    assert multiset(t.view.ring + a) == multiset(t.view.ring) + multiset(a);
    assert multiset(t.view.ring + b) == multiset(t.view.ring) + multiset(b);
  }

  lemma {:induction false} GetHistory(t: Trace, t': Trace, got: seq<byte>)
    requires t'.accepted == t.accepted && t'.withdrawn == t.withdrawn && t'.delivered == t.delivered + got
    requires got + Stream(t'.view) == Stream(t.view)
    ensures Conserved(t) ==> Conserved(t')
    ensures InOrder(t) ==> InOrder(t')
  {
    hide Stream;
    assert multiset(Stream(t.view)) == multiset(got) + multiset(Stream(t'.view));
    assert t.delivered + (got + Stream(t'.view)) == (t.delivered + got) + Stream(t'.view);
  }

  lemma {:induction false} GetRefused(v: View, thread: Tid, n: nat, least: nat, place: nat)
    requires |v.ring| <= v.size && place <= |v.readers| && |Stream(v)| < least
    ensures Get(v, thread, n, least, true, place) == GetEffect(v, Returned(-EIO, 0), [], [])
  {
  }

  /** Every call keeps the waiting invariant and conserves bytes; and unless a writer
      blocks ahead of another or takes bytes back, it keeps their order. */
  lemma {:induction false} StepKeeps(t: Trace, c: Call)
    requires Inv(t.view) && Conserved(t)
    ensures Inv(Step(t, c).view) && Conserved(Step(t, c))
    ensures InOrder(t) && !c.WriterTimeout? && (c.PutCall? ==> c.place >= |t.view.writers|) ==> InOrder(Step(t, c))
  {
    match c
    case PutCall(thread, data, least, noWait, place) =>
      hide Inv, Conserved, InOrder, Put, PutTrace;
      PutKeeps(t, thread, data, least, noWait, Min(place, |t.view.writers|));
    case GetCall(thread, n, least, noWait, place) =>
      hide Inv, Conserved, InOrder, CheckedGet;
      GetKeeps(t, thread, n, least, noWait, Min(place, |t.view.readers|));
      GetHistory(t, Step(t, c), CheckedGet(t.view, thread, n, least, noWait, Min(place, |t.view.readers|)).got);
    case ReaderTimeout(i) =>
    case WriterTimeout(i) =>
      if i < |t.view.writers| {
        hide Inv, Conserved, Step;
        WriterTimeoutKeeps(t, i);
      }
  }

  // ---- whole runs -------------------------------------------------------------

  ghost predicate Reaches(t: Trace, cs: seq<Call>, t': Trace)
    decreases |cs|
  {
    if cs == [] then t' == t
    else |t.view.ring| <= t.view.size && Reaches(Step(t, cs[0]), cs[1..], t')
  }

  /** Every run keeps the waiting invariant and loses or duplicates no byte. */
  lemma {:induction false} EveryRun(t: Trace, cs: seq<Call>, t': Trace)
    requires Inv(t.view) && Conserved(t) && Reaches(t, cs, t')
    ensures Inv(t'.view) && Conserved(t')
    decreases |cs|
  {
    if cs != [] {
      StepKeeps(t, cs[0]);
      EveryRun(Step(t, cs[0]), cs[1..], t');
    }
  }

  /** The callers all queue behind each other and nobody takes bytes back. */
  ghost predicate Orderly(t: Trace, cs: seq<Call>)
    decreases |cs|
  {
    cs != [] ==>
      && |t.view.ring| <= t.view.size
      && !cs[0].WriterTimeout? && (cs[0].PutCall? ==> cs[0].place >= |t.view.writers|)
      && Orderly(Step(t, cs[0]), cs[1..])
  }

  /** An orderly run is a first-in first-out stream: what was delivered followed by
      what is still in the pipe is exactly what was accepted. */
  lemma {:induction false} OrderlyRun(t: Trace, cs: seq<Call>, t': Trace)
    requires Inv(t.view) && Conserved(t) && InOrder(t) && Orderly(t, cs) && Reaches(t, cs, t')
    ensures Inv(t'.view) && InOrder(t')
    decreases |cs|
  {
    if cs != [] {
      StepKeeps(t, cs[0]);
      OrderlyRun(Step(t, cs[0]), cs[1..], t');
    }
  }
}
