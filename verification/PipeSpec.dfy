/** What a pipe promises, on values: its state as one byte stream with queues of
    blocked readers and writers, and the effect of each call on it. */
module PipeSpec {
  import opened Rings
  import opened PipeStreams

  datatype View = View(size: nat, ring: seq<byte>, readers: seq<Sink>, writers: seq<Source>)

  datatype Outcome = Returned(ret: int, count: nat) | Blocks

  datatype PutEffect = PutEffect(view: View, out: Outcome, woken: seq<Sink>)
  datatype GetEffect = GetEffect(view: View, out: Outcome, got: seq<byte>, woken: seq<Source>)

  /** The bytes in the pipe: stored ones, then those of blocked writers in queue order. */
  function Stream(v: View): seq<byte> {
    v.ring + Flat(v.writers)
  }

  /** Who may be waiting: readers only on an empty pipe without writers, writers
      with unsent bytes only on a full one. */
  ghost predicate Inv(v: View) {
    && |v.ring| <= v.size
    && (forall r :: r in v.readers ==> r.left > 0)
    && (v.readers != [] ==> v.ring == [] && v.writers == [])
    && (Flat(v.writers) != [] ==> |v.ring| == v.size)
  }

  /** z_impl_k_pipe_put. `place` is where the scheduler's order puts the caller in
      the writers' queue, should it block. */
  function Put(v: View, thread: Tid, data: seq<byte>, least: nat, noWait: bool, place: nat): PutEffect
    requires |v.ring| <= v.size && place <= |v.writers|
  {
    var free := v.size - |v.ring|;
    if least > |data| then PutEffect(v, Returned(-EINVAL, 0), [])
    else if Room(v.readers) + free < least && noWait then PutEffect(v, Returned(-EIO, 0), [])
    else
      var filled := Fill(v.readers, data);
      var rest := Past(data, Room(v.readers));
      var left := Past(rest, free);
      var n := |data| - |left|;
      var v' := v.(ring := v.ring + Clip(rest, free), readers := Hungry(filled));
      if left == [] || noWait || (n >= least && least > 0) then PutEffect(v', Returned(0, n), Satisfied(filled))
      else
        PutEffect(v'.(writers := Place(v.writers, place, Source(thread, data[..n], left, least))), Blocks,
            Satisfied(filled))
  }

  /** The pipe after `n` bytes were taken: writers the walk visited and that have
      nothing left are released, the others stay. */
  function Take(v: View, n: nat): (v': View)
    ensures |v'.ring| <= |v.ring| && v'.size == v.size && v'.readers == v.readers
  {
    var k := n - Min(n, |v.ring|);
    var seen := SourceWalk(v.writers, n);
    v.(ring := Past(v.ring, n), writers := Unfinished(Drain(v.writers[..seen], k)) + v.writers[seen..])
  }

  /** Blocked writers' bytes move into the free part of the ring; nobody is released. */
  function Refill(v: View): (v': View)
    requires |v.ring| <= v.size
    ensures |v'.ring| <= v.size && v'.size == v.size && v'.readers == v.readers
  {
    var free := v.size - |v.ring|;
    v.(ring := v.ring + Clip(Flat(v.writers), free), writers := Drain(v.writers, free))
  }

  /** pipe_get_internal. */
  function Get(v: View, thread: Tid, n: nat, least: nat, noWait: bool, place: nat): GetEffect
    requires |v.ring| <= v.size && place <= |v.readers|
  {
    if |Stream(v)| < least && noWait then GetEffect(v, Returned(-EIO, 0), [], [])
    else
      var got := Clip(Stream(v), n);
      var seen := SourceWalk(v.writers, n);
      var woken := Finished(Drain(v.writers[..seen], n - Min(n, |v.ring|)));
      var v' := Refill(Take(v, n));
      if |got| == n || noWait || (|got| >= least && least > 0) then GetEffect(v', Returned(0, |got|), got, woken)
      else GetEffect(v'.(readers := Place(v.readers, place, Sink(thread, got, n - |got|, least))), Blocks, got, woken)
  }

  /** z_impl_k_pipe_get: the argument check in front of pipe_get_internal. */
  function CheckedGet(v: View, thread: Tid, n: nat, least: nat, noWait: bool, place: nat): GetEffect
    requires |v.ring| <= v.size && place <= |v.readers|
  {
    if least > n then GetEffect(v, Returned(-EINVAL, 0), [], []) else Get(v, thread, n, least, noWait, place)
  }

  // ---- a get ------------------------------------------------------------------

  lemma {:induction false} TakeStream(v: View, n: nat)
    ensures Stream(Take(v, n)) == Past(Stream(v), n)
  {
    var k := n - Min(n, |v.ring|);
    var seen := SourceWalk(v.writers, n);
    var drained := Drain(v.writers[..seen], k);
    assert Flat(Take(v, n).writers) == Past(Flat(v.writers), k) by {
      WalkEnough(v.writers, n, k);
      FlatConcat(Unfinished(drained), v.writers[seen..]);
      UnfinishedFlat(drained);
      FlatConcat(drained, v.writers[seen..]);
      DrainFlat(v.writers, k);
    }
    PastConcat(v.ring, Flat(v.writers), n);
  }

  lemma {:induction false} RefillStream(v: View)
    requires |v.ring| <= v.size
    ensures Stream(Refill(v)) == Stream(v) && |Refill(v).ring| <= v.size
    ensures Flat(Refill(v).writers) != [] ==> |Refill(v).ring| == v.size
  {
    hide Flat, Drain;
    var free := v.size - |v.ring|;
    DrainFlat(v.writers, free);
    var f := Flat(v.writers);
    assert Clip(f, free) + Past(f, free) == f;
    assert (v.ring + Clip(f, free)) + Past(f, free) == v.ring + f;
  }

  /** A take that drains the whole stream releases every writer. */
  lemma {:induction false} TakeAll(v: View, n: nat)
    requires |Stream(v)| < n
    ensures Take(v, n).writers == [] && Take(v, n).ring == []
  {
    var seen := SourceWalk(v.writers, n);
    assert seen == |v.writers| by {
      assert v.writers == v.writers[..seen] + v.writers[seen..];
      FlatConcat(v.writers[..seen], v.writers[seen..]);
    }
    var k := n - Min(n, |v.ring|);
    assert v.writers[..seen] == v.writers;
    DrainFlat(v.writers, k);
    NoBytesNoUnfinished(Drain(v.writers, k));
  }

  /** What taking `n` bytes and refilling the ring leaves behind. */
  lemma {:induction false} AfterTake(v: View, n: nat)
    requires Inv(v)
    ensures var v' := Refill(Take(v, n));
      && v'.size == v.size && v'.readers == v.readers && |v'.ring| <= v.size
      && Stream(v') == Past(Stream(v), n)
      && (Flat(v'.writers) != [] ==> |v'.ring| == v.size)
      && (|Stream(v)| < n || v.readers != [] ==> v'.ring == [] && v'.writers == [])
  {
    var t := Take(v, n);
    TakeStream(v, n);
    RefillStream(t);
    if |Stream(v)| < n {
      TakeAll(v, n);
    }
  }

  /** The promise of a get: it delivers and removes exactly the first min(n, length)
      bytes of the stream, and blocks only when that is the whole stream and too little. */
  ghost predicate GetPromise(v: View, thread: Tid, n: nat, least: nat, noWait: bool, place: nat, e: GetEffect)
    requires place <= |v.readers|
  {
    && e.got == Clip(Stream(v), n)
    && Stream(e.view) == Past(Stream(v), n)
    && (e.out.Blocks? ==>
          && Stream(v) == e.got && |e.got| < n && !noWait
          && e.view.readers == Place(v.readers, place, Sink(thread, e.got, n - |e.got|, least)))
    && (e.out.Returned? ==> e.view.readers == v.readers && e.out == Returned(0, |e.got|))
  }

  /** The two ways a get that was not refused can end, given the pipe it leaves. */
  lemma {:induction false} GetEnds(v: View, v': View, thread: Tid, n: nat, least: nat, noWait: bool, place: nat,
      woken: seq<Source>)
    requires Inv(v) && place <= |v.readers| && least <= n
    requires v'.size == v.size && v'.readers == v.readers && |v'.ring| <= v.size
    requires Stream(v') == Past(Stream(v), n)
    requires Flat(v'.writers) != [] ==> |v'.ring| == v.size
    requires |Stream(v)| < n || v.readers != [] ==> v'.ring == [] && v'.writers == []
    ensures var got := Clip(Stream(v), n);
      var r := Sink(thread, got, n - |got|, least);
      var done := GetEffect(v', Returned(0, |got|), got, woken);
      var blocked := GetEffect(v'.(readers := Place(v.readers, place, r)), Blocks, got, woken);
      && Inv(v') && GetPromise(v, thread, n, least, noWait, place, done)
      && (|got| < n && !noWait ==> Inv(blocked.view) && GetPromise(v, thread, n, least, noWait, place, blocked))
  {
    ClipPast(Stream(v), n);
  }

  lemma {:induction false} GetIsFifo(v: View, thread: Tid, n: nat, least: nat, noWait: bool, place: nat)
    requires Inv(v) && place <= |v.readers|
    requires least <= n && !(noWait && |Stream(v)| < least)
    ensures var e := Get(v, thread, n, least, noWait, place);
      Inv(e.view) && GetPromise(v, thread, n, least, noWait, place, e)
  {
    hide Flat, Drain, Finished, Unfinished, SourceWalk, Place, Past, Take, Refill, GetPromise;
    AfterTake(v, n);
    var woken := Finished(Drain(v.writers[..SourceWalk(v.writers, n)], n - Min(n, |v.ring|)));
    GetEnds(v, Refill(Take(v, n)), thread, n, least, noWait, place, woken);
  }

  /** A get that asks for more than there is, and does not wait, empties the pipe. */
  lemma {:induction false} GetEmpties(v: View, n: nat)
    requires Inv(v)
    ensures var v' := Get(v, 0, n, 0, true, 0).view; |Stream(v)| < n ==> v'.ring == [] && v'.writers == []
  {
    hide Stream, Flat, Drain, Finished, Take, Refill;
    AfterTake(v, n);
  }

  // ---- a put ------------------------------------------------------------------

  /** Bytes the waiting readers gain between two states of their descriptors. */
  function Gains(before: seq<Sink>, after: seq<Sink>): seq<byte> {
    if before == [] || after == [] then []
    else Past(after[0].got, |before[0].got|) + Gains(before[1..], after[1..])
  }

  /** Readers are served in queue order with the first bytes of the data: their
      gains, read front to back, are exactly a prefix of it. */
  lemma {:induction false} FillInOrder(rs: seq<Sink>, bs: seq<byte>)
    ensures Gains(rs, Fill(rs, bs)) == Clip(bs, Room(rs))
  {
    if rs != [] {
      var k := rs[0].left;
      FillInOrder(rs[1..], Past(bs, k));
      assert Fill(rs, bs)[1..] == Fill(rs[1..], Past(bs, k));
      assert Past(rs[0].got + Clip(bs, k), |rs[0].got|) == Clip(bs, k);
      ClipTwice(bs, k, Room(rs[1..]));
      hide Past, Clip;
    }
  }

  /** A reader keeps what it has, and only trades wanted bytes for delivered ones. */
  lemma {:induction false} FillKeeps(rs: seq<Sink>, bs: seq<byte>, i: nat)
    requires i < |rs|
    ensures Continues(rs[i], Fill(rs, bs)[i])
  {
    if i > 0 {
      FillKeeps(rs[1..], Past(bs, rs[0].left), i - 1);
    }
  }

  /** The same reader later on: it has what it had and more, and wants that much less. */
  predicate Continues(r: Sink, r': Sink) {
    r'.thread == r.thread && r'.least == r.least && r.got <= r'.got && |r.got| + r.left == |r'.got| + r'.left
  }

  /** The descriptors of the readers after a put: those woken, then those still waiting. */
  function Readers(e: PutEffect): seq<Sink> {
    e.woken + e.view.readers
  }

  /** The waiting readers of `v`, in their order, came by exactly the bytes `bs`. */
  ghost predicate Served(v: View, e: PutEffect, bs: seq<byte>) {
    && |Readers(e)| == |v.readers|
    && (forall i :: 0 <= i < |v.readers| ==> Continues(v.readers[i], Readers(e)[i]))
    && Gains(v.readers, Readers(e)) == bs
  }

  lemma {:induction false} PutServes(v: View, e: PutEffect, data: seq<byte>)
    requires Inv(v)
    requires e.woken == Satisfied(Fill(v.readers, data)) && e.view.readers == Hungry(Fill(v.readers, data))
    ensures Served(v, e, Clip(data, Room(v.readers)))
  {
    hide Fill, Clip, Room, Satisfied, Hungry, Gains, Stream, Flat;
    SatisfiedFirst(v.readers, data);
    FillInOrder(v.readers, data);
    forall i | 0 <= i < |v.readers| ensures Continues(v.readers[i], Readers(e)[i]) {
      FillKeeps(v.readers, data, i);
    }
  }

  lemma {:induction false} FlatPlace(ws: seq<Source>, p: nat, w: Source)
    requires p <= |ws|
    ensures Flat(Place(ws, p, w)) == Flat(ws[..p]) + w.rest + Flat(ws[p..])
  {
    FlatConcat(ws[..p] + [w], ws[p..]);
    FlatConcat(ws[..p], [w]);
    assert Flat([w]) == w.rest + [];
  }

  /** When a put is turned away: bad arguments, or no waiting and too little room. */
  ghost predicate PutRefused(v: View, data: seq<byte>, least: nat, noWait: bool) {
    least > |data| || (noWait && Room(v.readers) + v.size < least + |v.ring|)
  }

  /** The promise of a put: its data splits, in order, into what waiting readers
      gain, what the ring takes, and what stays with the caller; the last part is
      refused or waits in the queue at the caller's place. */
  ghost predicate PutSplit(v: View, thread: Tid, data: seq<byte>, least: nat, noWait: bool, place: nat, e: PutEffect,
                           toReaders: seq<byte>, toRing: seq<byte>)
    requires place <= |v.writers|
  {
    var taken := toReaders + toRing;
    && taken <= data
    && Served(v, e, toReaders) && e.view.ring == v.ring + toRing
    && (toReaders != [] ==> Stream(v) == [])
    && (toRing != [] ==> Flat(v.writers) == [])
    && (e.out != Blocks ==>
          && e.out.count == |taken|
          && e.view.writers == v.writers
          && Stream(e.view) == Stream(v) + toRing)
    && (e.out == Blocks ==>
          var left := data[|taken|..];
          && left != [] && !noWait
          && e.view.readers == [] && |e.view.ring| == v.size
          && e.view.writers == Place(v.writers, place, Source(thread, taken, left, least))
          && Stream(e.view) == e.view.ring + Flat(v.writers[..place]) + left + Flat(v.writers[place..]))
  }

  /** The two ways a put that was not refused can end, given how its data splits. */
  lemma {:induction false} PutEnds(v: View, rs: seq<Sink>, thread: Tid, data: seq<byte>, least: nat, noWait: bool,
      place: nat, e: PutEffect, toReaders: seq<byte>, toRing: seq<byte>, left: seq<byte>)
    requires Inv(v) && place <= |v.writers|
    requires forall r :: r in rs ==> r.left > 0
    requires data == toReaders + toRing + left && Served(v, e, toReaders)
    requires toReaders != [] ==> v.readers != []
    requires toRing + left != [] || v.readers == [] ==> rs == []
    requires |toRing| <= v.size - |v.ring| && (left != [] ==> |toRing| == v.size - |v.ring|)
    requires e.view.size == v.size && e.view.ring == v.ring + toRing && e.view.readers == rs
    requires e.out.Returned? ==> e.out.count == |toReaders + toRing| && e.view.writers == v.writers
    requires e.out.Blocks? ==> left != [] && !noWait
    requires e.out.Blocks? ==>
        e.view.writers == Place(v.writers, place, Source(thread, toReaders + toRing, left, least))
    ensures Inv(e.view)
    ensures PutSplit(v, thread, data, least, noWait, place, e, toReaders, toRing)
  {
    hide Served;
    assert v.readers != [] ==> Stream(v) == [];
    hide Flat;
    assert data[|toReaders + toRing|..] == left;
    if toRing != [] {
      assert Flat(v.writers) == [];
    }
    if e.out.Blocks? {
      FlatPlace(v.writers, place, Source(thread, toReaders + toRing, left, least));
      assert Stream(e.view) == e.view.ring + Flat(v.writers[..place]) + left + Flat(v.writers[place..]);
    } else {
      assert Stream(e.view) == Stream(v) + toRing;
    }
  }

  lemma {:induction false} SplitData(data: seq<byte>, room: nat, free: nat)
    ensures var toReaders, rest := Clip(data, room), Past(data, room);
      var toRing, left := Clip(rest, free), Past(rest, free);
      && data == toReaders + toRing + left
      && data[..|data| - |left|] == toReaders + toRing
      && (toRing + left != [] ==> |data| > room)
      && (room == 0 ==> toReaders == [])
      && |toRing| <= free && (left != [] ==> |toRing| == free)
  {
    ClipPast(data, room);
    ClipPast(Past(data, room), free);
  }

  lemma {:induction false} GainsOf(v: View, e: PutEffect, bs: seq<byte>)
    requires Served(v, e, bs)
    ensures Gains(v.readers, Readers(e)) == bs
  {
  }

  /** A put's data goes in order to the waiting readers, whose descriptors show it, then to
      the ring, then stays with the caller. */
  lemma {:induction false} PutInOrder(v: View, thread: Tid, data: seq<byte>, least: nat, noWait: bool, place: nat)
    requires Inv(v) && place <= |v.writers| && !PutRefused(v, data, least, noWait)
    ensures var e := Put(v, thread, data, least, noWait, place);
      && Inv(e.view) && v.ring <= e.view.ring
      && PutSplit(v, thread, data, least, noWait, place, e, Gains(v.readers, Readers(e)), e.view.ring[|v.ring|..])
  {
    hide Flat, PutSplit, Served, Gains, Room, Fill, Satisfied, Clip, Past, Hungry, Place, Stream;
    var e := Put(v, thread, data, least, noWait, place);
    var free, rest := v.size - |v.ring|, Past(data, Room(v.readers));
    var toReaders, toRing, left := Clip(data, Room(v.readers)), Clip(rest, free), Past(rest, free);
    SplitData(data, Room(v.readers), free);
    StillWaiting(v.readers, data);
    PutServes(v, e, data);
    GainsOf(v, e, toReaders);
    PutEnds(v, Hungry(Fill(v.readers, data)), thread, data, least, noWait, place, e, toReaders, toRing, left);
    assert e.view.ring[|v.ring|..] == toRing;
  }

  // ---- what the code does is what the calls promise -----------------------------

  lemma {:induction false} SendOnly(thread: Tid, data: seq<byte>, least: nat, room: nat, free: nat)
    ensures var n, left := Min(|data|, room + free), Past(Past(data, room), free);
      && Drain([Source(thread, [], data, least)], room + free)[0] == Source(thread, data[..n], left, least)
      && |left| == |data| - n
  {
    PastTwice(data, room, free);
    var w, n := Source(thread, [], data, least), Min(|data|, room + free);
    assert Drain([w], room + free)[0] == Send(w, n);
    assert [] + data[..n] == data[..n];
  }

  /** The writer `w` served the first `seen` readers and then the ring. */
  function WalkPut(v: View, w: Source, seen: nat, noWait: bool, place: nat): PutEffect
    requires |v.ring| <= v.size && seen <= |v.readers| && place <= |v.writers|
  {
    var room, free := Room(v.readers[..seen]), v.size - |v.ring|;
    var filled, n := Fill(v.readers[..seen], w.rest), Min(|w.rest|, room + free);
    var v' := v.(ring := v.ring + Clip(Past(w.rest, room), free), readers := Hungry(filled) + v.readers[seen..]);
    if n == |w.rest| || noWait || (n >= w.least && w.least > 0) then PutEffect(v', Returned(0, n), Satisfied(filled))
    else PutEffect(v'.(writers := Place(v.writers, place, Drain([w], room + free)[0])), Blocks, Satisfied(filled))
  }

  /** Copying to the readers a walk visits, then to the ring, is the put. */
  lemma {:induction false} PutByWalk(v: View, thread: Tid, data: seq<byte>, least: nat, noWait: bool, place: nat)
    requires Inv(v) && place <= |v.writers| && !PutRefused(v, data, least, noWait)
    ensures Put(v, thread, data, least, noWait, place)
      == WalkPut(v, Source(thread, [], data, least), SinkWalk(v.readers, |data|), noWait, place)
  {
    hide Fill, Hungry, Satisfied, Room, Past, Clip, Drain, SinkWalk, Place, Send, Flat;
    var seen, free := SinkWalk(v.readers, |data|), v.size - |v.ring|;
    var room := Room(v.readers[..seen]);
    SinkWalkEnough(v.readers, data);
    SendOnly(thread, data, least, room, free);
  }

  /** What a put that is turned away returns. */
  lemma {:induction false} PutTurnsAway(v: View, thread: Tid, data: seq<byte>, least: nat, noWait: bool, place: nat)
    requires |v.ring| <= v.size && place <= |v.writers| && (least > |data| || PutRefused(v, data, least, noWait))
    ensures Put(v, thread, data, least, noWait, place) ==
        PutEffect(v, Returned(if least > |data| then -EINVAL else -EIO, 0), [])
  {
    hide Fill, Hungry, Satisfied, Room, Past, Clip, Place;
  }

  /** The room a walk sees decides a refusal like the room of all readers. */
  lemma {:induction false} RefusedByWalk(v: View, data: seq<byte>, least: nat, noWait: bool)
    requires least <= |data| && |v.ring| <= v.size
    ensures var seen := SinkWalk(v.readers, |data|);
      PutRefused(v, data, least, noWait) <==> noWait && Room(v.readers[..seen]) + (v.size - |v.ring|) < least
  {
    var seen := SinkWalk(v.readers, |data|);
    assert v.readers == v.readers[..seen] + v.readers[seen..];
    RoomConcat(v.readers[..seen], v.readers[seen..]);
  }

  lemma {:induction false} ShortByWalk(v: View, n: nat, least: nat)
    requires least <= n
    ensures |Stream(v)| < least <==> |v.ring| + |Flat(v.writers[..SourceWalk(v.writers, n)])| < least
  {
    var seen := SourceWalk(v.writers, n);
    assert v.writers == v.writers[..seen] + v.writers[seen..];
    FlatConcat(v.writers[..seen], v.writers[seen..]);
  }

  /** Reading the ring and the writers a walk visits is the take of the get. */
  lemma {:induction false} TakeByWalk(v: View, n: nat)
    ensures var seen := SourceWalk(v.writers, n);
      var end := ReadEnding(Reading([], n, v.writers[..seen], [], []), v.ring);
      && end.0 == Clip(Stream(v), n)
      && Take(v, n) == v.(ring := end.1, writers := end.2 + v.writers[seen..])
      && end.3 == Finished(Drain(v.writers[..seen], n - Min(n, |v.ring|)))
  {
    hide Flat, Drain, Finished, Unfinished, Clip, Past, ReadEnding, SourceWalk;
    var seen := SourceWalk(v.writers, n);
    ReadStart(n, v.ring, v.writers[..seen]);
    WalkEnough(v.writers, n, n - Min(n, |v.ring|));
    PastConcat(v.ring, Flat(v.writers), n);
    PastConcat(v.ring, Flat(v.writers[..seen]), n);
  }

  /** Filling the free part of the ring from the writers a walk visits is the refill. */
  lemma {:induction false} RefillByWalk(v: View)
    requires |v.ring| <= v.size
    ensures var free := v.size - |v.ring|;
      var seen := SourceWalk(v.writers, free);
      Refill(v) == v.(ring := v.ring + Clip(Past(Flat(v.writers[..seen]), 0), free),
                      writers := Drain(v.writers[..seen], free) + v.writers[seen..])
  {
    hide Flat, Drain, Clip, Past, SourceWalk;
    var free := v.size - |v.ring|;
    WalkEnough(v.writers, free, free);
    PastNone(Flat(v.writers[..SourceWalk(v.writers, free)]));
  }

  lemma {:induction false} PastNone<T>(s: seq<T>)
    ensures Past(s, 0) == s
  {
  }

  lemma {:induction false} RefillFull(v: View)
    requires |v.ring| == v.size
    ensures Refill(v) == v
  {
    DrainNone(v.writers);
    assert v.ring + Clip(Flat(v.writers), 0) == v.ring;
  }
}
