/** The pipe object of pipes.c: a ring buffer changed in place, and queues of
    blocked readers and writers served by direct copies. */
module Pipes {
  import opened Rings
  import opened PipeStreams
  import opened PipeSpec
  import opened PipeAnswers

  const SIZE_MAX := 0xFFFF_FFFF

  /** A contiguous stretch of the ring. */
  datatype Part = Part(at: nat, len: nat)

  function PartsLen(ps: seq<Part>): nat {
    if ps == [] then 0 else ps[0].len + PartsLen(ps[1..])
  }

  /** The stretches follow one another around a ring of `size` bytes from `at` on. */
  ghost predicate Chain(ps: seq<Part>, at: nat, size: nat) {
    ps != [] ==>
      && ps[0].at == at && at + ps[0].len <= size
      && Chain(ps[1..], Wrap(at + ps[0].len, size), size)
  }

  /** Moving on inside the first stretch, and past it once it is used up. */
  lemma {:induction false} ChainStep(ps: seq<Part>, at: nat, size: nat, n: nat)
    requires ps != [] && Chain(ps, at, size) && at < size && n <= ps[0].len
    ensures var p := Part(ps[0].at + n, ps[0].len - n);
      && (p.len == 0 ==> Chain(ps[1..], Wrap(at + n, size), size))
      && (p.len > 0 ==> Chain([p] + ps[1..], Wrap(at + n, size), size))
      && PartsLen([p] + ps[1..]) == PartsLen(ps) - n
  {
    var p := Part(ps[0].at + n, ps[0].len - n);
    assert ([p] + ps[1..])[1..] == ps[1..];
  }

  lemma {:induction false} FirstPart(ps: seq<Part>)
    requires ps != []
    ensures ps[0].len <= PartsLen(ps)
  {
  }

  lemma {:induction false} NoParts(ps: seq<Part>, at: nat, size: nat)
    ensures ps == [] ==> PartsLen(ps) == 0 && Chain(ps, at, size)
  {
  }

  lemma {:induction false} NoRoom()
    ensures Room([]) == 0
  {
  }

  class Pipe {
    const buffer: array<byte>
    var bytesUsed: nat
    var readIndex: nat
    var writeIndex: nat
    var readers: seq<Sink>
    var writers: seq<Source>

    ghost predicate Indices()
      reads this
    {
      && bytesUsed <= buffer.Length
      && readIndex <= buffer.Length && (buffer.Length > 0 ==> readIndex < buffer.Length)
      && writeIndex == Wrap(readIndex + bytesUsed, buffer.Length)
    }

    ghost function Contents(): (s: seq<byte>)
      reads this, buffer
      requires Indices()
      ensures |s| == bytesUsed
    {
      Slice(buffer[..], readIndex, bytesUsed)
    }

    ghost function Here(): View
      reads this, buffer
      requires Indices()
    {
      View(buffer.Length, Contents(), readers, writers)
    }

    ghost predicate Valid()
      reads this, buffer
    {
      Indices() && Inv(Here())
    }

    constructor (buffer: array<byte>)
      ensures this.buffer == buffer && Valid()
      ensures Here() == View(buffer.Length, [], [], [])
    {
      this.buffer := buffer;
      bytesUsed, readIndex, writeIndex := 0, 0, 0;
      readers, writers := [], [];
    }

    /** pipe_buffer_list_populate: the stretches from `start` up to `end`. */
    method BufferParts(start: nat, end: nat) returns (ps: seq<Part>)
      requires start < buffer.Length && end < buffer.Length
      ensures Chain(ps, start, buffer.Length)
      ensures PartsLen(ps) == if start < end then end - start else buffer.Length - start + end
    {
      if start < end {
        ps := [Part(start, end - start)];
      } else {
        ps := [Part(start, buffer.Length - start), Part(0, end)];
        assert ps[1..] == [Part(0, end)] && ps[1..][1..] == [];
        assert PartsLen(ps[1..]) == end;
      }
    }

    /** Copies bytes into the ring at the write index and moves the index on. */
    method Store(at: nat, bs: seq<byte>)
      requires Indices() && at == writeIndex < buffer.Length
      requires at + |bs| <= buffer.Length && bytesUsed + |bs| <= buffer.Length
      modifies this`bytesUsed, this`writeIndex, buffer
      ensures Indices() && Contents() == old(Contents()) + bs
      ensures writeIndex == Wrap(at + |bs|, buffer.Length)
    {
      ghost var was := buffer[..];
      forall i | 0 <= i < |bs| { buffer[at + i] := bs[i]; }
      bytesUsed := bytesUsed + |bs|;
      writeIndex := writeIndex + |bs|;
      if writeIndex >= buffer.Length {
        writeIndex := writeIndex - buffer.Length;
      }
      SlicePut(was, buffer[..], readIndex, old(bytesUsed), at, bs);
    }

    /** Reads bytes from the ring at the read index and moves the index on. */
    method Fetch(at: nat, n: nat) returns (bs: seq<byte>)
      requires Indices() && at == readIndex < buffer.Length
      requires at + n <= buffer.Length && n <= bytesUsed
      modifies this`bytesUsed, this`readIndex
      ensures Indices() && bs == old(Contents())[..n] && Contents() == old(Contents())[n..]
      ensures readIndex == Wrap(at + n, buffer.Length)
    {
      SliceTake(buffer[..], readIndex, bytesUsed, n);
      bs := buffer[at..at + n];
      bytesUsed := bytesUsed - n;
      readIndex := readIndex + n;
      if readIndex >= buffer.Length {
        readIndex := readIndex - buffer.Length;
      }
    }

    /** One copy into the current stretch of the ring; a full stretch is dropped. */
    method CopyToRing(w: Source, parts: seq<Part>) returns (n: nat, parts': seq<Part>)
      requires Indices() && parts != [] && buffer.Length > 0 && Chain(parts, writeIndex, buffer.Length)
      requires bytesUsed + PartsLen(parts) <= buffer.Length
      modifies this`bytesUsed, this`writeIndex, buffer
      ensures Indices() && Chain(parts', writeIndex, buffer.Length)
      ensures n == Min(parts[0].len, |w.rest|)
      ensures PartsLen(parts') == PartsLen(parts) - n
      ensures bytesUsed == old(bytesUsed) + n && Contents() == old(Contents()) + w.rest[..n]
      ensures |parts'| == if n == parts[0].len then |parts| - 1 else |parts|
    {
      n := Min(parts[0].len, |w.rest|);
      ChainStep(parts, writeIndex, buffer.Length, n);
      Store(parts[0].at, w.rest[..n]);
      var p := Part(parts[0].at + n, parts[0].len - n);
      parts' := if p.len == 0 then parts[1..] else [p] + parts[1..];
    }

    /** One round of pipe_write: a copy from the first source to the first reader or
        stretch, then on to the next descriptors. */
    method CopyOnce(l: Lists, parts: seq<Part>, ghost written: nat)
      returns (n: nat, l': Lists, parts': seq<Part>)
      requires Indices() && Chain(parts, writeIndex, buffer.Length)
      requires bytesUsed + PartsLen(parts) <= buffer.Length
      requires l.src != [] && (l.rs != [] || parts != []) && (parts != [] ==> buffer.Length > 0)
      modifies this`bytesUsed, this`writeIndex, buffer
      ensures Indices() && Chain(parts', writeIndex, buffer.Length)
      ensures bytesUsed + PartsLen(parts') <= buffer.Length
      ensures parts' != [] ==> parts != []
      ensures Ending(l', PartsLen(parts'), written + n, Contents()) ==
          old(Ending(l, PartsLen(parts), written, Contents()))
      ensures |l'.src| + |l'.rs| + |parts'| < |l.src| + |l.rs| + |parts|
    {
      hide Flat, Drain, Fill, Room, Past, Clip, Ending, Wrap, PartsLen, Settle, Chain;
      var w := l.src[0];
      if l.rs != [] {
        n := Min(l.rs[0].left, |w.rest|);
        ToReaderStep(l, n, PartsLen(parts), written, Contents());
        l', parts' := ToReader(l, n), parts;
      } else {
        FirstPart(parts);
        ghost var ring := Contents();
        n, parts' := CopyToRing(w, parts);
        ToRingStep(l, n, PartsLen(parts), written, ring);
        l' := FromSource(l, n);
      }
      SettleStep(l', PartsLen(parts'), written + n, Contents());
      l' := Settle(l');
    }

    /** pipe_write: copies from the sources, front first, to the readers and then to
        the stretches of the ring, until one side is used up. */
    method PipeWrite(src0: seq<Source>, rs0: seq<Sink>, parts0: seq<Part>)
      returns (written: nat, src': seq<Source>, rs': seq<Sink>)
      requires Indices() && Chain(parts0, writeIndex, buffer.Length)
      requires bytesUsed + PartsLen(parts0) <= buffer.Length
      requires parts0 != [] ==> buffer.Length > 0
      modifies this`bytesUsed, this`writeIndex, buffer
      ensures Indices()
      ensures written == Min(|Flat(src0)|, Room(rs0) + PartsLen(parts0))
      ensures src' == Drain(src0, Room(rs0) + PartsLen(parts0))
      ensures rs' == Fill(rs0, Flat(src0))
      ensures Contents() == old(Contents()) + Clip(Past(Flat(src0), Room(rs0)), PartsLen(parts0))
    {
      hide Flat, Drain, Fill, Room, Past, Clip, Ending, Wrap, PartsLen, Settle, Chain, Slice, Min;
      var l, parts, n := Lists(src0, [], rs0, []), parts0, 0;
      written := 0;
      TransferStart(src0, rs0, PartsLen(parts), Contents());
      ghost var ending := Ending(l, PartsLen(parts), written, Contents());
      while l.src != [] && (l.rs != [] || parts != [])
        invariant Indices() && Chain(parts, writeIndex, buffer.Length)
        invariant bytesUsed + PartsLen(parts) <= buffer.Length
        invariant parts != [] ==> buffer.Length > 0
        invariant Ending(l, PartsLen(parts), written, Contents()) == ending
        decreases |l.src| + |l.rs| + |parts|
      {
        n, l, parts := CopyOnce(l, parts, written);
        written := written + n;
      }
      NoParts(parts, writeIndex, buffer.Length);
      TransferOver(l, PartsLen(parts), written, Contents());
      src', rs' := l.srcDone + l.src, l.rsDone + l.rs;
    }

    /** pipe_waiter_list_populate over the readers: how many are visited, and their room. */
    method WalkReaders(n: nat) returns (seen: nat, room: nat)
      ensures seen == SinkWalk(readers, n) && room == Room(readers[..seen])
    {
      seen, room := 0, 0;
      while seen < |readers|
        invariant seen <= |readers| && room == Room(readers[..seen])
        invariant seen == 0 || room < n
        invariant room <= n && seen + SinkWalk(readers[seen..], n - room) == SinkWalk(readers, n)
      {
        assert readers[..seen + 1] == readers[..seen] + [readers[seen]];
        RoomConcat(readers[..seen], [readers[seen]]);
        assert readers[seen..][1..] == readers[seen + 1..];
        room, seen := room + readers[seen].left, seen + 1;
        if room >= n { return; }
      }
    }

    /** pipe_waiter_list_populate over the writers: how many are visited, and their bytes. */
    method WalkWriters(n: nat) returns (seen: nat, bytes: nat)
      ensures seen == SourceWalk(writers, n) && bytes == |Flat(writers[..seen])|
    {
      seen, bytes := 0, 0;
      while seen < |writers|
        invariant seen <= |writers| && bytes == |Flat(writers[..seen])|
        invariant seen == 0 || bytes < n
        invariant bytes <= n && seen + SourceWalk(writers[seen..], n - bytes) == SourceWalk(writers, n)
      {
        assert writers[..seen + 1] == writers[..seen] + [writers[seen]];
        FlatConcat(writers[..seen], [writers[seen]]);
        assert writers[seen..][1..] == writers[seen + 1..];
        bytes, seen := bytes + |writers[seen].rest|, seen + 1;
        if bytes >= n { return; }
      }
    }

    /** One round of the read loop: the next stretch of the ring, or the next writer. */
    method ReadOnce(r: Reading, parts: seq<Part>) returns (r': Reading, parts': seq<Part>)
      requires Indices() && (parts != [] ==> buffer.Length > 0) && (parts != [] || r.todo != [])
      requires r.left > 0 ==> Chain(parts, readIndex, buffer.Length) && PartsLen(parts) == bytesUsed
      modifies this`bytesUsed, this`readIndex
      ensures Indices() && (parts' != [] ==> parts != [])
      ensures r'.left > 0 ==> Chain(parts', readIndex, buffer.Length) && PartsLen(parts') == bytesUsed
      ensures ReadEnding(r', Contents()) == old(ReadEnding(r, Contents()))
      ensures |parts'| + |r'.todo| < |parts| + |r.todo|
      ensures |r'.got| + r'.left == |r.got| + r.left
    {
      hide ReadEnding, Slice;
      if parts != [] {
        var m := Min(r.left, parts[0].len);
        var bs: seq<byte> := [];
        if m > 0 {
          RingReadStep(r, Contents(), m);
          bs := Fetch(parts[0].at, m);
        } else {
          assert Contents()[..0] == [] && Contents()[0..] == Contents();
          RingReadStep(r, Contents(), 0);
        }
        r', parts' := FromRing(r, bs), parts[1..];
      } else {
        WriterReadStep(r, Contents());
        r', parts' := FromWriter(r), parts;
      }
    }

    /** The copy loop of pipe_get_internal over the first `seen` writers. */
    method ReadAll(n: nat, parts0: seq<Part>, seen: nat) returns (r: Reading)
      requires Indices() && seen <= |writers| && (parts0 != [] ==> buffer.Length > 0)
      requires Chain(parts0, readIndex, buffer.Length) && PartsLen(parts0) == bytesUsed
      modifies this`bytesUsed, this`readIndex
      ensures Indices()
      ensures (r.got, Contents(), r.kept, r.woken) ==
          old(ReadEnding(Reading([], n, writers[..seen], [], []), Contents()))
      ensures |r.got| + r.left == n
    {
      hide Flat, Drain, Clip, Past, Finished, Unfinished, ReadEnding, Slice, Wrap, Chain, PartsLen, Min;
      var parts := parts0;
      r := Reading([], n, writers[..seen], [], []);
      ghost var ending := ReadEnding(r, Contents());
      while parts != [] || r.todo != []
        invariant Indices() && (parts != [] ==> buffer.Length > 0)
        invariant r.left > 0 ==> Chain(parts, readIndex, buffer.Length) && PartsLen(parts) == bytesUsed
        invariant ReadEnding(r, Contents()) == ending
        invariant |r.got| + r.left == n
        decreases |parts| + |r.todo|
      {
        r, parts := ReadOnce(r, parts);
      }
      NoParts(parts, writeIndex, buffer.Length);
      ReadOver(r, Contents());
    }

    /** z_impl_k_pipe_put. */
    method Put(thread: Tid, data: seq<byte>, least: nat, noWait: bool, place: nat)
      returns (out: Outcome, woken: seq<Sink>)
      requires Valid() && place <= |writers|
      modifies this, buffer
      ensures Valid()
      ensures PutEffect(Here(), out, woken) == PipeSpec.Put(old(Here()), thread, data, least, noWait, place)
      ensures PutAnswered(old(Here()), data, least, noWait, PutEffect(Here(), out, woken))
    {
      hide Fill, Hungry, Satisfied, Room, Past, Clip, Drain, SinkWalk, Flat, Inv, Chain, Slice, PutSplit, Place,
          PipeSpec.Put, WalkPut, PutRefused, PutAnswered;
      ghost var v := Here();
      PutAnswers(v, thread, data, least, noWait, place);
      if least > |data| {
        PutTurnsAway(v, thread, data, least, noWait, place);
        return Returned(-EINVAL, 0), [];
      }
      var seen, room := WalkReaders(|data|);
      var parts: seq<Part> := [];
      if bytesUsed != buffer.Length {
        parts := BufferParts(writeIndex, readIndex);
      }
      NoParts(parts, writeIndex, buffer.Length);
      RefusedByWalk(v, data, least, noWait);
      if room + PartsLen(parts) < least && noWait {
        PutTurnsAway(v, thread, data, least, noWait, place);
        return Returned(-EIO, 0), [];
      }
      PutByWalk(v, thread, data, least, noWait, place);
      PutInOrder(v, thread, data, least, noWait, place);
      var w := Source(thread, [], data, least);
      FlatOne(w);
      out, woken := Deliver(w, parts, seen, noWait, place);
    }

    /** The copying half of a put, once it is known not to be refused. */
    method Deliver(w: Source, parts: seq<Part>, seen: nat, noWait: bool, place: nat)
      returns (out: Outcome, woken: seq<Sink>)
      requires Indices() && seen <= |readers| && place <= |writers| && w.sent == []
      requires Chain(parts, writeIndex, buffer.Length) && PartsLen(parts) == buffer.Length - bytesUsed
      requires (parts != [] ==> buffer.Length > 0) && Flat([w]) == w.rest
      modifies this`bytesUsed, this`writeIndex, this`readers, this`writers, buffer
      ensures Indices()
      ensures PutEffect(Here(), out, woken) == WalkPut(old(Here()), w, seen, noWait, place)
    {
      hide Fill, Hungry, Satisfied, Room, Past, Clip, Drain, SinkWalk, Flat, Chain, Wrap, Slice, PartsLen;
      NoParts(parts, writeIndex, buffer.Length);
      var n, src, rs := PipeWrite([w], readers[..seen], parts);
      woken := Satisfied(rs);
      readers := Hungry(rs) + readers[seen..];
      if n == |w.rest| || noWait || (n >= w.least && w.least > 0) {
        out := Returned(0, n);
      } else {
        writers := Place(writers, place, src[0]);
        out := Blocks;
      }
    }

    /** The last part of pipe_get_internal: blocked writers refill the ring. */
    method RefillRing()
      requires Indices()
      modifies this`bytesUsed, this`writeIndex, this`writers, buffer
      ensures Indices() && Here() == Refill(old(Here()))
    {
      hide Flat, Drain, Clip, Past, SourceWalk, Chain, Slice, Refill;
      ghost var v := Here();
      if bytesUsed != buffer.Length {
        var free := buffer.Length - bytesUsed;
        var seen, _ := WalkWriters(free);
        var parts := BufferParts(writeIndex, readIndex);
        RefillByWalk(v);
        NoRoom();
        var _, src, _ := PipeWrite(writers[..seen], [], parts);
        writers := src + writers[seen..];
      } else {
        RefillFull(v);
      }
    }

    /** pipe_get_internal. */
    method GetInternal(thread: Tid, n: nat, least: nat, noWait: bool, place: nat)
      returns (out: Outcome, got: seq<byte>, woken: seq<Source>)
      requires Valid() && place <= |readers| && least <= n
      modifies this, buffer
      ensures Valid()
      ensures GetEffect(Here(), out, got, woken) == PipeSpec.Get(old(Here()), thread, n, least, noWait, place)
    {
      hide Flat, Drain, Finished, Unfinished, SourceWalk, Place, Past, Clip, Take, Refill, GetPromise, Chain, Slice,
          ReadEnding;
      ghost var v := Here();
      var parts: seq<Part> := [];
      if bytesUsed != 0 {
        parts := BufferParts(readIndex, writeIndex);
      }
      NoParts(parts, readIndex, buffer.Length);
      var seen, avail := WalkWriters(n);
      ShortByWalk(v, n, least);
      if PartsLen(parts) + avail < least && noWait {
        return Returned(-EIO, 0), [], [];
      }
      GetIsFifo(v, thread, n, least, noWait, place);
      TakeByWalk(v, n);
      out, got, woken := Receive(thread, n, least, noWait, place, parts, seen);
    }

    /** The copying half of a get, once it is known not to be refused. */
    method Receive(thread: Tid, n: nat, least: nat, noWait: bool, place: nat, parts: seq<Part>, seen: nat)
      returns (out: Outcome, got: seq<byte>, woken: seq<Source>)
      requires Indices() && place <= |readers| && seen == SourceWalk(writers, n) && (parts != [] ==> buffer.Length > 0)
      requires Chain(parts, readIndex, buffer.Length) && PartsLen(parts) == bytesUsed
      modifies this, buffer
      ensures Indices()
      ensures var v, end := old(Here()), old(ReadEnding(Reading([], n, writers[..seen], [], []), Contents()));
        && |end.0| <= n && |end.1| <= v.size
        && var v' := Refill(v.(ring := end.1, writers := end.2 + v.writers[seen..]));
           GetEffect(Here(), out, got, woken) ==
             if |end.0| == n || noWait || (|end.0| >= least && least > 0)
             then GetEffect(v', Returned(0, |end.0|), end.0, end.3)
             else GetEffect(v'.(readers := Place(v.readers, place, Sink(thread, end.0, n - |end.0|, least))), Blocks,
                 end.0, end.3)
    {
      hide Flat, Drain, SourceWalk, Place, Refill, Chain, Slice, ReadEnding;
      var r := ReadAll(n, parts, seen);
      got, woken := r.got, r.woken;
      writers := r.kept + writers[seen..];
      RefillRing();
      if |got| == n || noWait || (|got| >= least && least > 0) {
        out := Returned(0, |got|);
      } else {
        readers := Place(readers, place, Sink(thread, got, r.left, least));
        out := Blocks;
      }
    }

    /** z_impl_k_pipe_get. */
    method Get(thread: Tid, n: nat, least: nat, noWait: bool, place: nat)
      returns (out: Outcome, got: seq<byte>, woken: seq<Source>)
      requires Valid() && place <= |readers|
      modifies this, buffer
      ensures Valid()
      ensures GetEffect(Here(), out, got, woken) == CheckedGet(old(Here()), thread, n, least, noWait, place)
      ensures GetAnswered(old(Here()), n, least, noWait, GetEffect(Here(), out, got, woken))
    {
      hide PipeSpec.Get, Inv, GetAnswered;
      GetAnswers(Here(), thread, n, least, noWait, place);
      if least > n {
        return Returned(-EINVAL, 0), [], [];
      }
      out, got, woken := GetInternal(thread, n, least, noWait, place);
    }

    /** z_impl_k_pipe_flush: a get of SIZE_MAX bytes that throws them away. */
    method Flush()
      requires Valid()
      modifies this, buffer
      ensures Valid() && readers == old(readers)
      ensures Stream(Here()) == Past(old(Stream(Here())), SIZE_MAX)
      ensures old(|Stream(Here())|) < SIZE_MAX ==> writers == [] && Contents() == []
    {
      hide PipeSpec.Get, Stream, Inv, Clip, Past;
      ghost var v := Here();
      GetIsFifo(v, 0, SIZE_MAX, 0, true, 0);
      GetEmpties(v, SIZE_MAX);
      var _, _, _ := GetInternal(0, SIZE_MAX, 0, true, 0);
    }

    /** z_impl_k_pipe_buffer_flush: as many bytes as the ring can hold are thrown away;
        blocked writers may refill it. */
    method BufferFlush()
      requires Valid()
      modifies this, buffer
      ensures Valid() && readers == old(readers)
      ensures buffer.Length > 0 ==> Stream(Here()) == Past(old(Stream(Here())), buffer.Length)
      ensures buffer.Length == 0 ==> Here() == old(Here())
    {
      hide PipeSpec.Get, Stream, Inv, Clip, Past;
      if buffer.Length > 0 {
        ghost var v := Here();
        GetIsFifo(v, 0, buffer.Length, 0, true, 0);
        var _, _, _ := GetInternal(0, buffer.Length, 0, true, 0);
      }
    }

    /** z_impl_k_pipe_read_avail. */
    method ReadAvail() returns (n: nat)
      requires Valid()
      ensures n == |Here().ring|
    {
      if buffer.Length == 0 { return 0; }
      if readIndex == writeIndex {
        n := bytesUsed;
      } else if readIndex < writeIndex {
        n := writeIndex - readIndex;
      } else {
        n := buffer.Length - (readIndex - writeIndex);
      }
    }

    /** z_impl_k_pipe_write_avail. */
    method WriteAvail() returns (n: nat)
      requires Valid()
      ensures n == Here().size - |Here().ring|
    {
      if buffer.Length == 0 { return 0; }
      if writeIndex == readIndex {
        n := buffer.Length - bytesUsed;
      } else if writeIndex < readIndex {
        n := readIndex - writeIndex;
      } else {
        n := buffer.Length - (writeIndex - readIndex);
      }
    }
  }
}
