/** msg_q.c as it runs: messages copied in and out of a byte buffer through a read and a
    write pointer that wrap around. */
module MsgQueues {
  import opened Rings
  import opened MsgQSpec

  /** The `k`-th slot of a buffer of messages of `size` bytes. */
  function Cell(buf: seq<byte>, size: nat, k: nat): Msg {
    if 0 <= k * size <= k * size + size <= |buf| then buf[k * size..k * size + size] else []
  }

  function Cells(buf: seq<byte>, size: nat, n: nat): (r: seq<Msg>)
    ensures |r| == n
  {
    seq(n, k requires 0 <= k < n => Cell(buf, size, k))
  }

  lemma {:induction false} CellAt(buf: seq<byte>, size: nat, n: nat, k: nat)
    requires |buf| == n * size && k < n
    ensures 0 <= k * size <= k * size + size <= |buf| && Cells(buf, size, n)[k] == buf[k * size..k * size + size]
  {
    CellFits(k, size, n);
  }

  /** `buf'` is `buf` with `m` copied to address `at`. */
  ghost predicate Copied(buf: seq<byte>, buf': seq<byte>, at: nat, m: Msg) {
    && at + |m| <= |buf| == |buf'|
    && (forall i :: at <= i < at + |m| ==> buf'[i] == m[i - at])
    && (forall i :: 0 <= i < |buf| && !(at <= i < at + |m|) ==> buf'[i] == buf[i])
  }

  lemma {:induction false} CopiedAt(buf: seq<byte>, buf': seq<byte>, at: nat, m: Msg, a: nat)
    requires Copied(buf, buf', at, m) && a + |m| <= |buf|
    ensures a == at ==> buf'[a..a + |m|] == m
    ensures a + |m| <= at || at + |m| <= a ==> buf'[a..a + |m|] == buf[a..a + |m|]
  {
  }

  /** Copying a message into slot `k` changes that slot only. */
  lemma {:induction false} WriteCell(buf: seq<byte>, buf': seq<byte>, size: nat, n: nat, k: nat, m: Msg)
    requires |buf| == n * size && k < n && |m| == size && 0 <= k * size && Copied(buf, buf', k * size, m)
    ensures Cells(buf', size, n) == Cells(buf, size, n)[k := m]
  {
    var cells, cells', at := Cells(buf, size, n), Cells(buf', size, n), k * size;
    assert |buf'| == |buf|;
    hide Cells, Copied;
    forall j | 0 <= j < n ensures cells'[j] == cells[k := m][j] {
      CellAt(buf, size, n, j);
      CellAt(buf', size, n, j);
      CopiedAt(buf, buf', at, m, j * size);
      if j != k {
        CellsApart(j, k, size);
      }
    }
  }

  /** Moving a pointer one slot on and wrapping it is moving the slot number. */
  lemma {:induction false} NextSlot(k: nat, size: nat, n: nat)
    requires k < n
    ensures var p := k * size + size; (if p == n * size then 0 else p) == Wrap(k + 1, n) * size
  {
    assert k * size + size == (k + 1) * size;
    if k + 1 < n {
      CellFits(k + 1, size, n);
      if size == 0 {
        assert (k + 1) * size == 0 && n * size == 0;
      }
    } else {
      assert 0 * size == 0;
    }
  }

  /** Moving the first slot on takes the first message off. */
  lemma {:induction false} TakeSlot(cells: seq<Msg>, first: nat, used: nat)
    requires first < |cells| && 0 < used <= |cells|
    ensures var next := Wrap(first + 1, |cells|);
      && next < |cells| && Wrap(next + (used - 1), |cells|) == Wrap(first + used, |cells|)
      && Slice(cells, first, used) == [cells[first]] + Slice(cells, next, used - 1)
  {
    SliceTake(cells, first, used, 1);
    var all := Slice(cells, first, used);
    assert all == all[..1] + all[1..] && cells[first..first + 1] == [cells[first]];
  }

  /** Where slot `k` starts. */
  function Address(k: nat, size: nat): int {
    k * size
  }

  class MsgQueue {
    const msgSize: nat
    const maxMsgs: nat
    const buffer: array<byte>
    var readPtr: nat
    var writePtr: nat
    var usedMsgs: nat
    var waitq: seq<Waiter>
    /** The slot the read pointer is at. */
    ghost var first: nat

    /** The pointers, the counter and the buffer agree. */
    ghost predicate Shaped()
      reads this, buffer
    {
      && buffer.Length == Address(maxMsgs, msgSize) && usedMsgs <= maxMsgs
      && (first < maxMsgs || first == maxMsgs == 0)
      && readPtr == Address(first, msgSize) && writePtr == Address(Wrap(first + usedMsgs, maxMsgs), msgSize)
      && forall i :: 0 <= i < |waitq| && waitq[i].Writer? ==> |waitq[i].data| == msgSize
    }

    /** The queue this object stands for. */
    ghost function Here(): MsgQ
      requires Shaped()
      reads this, buffer
    {
      MsgQ(maxMsgs, Slice(Cells(buffer[..], msgSize, maxMsgs), first, usedMsgs), waitq)
    }

    ghost predicate Valid()
      reads this, buffer
    {
      Shaped() && (maxMsgs > 0 ==> Inv(Here()))
    }

    constructor (msgSize: nat, maxMsgs: nat)
      ensures Valid() && this.msgSize == msgSize && fresh(buffer)
      ensures Here() == MsgQ(maxMsgs, [], [])
    {
      this.msgSize := msgSize;
      this.maxMsgs := maxMsgs;
      assert maxMsgs * msgSize >= 0;
      buffer := new byte[maxMsgs * msgSize](_ => 0);
      readPtr := 0;
      writePtr := 0;
      usedMsgs := 0;
      waitq := [];
      first := 0;
    }

    /** memcpy to the write pointer, and the pointer moves on. */
    method Store(m: Msg)
      requires Shaped() && usedMsgs < maxMsgs && |m| == msgSize
      modifies this`writePtr, this`usedMsgs, buffer
      ensures Shaped() && Here() == old(Here()).(stored := old(Here()).stored + [m])
    {
      ghost var k, cells := Wrap(first + usedMsgs, maxMsgs), Cells(buffer[..], msgSize, maxMsgs);
      ghost var was := buffer[..];
      CellFits(k, msgSize, maxMsgs);
      NextSlot(k, msgSize, maxMsgs);
      forall i | 0 <= i < msgSize {
        buffer[writePtr + i] := m[i];
      }
      WriteCell(was, buffer[..], msgSize, maxMsgs, k, m);
      SlicePut(cells, Cells(buffer[..], msgSize, maxMsgs), first, usedMsgs, k, [m]);
      writePtr := writePtr + msgSize;
      if writePtr == buffer.Length {
        writePtr := 0;
      }
      usedMsgs := usedMsgs + 1;
    }

    /** memcpy from the read pointer, and the pointer moves on. */
    method Take() returns (m: Msg)
      requires Shaped() && usedMsgs > 0
      modifies this`readPtr, this`usedMsgs, this`first
      ensures Shaped() && old(Here()).stored == [m] + Here().stored && |m| == msgSize
      ensures Here() == old(Here()).(stored := Here().stored)
    {
      hide Cells, Slice, Wrap;
      ghost var cells := Cells(buffer[..], msgSize, maxMsgs);
      CellAt(buffer[..], msgSize, maxMsgs, first);
      NextSlot(first, msgSize, maxMsgs);
      TakeSlot(cells, first, usedMsgs);
      m := buffer[readPtr..readPtr + msgSize];
      readPtr := readPtr + msgSize;
      if readPtr == buffer.Length {
        readPtr := 0;
      }
      first := Wrap(first + 1, maxMsgs);
      usedMsgs := usedMsgs - 1;
    }

    /** z_impl_k_msgq_put. */
    method Put(t: Tid, m: Msg, noWait: bool, place: nat) returns (r: PutResult)
      requires Valid() && |m| == msgSize && place <= |waitq|
      modifies this, buffer
      ensures Valid() && PutEffect(Here(), r) == MsgQSpec.Put(old(Here()), t, m, noWait, place)
      ensures PutAnswered(old(Here()), t, m, noWait, place, PutEffect(Here(), r))
      ensures r.HandedTo? ==> r.w.Reader? && old(usedMsgs) == 0
    {
      hide Cells, Slice, Wrap, Address, PutAnswered;
      PutAnswers(Here(), t, m, noWait, place);
      if maxMsgs > 0 {
        PutKeeps(Here(), t, m, noWait, place);
      }
      if usedMsgs < maxMsgs {
        if waitq != [] {
          r := HandedTo(waitq[0], m);
          waitq := waitq[1..];
        } else {
          Store(m);
          r := Stored;
        }
      } else if noWait {
        r := NoRoom;
      } else {
        waitq := Place(waitq, place, Writer(t, m));
        r := PutWaits;
      }
    }

    /** z_impl_k_msgq_get. */
    method Get(t: Tid, noWait: bool, place: nat) returns (r: GetResult)
      requires Valid() && place <= |waitq|
      modifies this, buffer
      ensures Valid() && GetEffect(Here(), r) == MsgQSpec.Get(old(Here()), t, noWait, place)
      ensures GetAnswered(old(Here()), t, noWait, place, GetEffect(Here(), r))
    {
      hide Cells, Slice, Wrap, Address, GetAnswered;
      GetAnswers(Here(), t, noWait, place);
      if maxMsgs > 0 {
        GetKeeps(Here(), t, noWait, place);
      }
      if usedMsgs > 0 {
        var m := Take();
        if waitq != [] {
          var w := waitq[0];
          waitq := waitq[1..];
          Store(Offer(w));
        }
        r := Received(m);
      } else if noWait {
        r := NoMessage;
      } else {
        waitq := Place(waitq, place, Reader(t));
        r := GetWaits;
      }
    }

    /** z_impl_k_msgq_peek_at: -ENOMSG, or the message with index `idx`, found in the part
        up to the buffer's end or in the part behind the wrap-around. */
    method PeekAt(idx: nat) returns (found: bool, m: Msg)
      requires Valid()
      ensures found <==> idx < |Here().stored|
      ensures found ==> m == Here().stored[idx]
    {
      hide Cells;
      found, m := usedMsgs > idx, [];
      if found {
        var at := Locate(idx);
        ghost var cells, k := Cells(buffer[..], msgSize, maxMsgs), Wrap(first + idx, maxMsgs);
        CellAt(buffer[..], msgSize, maxMsgs, k);
        m := buffer[at..at + msgSize];
        SliceAt(cells, first, usedMsgs, idx);
      }
    }

    /** Where the message with index `idx` starts. */
    method Locate(idx: nat) returns (at: nat)
      requires Shaped() && idx < usedMsgs
      ensures at == Wrap(first + idx, maxMsgs) * msgSize
    {
      PeekOffset(first, idx, msgSize, maxMsgs);
      var bytesToEnd := buffer.Length - readPtr;
      var byteOffset, start := idx * msgSize, readPtr;
      if bytesToEnd <= byteOffset {
        byteOffset := byteOffset - bytesToEnd;
        start := 0;
      }
      at := start + byteOffset;
    }

    /** z_impl_k_msgq_peek. */
    method Peek() returns (found: bool, m: Msg)
      requires Valid()
      ensures found <==> Here().stored != []
      ensures found ==> m == Here().stored[0]
    {
      found, m := usedMsgs > 0, [];
      if found {
        CellAt(buffer[..], msgSize, maxMsgs, first);
        m := buffer[readPtr..readPtr + msgSize];
        assert m == Cells(buffer[..], msgSize, maxMsgs)[first];
      }
    }

    /** The wake-up loop of z_impl_k_msgq_purge: every waiter gets -ENOMSG, in order. */
    method WakeAll() returns (woken: seq<Waiter>)
      modifies this`waitq
      ensures waitq == [] && woken == old(waitq)
    {
      woken := [];
      while waitq != []
        invariant woken + waitq == old(waitq)
        decreases |waitq|
      {
        woken := woken + [waitq[0]];
        waitq := waitq[1..];
      }
    }

    /** z_impl_k_msgq_purge. */
    method Purge() returns (woken: seq<Waiter>)
      requires Valid()
      modifies this
      ensures Valid() && Here() == MsgQSpec.Purge(old(Here())) && woken == old(waitq)
    {
      hide Cells, Address;
      woken := WakeAll();
      first := Wrap(first + usedMsgs, maxMsgs);
      usedMsgs := 0;
      readPtr := writePtr;
    }
  }

  lemma {:induction false} PeekOffset(first: nat, idx: nat, size: nat, n: nat)
    requires first < n && idx < n
    ensures n * size - first * size <= idx * size <==> size == 0 || first + idx >= n
    ensures first + idx < n ==> first * size + idx * size == Wrap(first + idx, n) * size
    ensures first + idx >= n ==> idx * size - (n * size - first * size) == Wrap(first + idx, n) * size
    ensures idx * size >= 0
  {
    var both := first + idx;
    Distribute(first, idx, size);
    if both >= n {
      Distribute(n, both - n, size);
    } else {
      Distribute(both, n - both, size);
      CellFits(0, size, n - both);
    }
  }

  lemma {:induction false} Distribute(a: nat, b: nat, size: nat)
    ensures (a + b) * size == a * size + b * size && a * size >= 0 && b * size >= 0
  {
  }
}
