/** The blocked terminal transport as it runs (t32term_memory.c): a writer and a reader that
    keep counters between calls, and the packet layer on top (t32term.c). A long is four
    bytes; the host takes a signalled chunk before the writer goes on. */
module T32Terminals {
  import opened Rings
  import opened T32Packets

  lemma {:induction false} CutStep(bs: seq<byte>, cap: nat, k: nat)
    requires cap > 0 && bs != [] && k == Min(cap, |bs|)
    ensures Cut(bs, cap) == [bs[..k]] + Cut(bs[k..], cap)
  {
    if |bs| <= cap {
      assert bs[..k] == bs && bs[k..] == [];
    }
  }

  class Writer {
    const size: nat
    const pout: array<byte>
    var packageSize: int
    var writeIndex: nat
    /** The buffer as the host found it, chunk by chunk. */
    var frames: seq<seq<byte>>
    ghost var chunks: seq<seq<byte>>

    ghost predicate Valid()
      reads this, pout
    {
      && size > 4 && pout.Length == size && Images(frames, chunks)
      && ((packageSize <= 0 && writeIndex == 0) || (writeIndex < size - 4 && writeIndex < packageSize))
    }

    /** The start of a chunk that waits in the buffer. */
    ghost function Part(): seq<byte>
      requires Valid()
      reads this, pout
    {
      pout[4..4 + writeIndex]
    }

    constructor (size: nat)
      requires size > 4
      ensures Valid() && fresh(pout) && this.size == size && packageSize == 0 && writeIndex == 0 && chunks == []
    {
      this.size := size;
      pout := new byte[size](_ => 0);
      packageSize, writeIndex, frames, chunks := 0, 0, [], [];
    }

    /** T32_Term_PutBlock without data: the size of the package to come. */
    method Preload(blockSize: nat)
      requires Valid()
      modifies this`packageSize, this`writeIndex
      ensures Valid() && packageSize == blockSize && Part() == []
    {
      packageSize := blockSize;
      writeIndex := 0;
    }

    /** The control word for the chunk in the buffer; the host takes it. */
    method Finish(ghost chunk: seq<byte>)
      requires size > 4 && pout.Length == size && Images(frames, chunks)
      requires 0 < writeIndex <= size - 4 && pout[4..4 + writeIndex] == chunk
      modifies this`frames, this`chunks, this`packageSize, this`writeIndex, pout
      ensures Images(frames, chunks) && chunks == old(chunks) + [chunk]
      ensures packageSize == old(packageSize) - old(writeIndex) && writeIndex == 0
    {
      var ctrl := writeIndex;
      if ctrl > 0xFC {
        pout[3] := ctrl / 65536 % 256;
        pout[2] := ctrl / 256 % 256;
        pout[1] := ctrl % 256;
        ctrl := 0xFF;
      }
      pout[0] := ctrl;
      ghost var frame := pout[..];
      assert frame[4..4 + writeIndex] == chunk;
      assert Image(frame, chunk) by {
        assert writeIndex > 252 ==> frame[1..4] == Low3(writeIndex);
      }
      frames := frames + [pout[..]];
      chunks := chunks + [chunk];
      pout[0] := 0;
      packageSize := packageSize - writeIndex;
      writeIndex := 0;
    }

    /** The copy loop of T32_Term_PutBlock. */
    method CopyIn(data: seq<byte>, len: nat)
      requires pout.Length == size && len <= |data| && 4 + writeIndex + len <= size
      modifies this`writeIndex, pout
      ensures writeIndex == old(writeIndex) + len
      ensures pout[4..4 + writeIndex] == old(pout[4..4 + writeIndex]) + data[..len]
    {
      forall j | 0 <= j < len {
        pout[4 + writeIndex + j] := data[j];
      }
      writeIndex := writeIndex + len;
    }

    /** The package ends with `data` and `after`, as announced; or none was announced. */
    ghost predicate Planned(data: seq<byte>, after: seq<byte>)
      reads this
    {
      packageSize == writeIndex + |data| + |after| || (packageSize == 0 && writeIndex == 0 && after == [])
    }

    /** One round of T32_Term_PutBlock's loop. */
    method PutSome(data: seq<byte>, ghost after: seq<byte>, ghost planned: bool)
        returns (len: nat, ghost new_: seq<seq<byte>>)
      requires Valid() && data != [] && (planned ==> Planned(data, after))
      modifies this`frames, this`chunks, this`packageSize, this`writeIndex, pout
      ensures Valid() && 0 < len <= |data| && chunks == old(chunks) + new_
      ensures Joined(new_) + Part() == old(Part()) + data[..len]
      ensures planned ==> packageSize == writeIndex + |data| - len + |after|
      ensures planned ==>
        Cut(old(Part()) + (data + after), size - 4) == new_ + Cut(Part() + (data[len..] + after), size - 4)
    {
      hide Images, Cut, Joined;
      ghost var was := Part();
      len := TakeIn(data);
      ghost var chunk := pout[4..4 + writeIndex];
      RoundJoins(chunk);
      new_ := [];
      if writeIndex >= packageSize || writeIndex >= size - 4 {
        if planned {
          RoundCuts(was, data, after, len, size - 4);
        }
        Finish(chunk);
        new_ := [chunk];
        assert Part() == [];
      } else {
        RoundWaits(was, data, after, len, size - 4);
      }
    }

    /** As much of the block as the buffer takes; a block that no package was announced for
        is one. */
    method TakeIn(data: seq<byte>) returns (len: nat)
      requires Valid() && data != []
      modifies this`packageSize, this`writeIndex, pout
      ensures 0 < len <= |data| && writeIndex == old(writeIndex) + len <= size - 4 &&
          (len == |data| || writeIndex == size - 4)
      ensures packageSize == if old(packageSize) == 0 then |data| else old(packageSize)
      ensures pout[4..4 + writeIndex] == old(Part()) + data[..len]
    {
      hide Images;
      if packageSize == 0 {
        packageSize := |data|;
      }
      len := |data|;
      if len + writeIndex > size - 4 {
        len := size - 4 - writeIndex;
      }
      CopyIn(data, len);
    }

    /** T32_Term_PutBlock with data. No byte is lost, whatever was announced. A block that
        keeps to the package, of which `after` is still to come, leaves in full chunks, the
        last as soon as the package is complete. */
    method PutBlock(data: seq<byte>, ghost after: seq<byte>) returns (ghost new_: seq<seq<byte>>)
      requires Valid()
      modifies this`frames, this`chunks, this`packageSize, this`writeIndex, pout
      ensures Valid() && chunks == old(chunks) + new_ && Joined(new_) + Part() == old(Part()) + data
      ensures old(Planned(data, after)) ==> packageSize == writeIndex + |after|
      ensures old(Planned(data, after)) ==>
          Cut(old(Part()) + (data + after), size - 4) == new_ + Cut(Part() + after, size - 4)
    {
      hide Cut, Images, Joined;
      ghost var planned, target, part := Planned(data, after), Cut(Part() + (data + after), size - 4), Part();
      new_ := [];
      var k := 0;
      assert data[0..] == data && data[..0] == [];
      JoinedFew([]);
      assert [] + target == target && part + [] == part && [] + part == part;
      while k < |data|
        invariant Valid() && k <= |data| && chunks == old(chunks) + new_
        invariant Joined(new_) + Part() == part + data[..k]
        invariant planned ==> Planned(data[k..], after)
        invariant planned ==> target == new_ + Cut(Part() + (data[k..] + after), size - 4)
      {
        ghost var more, here := [], Part();
        var len;
        len, more := PutSome(data[k..], after, planned);
        Further(data, k, len, new_, more, part, here, Part());
        Regroup3(new_, more, Cut(Part() + (data[k + len..] + after), size - 4));
        Regroup3(old(chunks), new_, more);
        new_ := new_ + more;
        k := k + len;
      }
      assert data[k..] == [] && [] + after == after && data[..k] == data;
    }

    /** T32_Term_PutPacketEx. Both counters are 0 afterwards, and what the host got is
        the packet, cut into chunks. */
    method PutPacketEx(data: seq<byte>, payload: seq<byte>, hasPayload: bool)
      requires Valid() && packageSize == 0 && writeIndex == 0 && (hasPayload || payload == [])
      modifies this`frames, this`chunks, this`packageSize, this`writeIndex, pout
      ensures Valid() && packageSize == 0 && writeIndex == 0
      ensures chunks == old(chunks) + Cut(Packet(data, payload), size - 4)
    {
      hide Cut, Images, Sum, LenField;
      var total := |data| + |payload|;
      var header, sum := Header(total);
      sum := Checksum(LenField(total), sum, data, payload);
      var checksum := [sum, 3];
      ghost var rest3 := payload + checksum;
      ghost var rest2 := data + rest3;
      Preload(total + |header| + 2);
      PutParts(header, data, payload, checksum, hasPayload);
      assert header + rest2 == Packet(data, payload);
    }

    /** The blocks of a packet. */
    method PutParts(header: seq<byte>, data: seq<byte>, payload: seq<byte>, checksum: seq<byte>, hasPayload: bool)
      requires Valid() && writeIndex == 0 && (hasPayload || payload == [])
      requires header != [] && packageSize == |header| + |data| + |payload| + |checksum|
      modifies this`frames, this`chunks, this`packageSize, this`writeIndex, pout
      ensures Valid() && packageSize == 0 && writeIndex == 0
      ensures chunks == old(chunks) + Cut(header + (data + (payload + checksum)), size - 4)
    {
      hide Cut, Images;
      ghost var cap, rest3 := size - 4, payload + checksum;
      ghost var rest2 := data + rest3;
      ghost var a, b, c, d;
      assert Part() + (header + rest2) == header + rest2;
      a := PutBlock(header, rest2);
      ghost var x2 := Cut(Part() + rest2, cap);
      b := PutBlock(data, rest3);
      ghost var x3 := Cut(Part() + rest3, cap);
      c := [];
      if hasPayload {
        c := PutBlock(payload, checksum);
      } else {
        assert rest3 == checksum && [] + x3 == x3;
      }
      ghost var x4 := Cut(Part() + checksum, cap);
      assert checksum + [] == checksum;
      d := PutBlock(checksum, []);
      assert Part() + [] == [];
      CutNothing(cap);
      Chain(old(chunks), a, b, c, d, x2, x3, x4);
    }
  }

  lemma {:induction false} Chain(z: seq<seq<byte>>, a: seq<seq<byte>>, b: seq<seq<byte>>, c: seq<seq<byte>>,
      d: seq<seq<byte>>, x2: seq<seq<byte>>, x3: seq<seq<byte>>, x4: seq<seq<byte>>)
    requires x2 == b + x3 && x3 == c + x4 && x4 == d + []
    ensures z + a + b + c + d == z + (a + x2)
  {
  }

  lemma {:induction false} CutNothing(cap: nat)
    requires cap > 0
    ensures Cut([], cap) == []
  {
  }

  /** The header T32_Term_PutPacketEx builds, with its share of the checksum. */
  method Header(total: nat) returns (header: seq<byte>, sum: byte)
    ensures header == [2] + LenField(total) && sum == Sum(LenField(total)) % 256
  {
    header := [2];
    if total > 252 {
      var h := [255, total % 256, total / 256 % 256, total / 65536 % 256];
      sum := (h[0] + h[1] + h[2] + h[3]) % 256;
      header := header + h;
      assert h == LenField(total);
      assert Sum(h) == h[0] + Sum(h[1..]) && Sum(h[1..]) == h[1] + Sum(h[1..][1..]);
      assert h[1..][1..] == [h[2], h[3]] && Sum([h[2], h[3]]) == h[2] + Sum([h[2], h[3]][1..]);
      assert [h[2], h[3]][1..] == [h[3]] && Sum([h[3]]) == h[3] + Sum([h[3]][1..]);
    } else {
      header := header + [total];
      sum := total % 256;
      assert Sum([total]) == total + Sum([total][1..]);
    }
  }

  /** A checksum loop. */
  method AddUp(start: byte, bs: seq<byte>) returns (sum: byte)
    ensures sum == (start + Sum(bs)) % 256
  {
    sum := start;
    var i := 0;
    while i < |bs|
      invariant i <= |bs| && (sum + Sum(bs[i..])) % 256 == (start + Sum(bs)) % 256
    {
      assert bs[i..][1..] == bs[i + 1..];
      assert (sum + bs[i] + Sum(bs[i + 1..])) % 256 == ((sum + bs[i]) % 256 + Sum(bs[i + 1..])) % 256 by {
        ModAdd(sum + bs[i], Sum(bs[i + 1..]));
      }
      sum := (sum + bs[i]) % 256;
      i := i + 1;
    }
  }

  /** The two checksum loops of either side, from the header's share on. */
  method Checksum(ghost field: seq<byte>, sum0: byte, data: seq<byte>, payload: seq<byte>) returns (sum: byte)
    requires sum0 == Sum(field) % 256
    ensures sum == Sum(field + data + payload) % 256
  {
    hide Sum;
    sum := AddUp(sum0, data);
    sum := AddUp(sum, payload);
    Totals(field, data, payload);
  }

  lemma {:induction false} ModAdd(a: nat, b: nat)
    ensures (a % 256 + b) % 256 == (a + b) % 256
  {
  }

  lemma {:induction false} Totals(field: seq<byte>, data: seq<byte>, payload: seq<byte>)
    ensures (((Sum(field) % 256 + Sum(data)) % 256) + Sum(payload)) % 256 == Sum(field + data + payload) % 256
  {
    SumConcat(field, data);
    SumConcat(field + data, payload);
    hide Sum;
    ModAdd(Sum(field), Sum(data));
    ModAdd(Sum(field) % 256 + Sum(data), Sum(payload));
    ModAdd(Sum(field) + Sum(data), Sum(payload));
  }

  lemma {:induction false} JoinedFew(c: seq<byte>)
    ensures Joined([c]) == c && Joined([]) == []
  {
    assert Joined([c][1..]) == [];
  }

  lemma {:induction false} RoundJoins(c: seq<byte>)
    ensures Joined([c]) + [] == c && Joined([]) + c == c
  {
    JoinedFew(c);
  }

  /** A round that completes a chunk, or the package. */
  lemma {:induction false} RoundCuts(was: seq<byte>, data: seq<byte>, after: seq<byte>, len: nat, cap: nat)
    requires 0 < len <= |data| && cap > 0 && |was| + len == Min(cap, |was| + |data| + |after|)
    ensures Cut(was + (data + after), cap) == [was + data[..len]] + Cut([] + (data[len..] + after), cap)
  {
    hide Cut;
    Splits(was, data, after, len);
    CutStep(was + (data + after), cap, |was| + len);
    assert [] + (data[len..] + after) == data[len..] + after;
  }

  /** A round that does not. */
  lemma {:induction false} RoundWaits(was: seq<byte>, data: seq<byte>, after: seq<byte>, len: nat, cap: nat)
    requires len <= |data| && cap > 0
    ensures Cut(was + (data + after), cap) == [] + Cut((was + data[..len]) + (data[len..] + after), cap)
  {
    hide Cut;
    Splits(was, data, after, len);
  }

  /** The next round continues where the last one stopped. */
  lemma {:induction false} Further(data: seq<byte>, k: nat, len: nat, new_: seq<seq<byte>>, more: seq<seq<byte>>,
                                   part: seq<byte>, here: seq<byte>, there: seq<byte>)
    requires k + len <= |data| && Joined(new_) + here == part + data[..k]
    requires Joined(more) + there == here + data[k..][..len]
    ensures Joined(new_ + more) + there == part + data[..k + len]
    ensures data[k..][len..] == data[k + len..]
  {
    JoinedConcat(new_, more);
    hide Joined;
    var a, b := Joined(new_), Joined(more);
    assert data[..k + len] == data[..k] + data[k..][..len];
    assert (a + b) + there == a + (b + there);
    assert a + (here + data[k..][..len]) == (a + here) + data[k..][..len];
    assert (part + data[..k]) + data[k..][..len] == part + (data[..k] + data[k..][..len]);
  }

  lemma {:induction false} Regroup3(a: seq<seq<byte>>, b: seq<seq<byte>>, c: seq<seq<byte>>)
    ensures a + (b + c) == a + b + c
  {
  }

  lemma {:induction false} Splits(part: seq<byte>, data: seq<byte>, after: seq<byte>, len: nat)
    requires len <= |data|
    ensures part + (data + after) == (part + data[..len]) + (data[len..] + after)
    ensures (part + (data + after))[..|part| + len] == part + data[..len]
    ensures (part + (data + after))[|part| + len..] == data[len..] + after
  {
  }

  // ---- reading ----------------------------------------------------------------------------------------

  /** A frame the host offers: signalled, and with the bytes its control word states. */
  predicate Offered(frame: seq<byte>) {
    |frame| >= 4 && frame[0] != 0 && 4 + Stated(frame) <= |frame|
  }

  datatype Answer = Bad | Good(data: seq<byte>, payload: seq<byte>, count: int)

  /** What the caller sees of a reply. */
  function Seen(r: Reply): Answer {
    if r.Accepted? then Good(r.data, r.payload, r.count) else Bad
  }

  class Reader {
    var pin: seq<byte>
    var bufsize: nat
    var bufindex: nat
    /** The frames the host will place into the buffer, one after another. */
    var incoming: seq<seq<byte>>

    ghost predicate Valid()
      reads this
    {
      && (bufsize != 0 ==> bufindex < bufsize && 4 + bufsize <= |pin|)
      && forall i :: 0 <= i < |incoming| ==> Offered(incoming[i])
    }

    /** The bytes to come. */
    ghost function Stream(): seq<byte>
      requires Valid()
      reads this
    {
      (if bufsize == 0 then [] else pin[4 + bufindex..4 + bufsize]) + Joined(Chunks(incoming))
    }

    constructor (frames: seq<seq<byte>>)
      requires forall i :: 0 <= i < |frames| ==> Offered(frames[i])
      ensures Valid() && Stream() == Joined(Chunks(frames))
    {
      pin, bufsize, bufindex, incoming := [], 0, 0, frames;
    }

    /** The wait for a frame, and the control word. */
    method NextFrame()
      requires Valid() && bufsize == 0 && incoming != []
      modifies this
      ensures Valid() && Stream() == old(Stream()) && incoming == old(incoming)[1..] && bufindex == 0
    {
      assert Chunks(incoming)[0] == Chunk(incoming[0]) && Chunks(incoming)[1..] == Chunks(incoming[1..]);
      pin := incoming[0];
      incoming := incoming[1..];
      bufsize := pin[0];
      if pin[0] == 0xFF {
        bufsize := Number3(pin[1], pin[2], pin[3]);
      }
      bufindex := 0;
    }

    /** The copy loop of one round of T32_Term_GetBlock. */
    method CopyOut(n: nat) returns (data: seq<byte>)
      requires Valid() && n > 0 && (bufsize == 0 ==> bufindex == 0)
      modifies this`bufsize, this`bufindex
      ensures Valid() && old(Stream()) == data + Stream() && |data| <= n
      ensures old(bufsize) != 0 ==> data != []
    {
      hide Joined, Chunks, Offered;
      var len := bufsize - bufindex;
      if len > n {
        len := n;
      }
      data := [];
      if bufsize != 0 {
        data := pin[4 + bufindex..4 + bufindex + len];
        Cutting(pin, 4 + bufindex, len, 4 + bufsize, Joined(Chunks(incoming)));
      }
      bufindex := bufindex + len;
      if bufindex >= bufsize {
        bufsize := 0;
      }
    }

    /** One round of T32_Term_GetBlock's loop. */
    method GetSome(n: nat) returns (data: seq<byte>)
      requires Valid() && 0 < n <= |Stream()|
      modifies this
      ensures Valid() && old(Stream()) == data + Stream() && |data| <= n
      ensures (incoming == old(incoming) && data != []) || |incoming| < |old(incoming)|
    {
      hide Joined, Chunks, Offered;
      if bufsize == 0 {
        EmptyStream(incoming);
        NextFrame();
      }
      data := CopyOut(n);
    }

    /** T32_Term_GetBlock: the next `n` bytes, whatever chunks they came in. */
    method GetBlock(n: nat) returns (data: seq<byte>)
      requires Valid() && n <= |Stream()|
      modifies this
      ensures Valid() && old(Stream()) == data + Stream() && |data| == n
    {
      hide Offered, Chunks, Joined;
      data := [];
      ghost var all := Stream();
      while |data| < n
        invariant Valid() && |data| <= n && all == data + Stream()
        decreases n - |data|, |incoming|
      {
        var more := GetSome(n - |data|);
        assert data + (more + Stream()) == (data + more) + Stream();
        data := data + more;
      }
    }

    /** T32_Term_GetPacketEx, after the header. */
    method GetBody(ghost field: seq<byte>, len: nat, sum0: byte, dataLen: nat, wantPayload: bool) returns (r: Answer)
      requires Valid() && !ParseBody(field, len, Stream(), dataLen, wantPayload).Waits? && sum0 == Sum(field) % 256
      modifies this
      ensures Valid()
      ensures r == Seen(ParseBody(field, len, old(Stream()), dataLen, wantPayload))
      ensures Stream() == ParseBody(field, len, old(Stream()), dataLen, wantPayload).rest
    {
      hide Valid, Stream, Sum, ParseBody;
      ghost var body := Stream();
      var n := if dataLen != 0 then dataLen else len;
      NeedsBytes(field, len, body, dataLen, wantPayload);
      var data := GetBlock(n);
      var extra, payload := 0, [];
      if wantPayload {
        extra := len - n;
        payload := GetBlock(Positive(extra));
      }
      var checksum := GetBlock(2);
      if !wantPayload {
        assert [] + (checksum + Stream()) == checksum + Stream();
      }
      BodyParts(field, len, dataLen, wantPayload, data, payload, checksum, Stream());
      if checksum[1] != 3 {
        return Bad;
      }
      var sum := Checksum(field, sum0, data, payload);
      if sum != checksum[0] {
        return Bad;
      }
      r := Good(data, payload, if wantPayload then extra else len);
    }

    /** T32_Term_GetPacketEx. */
    method GetPacketEx(dataLen: nat, wantPayload: bool) returns (r: Answer)
      requires Valid() && !Parse(Stream(), dataLen, wantPayload).Waits?
      modifies this
      ensures Valid()
      ensures r == Seen(Parse(old(Stream()), dataLen, wantPayload))
      ensures Stream() == Parse(old(Stream()), dataLen, wantPayload).rest
    {
      hide Valid, Stream, Sum, ParseBody, Number3;
      ghost var all := Stream();
      var header := GetBlock(2);
      ghost var s1 := Stream();
      assert all[0] == header[0] && all[1] == header[1] && all[2..] == s1 && all[1..2] == [header[1]];
      if header[0] != 2 {
        return Bad;
      }
      var len, sum := header[1], header[1];
      if len == 0xFF {
        var more := GetBlock(3);
        assert s1[..3] == more;
        assert all[2] == more[0] && all[3] == more[1] && all[4] == more[2] && all[5..] == Stream();
        assert all[1..5] == [header[1]] + more;
        FourBytes(header[1], more);
        len := Number3(more[0], more[1], more[2]);
        sum := (sum as int + more[0] as int + more[1] as int + more[2] as int) % 256;
        r := GetBody([header[1]] + more, len, sum, dataLen, wantPayload);
      } else {
        OneByte(header[1]);
        r := GetBody([header[1]], len, sum, dataLen, wantPayload);
      }
    }
  }

  lemma {:induction false} Cutting(pin: seq<byte>, a: nat, len: nat, z: nat, tail: seq<byte>)
    requires a + len <= z <= |pin|
    ensures pin[a..z] + tail == pin[a..a + len] + (pin[a + len..z] + tail)
    ensures a + len == z ==> pin[a..z] + tail == pin[a..a + len] + ([] + tail)
  {
  }

  lemma {:induction false} OneByte(b: byte)
    ensures Sum([b]) == b
  {
  }

  lemma {:induction false} FourBytes(b: byte, more: seq<byte>)
    requires |more| == 3
    ensures Sum([b] + more) == b as int + more[0] as int + more[1] as int + more[2] as int
  {
    assert more == [more[0]] + [more[1]] + [more[2]];
    SumConcat([b], more);
    SumConcat([more[0]] + [more[1]], [more[2]]);
    SumConcat([more[0]], [more[1]]);
    hide Sum;
    OneByte(b);
    OneByte(more[0]);
    OneByte(more[1]);
    OneByte(more[2]);
  }

  lemma {:induction false} NeedsBytes(field: seq<byte>, len: nat, body: seq<byte>, dataLen: nat, wantPayload: bool)
    requires !ParseBody(field, len, body, dataLen, wantPayload).Waits?
    ensures var n := if dataLen == 0 then len else dataLen;
      |body| >= n + Positive(if wantPayload then len - n else 0) + 2
  {
    hide Sum;
  }

  /** The verdict on a body read in three parts. */
  lemma {:induction false} BodyParts(field: seq<byte>, len: nat, dataLen: nat, wantPayload: bool,
                                     data: seq<byte>, payload: seq<byte>, checksum: seq<byte>, rest: seq<byte>)
    requires |checksum| == 2 && |data| == if dataLen == 0 then len else dataLen
    requires |payload| == Positive(if wantPayload then len - |data| else 0)
    ensures ParseBody(field, len, data + (payload + (checksum + rest)), dataLen, wantPayload) ==
      if checksum[1] != 3 || Sum(field + data + payload) % 256 != checksum[0] then Rejected(rest)
      else Accepted(data, payload, if wantPayload then len - |data| else len, rest)
  {
    hide Sum;
    FourParts(data, payload, checksum, rest);
  }

  lemma {:induction false} FourParts(a: seq<byte>, b: seq<byte>, c: seq<byte>, d: seq<byte>)
    ensures var s, n, m := a + (b + (c + d)), |a|, |a| + |b|;
      && s[..n] == a && s[n..m] == b && s[m + |c|..] == d
      && forall i :: 0 <= i < |c| ==> s[m + i] == c[i]
  {
  }

  lemma {:induction false} EmptyStream(frames: seq<seq<byte>>)
    ensures frames == [] ==> Joined(Chunks(frames)) == []
  {
  }

  /** The packet goes out through one buffer and comes in through another. */
  method SendAndReceive(size: nat, data: seq<byte>, payload: seq<byte>) returns (r: Answer)
    requires size > 4 && |data| + |payload| < LIMIT && (|data| > 0 || |payload| == 0)
    requires Min(size - 4, |Packet(data, payload)|) < LIMIT
    ensures r == Good(data, payload, |payload|)
  {
    hide Packet, Parse, Cut, Joined, Images, Chunks, Image, Chunk, Sum;
    var out := new Writer(size);
    out.PutPacketEx(data, payload, true);
    assert [] + Cut(Packet(data, payload), size - 4) == Cut(Packet(data, payload), size - 4);
    EndToEnd(data, payload, size - 4, out.frames);
    FramesOffered(out.frames, Packet(data, payload), size - 4);
    var in_ := new Reader(out.frames);
    r := in_.GetPacketEx(|data|, true);
  }

  lemma {:induction false} FramesOffered(frames: seq<seq<byte>>, bs: seq<byte>, cap: nat)
    requires cap > 0 && Images(frames, Cut(bs, cap))
    ensures forall i :: 0 <= i < |frames| ==> Offered(frames[i])
  {
    var cs := Cut(bs, cap);
    CutJoins(bs, cap);
    hide Cut, Image;
    forall i | 0 <= i < |frames| ensures Offered(frames[i]) {
      ImageRead(frames[i], cs[i]);
    }
  }
}
