/** The TRACE32 terminal packet (t32term.c) and its way through a shared buffer in chunks
    (t32term_memory.c), as values. */
module T32Packets {
  import opened Rings

  /** Three length bytes. */
  const LIMIT: nat := 0x100_0000

  function Sum(bs: seq<byte>): nat {
    if bs == [] then 0 else bs[0] + Sum(bs[1..])
  }

  lemma {:induction false} SumConcat(a: seq<byte>, b: seq<byte>)
    ensures Sum(a + b) == Sum(a) + Sum(b)
    decreases |a|
  {
    if a == [] {
      assert a + b == b;
    } else {
      assert (a + b)[1..] == a[1..] + b;
      SumConcat(a[1..], b);
    }
  }

  /** Low byte first. */
  function Low3(n: nat): (bs: seq<byte>)
    ensures |bs| == 3
  {
    [n % 256, n / 256 % 256, n / 65536 % 256]
  }

  function Number3(a: byte, b: byte, c: byte): nat {
    a + b * 256 + c * 65536
  }

  lemma {:induction false} Low3Number(n: nat)
    ensures Number3(Low3(n)[0], Low3(n)[1], Low3(n)[2]) == n % LIMIT
  {
    var a, n1 := n % 256, n / 256;
    var b, n2 := n1 % 256, n1 / 256;
    var c, n3 := n2 % 256, n2 / 256;
    DivTwice(n);
    assert n == a + 256 * n1 && n1 == b + 256 * n2 && n2 == c + 256 * n3;
    OnlyRest(n, n3, a + b * 256 + c * 65536);
  }

  lemma {:induction false} DivTwice(n: nat)
    ensures n / 65536 == n / 256 / 256
  {
    var q, r := n / 65536, n % 65536;
    assert n == q * 65536 + r;
    assert n / 256 == q * 256 + r / 256;
  }

  lemma {:induction false} OnlyRest(n: nat, q: nat, r: nat)
    requires n == q * LIMIT + r && r < LIMIT
    ensures n % LIMIT == r
  {
  }

  /** The length in one byte, or an escape and three. */
  function LenField(n: nat): seq<byte> {
    if n > 252 then [255] + Low3(n) else [n]
  }

  /** What T32_Term_PutPacketEx sends. */
  function Packet(data: seq<byte>, payload: seq<byte>): seq<byte> {
    var len := LenField(|data| + |payload|);
    [2] + len + data + payload + [Sum(len + data + payload) % 256, 3]
  }

  /** The reader waits for more, rejects (-1), or accepts with the count it returns. */
  datatype Reply =
    | Waits
    | Rejected(rest: seq<byte>)
    | Accepted(data: seq<byte>, payload: seq<byte>, count: int, rest: seq<byte>)

  /** The header of a stream: its length field, the length it states, and what follows. */
  datatype Head = Short | BadStart(rest: seq<byte>) | Head(field: seq<byte>, len: nat, body: seq<byte>)

  function ReadHead(s: seq<byte>): Head {
    if |s| < 2 then Short
    else if s[0] != 2 then BadStart(s[2..])
    else if s[1] != 255 then Head(s[1..2], s[1], s[2..])
    else if |s| < 5 then Short
    else Head(s[1..5], Number3(s[2], s[3], s[4]), s[5..])
  }

  function Positive(n: int): nat {
    if n > 0 then n else 0
  }

  /** What follows a header: data, payload, checksum and end mark; no data length means
      all. */
  function ParseBody(field: seq<byte>, len: nat, body: seq<byte>, dataLen: nat, wantPayload: bool): Reply {
    var n := if dataLen == 0 then len else dataLen;
    var extra := if wantPayload then len - n else 0;
    var m := Positive(extra);
    if |body| < n + m + 2 then Waits
    else
      var rest := body[n + m + 2..];
      if body[n + m + 1] != 3 || Sum(field + body[..n] + body[n..n + m]) % 256 != body[n + m] then Rejected(rest)
      else Accepted(body[..n], body[n..n + m], if wantPayload then extra else len, rest)
  }

  /** T32_Term_GetPacketEx on the bytes to come. */
  function Parse(s: seq<byte>, dataLen: nat, wantPayload: bool): Reply {
    match ReadHead(s)
    case Short => Waits
    case BadStart(rest) => Rejected(rest)
    case Head(field, len, body) => ParseBody(field, len, body, dataLen, wantPayload)
  }

  // ---- packets -----------------------------------------------------------------------------------

  /** Bytes after the length field. */
  function Body(data: seq<byte>, payload: seq<byte>): seq<byte> {
    data + payload + [Sum(LenField(|data| + |payload|) + data + payload) % 256, 3]
  }

  lemma {:induction false} HeadOf(n: nat, body: seq<byte>)
    ensures ReadHead([2] + LenField(n) + body) == Head(LenField(n), if n > 252 then n % LIMIT else n, body)
  {
    Low3Number(n);
    hide Low3, Number3;
    var field := LenField(n);
    var s := [2] + field + body;
    assert s[1..1 + |field|] == field && s[1 + |field|..] == body;
    assert n > 252 ==> s[2..5] == Low3(n);
  }

  lemma {:induction false} HeadOfPacket(data: seq<byte>, payload: seq<byte>, rest: seq<byte>)
    ensures var n := |data| + |payload|;
      ReadHead(Packet(data, payload) + rest)
        == Head(LenField(n), if n > 252 then n % LIMIT else n, Body(data, payload) + rest)
  {
    hide Sum, ReadHead, LenField;
    var n, s := |data| + |payload|, Packet(data, payload) + rest;
    HeadOf(n, Body(data, payload) + rest);
    assert Packet(data, payload) == [2] + LenField(n) + Body(data, payload);
    assert s == [2] + LenField(n) + (Body(data, payload) + rest);
  }

  lemma {:induction false} StatedLength(n: nat)
    ensures (if n > 252 then n % LIMIT else n) == n <==> n < LIMIT
    ensures n >= LIMIT ==> n % LIMIT <= n - LIMIT
  {
    if n >= LIMIT {
      var q, r := n / LIMIT, n % LIMIT;
      assert n == q * LIMIT + r && q >= 1;
    }
  }

  lemma {:induction false} AcceptedBy(s: seq<byte>, dataLen: nat, wantPayload: bool, field: seq<byte>, data: seq<byte>,
      payload: seq<byte>, tail: seq<byte>, rest: seq<byte>)
    requires ReadHead(s) == Head(field, |data| + |payload|, data + payload + tail + rest)
    requires |tail| == 2 && tail[1] == 3 && tail[0] == Sum(field + data + payload) % 256
    requires |data| == (if dataLen == 0 then |data| + |payload| else dataLen) && (wantPayload || payload == [])
    ensures Parse(s, dataLen, wantPayload) ==
        Accepted(data, payload, if wantPayload then |payload| else |data| + |payload|, rest)
  {
    hide Sum, ReadHead;
    var body, n, m := data + payload + tail + rest, |data|, |payload|;
    assert body[..n] == data && body[n..n + m] == payload && body[n + m + 2..] == rest;
    assert body[n + m] == tail[0] && body[n + m + 1] == tail[1];
  }

  /** A packet read with the right split, or with none, is accepted as it was sent. */
  lemma {:induction false} ParseSplit(data: seq<byte>, payload: seq<byte>, rest: seq<byte>)
    requires |data| + |payload| < LIMIT && (|data| > 0 || |payload| == 0)
    ensures Parse(Packet(data, payload) + rest, |data|, true) == Accepted(data, payload, |payload|, rest)
  {
    hide Packet, ReadHead, Sum, LenField, Parse;
    var field := LenField(|data| + |payload|);
    HeadOfPacket(data, payload, rest);
    StatedLength(|data| + |payload|);
    AcceptedBy(Packet(data, payload) + rest, |data|, true, field, data, payload,
        [Sum(field + data + payload) % 256, 3], rest);
  }

  lemma {:induction false} ParseWhole(data: seq<byte>, payload: seq<byte>, rest: seq<byte>, wantPayload: bool)
    requires |data| + |payload| < LIMIT
    ensures Parse(Packet(data, payload) + rest, 0, wantPayload)
      == Accepted(data + payload, [], if wantPayload then 0 else |data| + |payload|, rest)
  {
    hide Packet, ReadHead, Sum, LenField, Parse;
    var field := LenField(|data| + |payload|);
    HeadOfPacket(data, payload, rest);
    StatedLength(|data| + |payload|);
    var all := data + payload;
    assert field + all + [] == field + data + payload && all + [] == data + payload;
    AcceptedBy(Packet(data, payload) + rest, 0, wantPayload, field, all, [], [Sum(field + data + payload) % 256, 3],
        rest);
  }

  /** T32_Term_GetPacketEx gives back data and payload exactly when three bytes can state
      their length and the data is not empty before a payload: a data length of 0 asks for
      everything. */
  lemma {:induction false} PacketRoundTrip(data: seq<byte>, payload: seq<byte>, rest: seq<byte>)
    ensures Parse(Packet(data, payload) + rest, |data|, true) == Accepted(data, payload, |payload|, rest)
      <==> |data| + |payload| < LIMIT && (|data| > 0 || |payload| == 0)
  {
    hide Packet, Parse;
    if |data| + |payload| >= LIMIT {
      TooLong(data, payload, rest);
    } else if |data| > 0 || |payload| == 0 {
      ParseSplit(data, payload, rest);
    } else {
      ParseWhole(data, payload, rest, true);
    }
  }

  lemma {:induction false} TooLong(data: seq<byte>, payload: seq<byte>, rest: seq<byte>)
    requires |data| + |payload| >= LIMIT
    ensures Parse(Packet(data, payload) + rest, |data|, true) != Accepted(data, payload, |payload|, rest)
  {
    HeadOfPacket(data, payload, rest);
    StatedLength(|data| + |payload|);
    hide Packet, ReadHead, Sum, LenField, Body;
  }

  /** A reader that takes all `len` bytes of the contents, split or not. */
  predicate ReadsAll(len: nat, dataLen: nat, wantPayload: bool) {
    dataLen == 0 || dataLen == len || (wantPayload && dataLen < len)
  }

  /** A changed byte is noticed: with any one byte of data, payload, checksum or end mark
      replaced, a packet is rejected, however the reader splits it. */
  lemma {:induction false} ChangedByteRejected(data: seq<byte>, payload: seq<byte>, i: nat, b: byte,
                                               dataLen: nat, wantPayload: bool, rest: seq<byte>)
    requires |data| + |payload| < LIMIT && ReadsAll(|data| + |payload|, dataLen, wantPayload)
    requires i < |Body(data, payload)| && b != Body(data, payload)[i]
    ensures var field := LenField(|data| + |payload|);
      && Packet(data, payload) == [2] + field + Body(data, payload)
      && Parse([2] + field + Body(data, payload)[i := b] + rest, dataLen, wantPayload) == Rejected(rest)
  {
    var n, field, body := |data| + |payload|, LenField(|data| + |payload|), Body(data, payload);
    hide Sum, LenField, Packet, Parse, ReadHead, Body;
    PacketIs(data, payload);
    Damage(field, data + payload, payload, data, i, b);
    var body' := body[i := b];
    var changed, tail := body'[..n], body'[n..];
    assert body' == changed + tail;
    Regroup([2] + field, changed, tail, rest);
    HeadOf(n, changed + tail + rest);
    StatedLength(n);
    RejectedBy([2] + field + body' + rest, field, changed, tail, rest, dataLen, wantPayload);
  }

  lemma {:induction false} PacketIs(data: seq<byte>, payload: seq<byte>)
    ensures Packet(data, payload) == [2] + LenField(|data| + |payload|) + Body(data, payload)
  {
    hide Sum, LenField;
  }

  lemma {:induction false} Regroup(a: seq<byte>, b: seq<byte>, c: seq<byte>, d: seq<byte>)
    ensures a + (b + c) + d == a + (b + c + d)
  {
  }

  /** After the change the sum or the end mark is wrong. */
  lemma {:induction false} Damage(field: seq<byte>, all: seq<byte>, payload: seq<byte>, data: seq<byte>, i: nat,
      b: byte)
    requires all == data + payload && field == LenField(|all|) && i < |Body(data, payload)| &&
        b != Body(data, payload)[i]
    ensures |Body(data, payload)| == |all| + 2
    ensures var body' := Body(data, payload)[i := b]; var tail := body'[|all|..];
      tail[1] != 3 || Sum(field + body'[..|all|]) % 256 != tail[0]
  {
    hide LenField, Sum;
    var n, sum := |all|, Sum(field + data + payload) % 256;
    assert field + data + payload == field + all;
    var body := Body(data, payload);
    assert body == all + [sum, 3];
    var body' := body[i := b];
    if i < n {
      assert body'[..n] == all[i := b];
      SumDiffers(field, all, i, b);
    } else {
      assert body'[..n] == all;
    }
  }

  lemma {:induction false} SumDiffers(field: seq<byte>, data: seq<byte>, i: nat, b: byte)
    requires i < |data| && b != data[i]
    ensures Sum(field + data[i := b]) % 256 != Sum(field + data) % 256
  {
    hide Sum;
    SumChanged(data, i, b);
    SumConcat(field, data);
    SumConcat(field, data[i := b]);
    OffByLittle(Sum(field) + Sum(data), b - data[i]);
  }

  lemma {:induction false} RejectedBy(s: seq<byte>, field: seq<byte>, contents: seq<byte>, tail: seq<byte>,
      rest: seq<byte>, dataLen: nat, wantPayload: bool)
    requires ReadHead(s) == Head(field, |contents|, contents + tail + rest) && |tail| == 2
    requires tail[1] != 3 || Sum(field + contents) % 256 != tail[0]
    requires ReadsAll(|contents|, dataLen, wantPayload)
    ensures Parse(s, dataLen, wantPayload) == Rejected(rest)
  {
    hide Sum, ReadHead;
    var body, len := contents + tail + rest, |contents|;
    var n := if dataLen == 0 then len else dataLen;
    assert body[len + 2..] == rest && body[len] == tail[0] && body[len + 1] == tail[1];
    assert body[..n] + body[n..len] == contents;
    assert field + body[..n] + body[n..len] == field + contents;
  }

  lemma {:induction false} SumChanged(bs: seq<byte>, i: nat, b: byte)
    requires i < |bs|
    ensures Sum(bs[i := b]) == Sum(bs) + b - bs[i]
  {
    assert bs == bs[..i] + [bs[i]] + bs[i + 1..];
    assert bs[i := b] == bs[..i] + [b] + bs[i + 1..];
    SumConcat(bs[..i] + [bs[i]], bs[i + 1..]);
    SumConcat(bs[..i] + [b], bs[i + 1..]);
    SumConcat(bs[..i], [bs[i]]);
    SumConcat(bs[..i], [b]);
    assert Sum([b]) == b && Sum([bs[i]]) == bs[i];
  }

  lemma {:induction false} OffByLittle(s: int, d: int)
    requires d != 0 && -256 < d < 256
    ensures (s + d) % 256 != s % 256
  {
  }

  // ---- chunks ---------------------------------------------------------------------------------------

  /** A package cut into chunks of `cap` bytes, the last one shorter. */
  function Cut(bs: seq<byte>, cap: nat): seq<seq<byte>>
    requires cap > 0
    decreases |bs|
  {
    if bs == [] then [] else if |bs| <= cap then [bs] else [bs[..cap]] + Cut(bs[cap..], cap)
  }

  function Joined(cs: seq<seq<byte>>): seq<byte> {
    if cs == [] then [] else cs[0] + Joined(cs[1..])
  }

  lemma {:induction false} JoinedConcat(a: seq<seq<byte>>, b: seq<seq<byte>>)
    ensures Joined(a + b) == Joined(a) + Joined(b)
    decreases |a|
  {
    if a == [] {
      assert a + b == b;
    } else {
      assert (a + b)[0] == a[0] && (a + b)[1..] == a[1..] + b;
      JoinedConcat(a[1..], b);
    }
  }

  lemma {:induction false} CutSizes(bs: seq<byte>, cap: nat)
    requires cap > 0
    ensures forall i :: 0 <= i < |Cut(bs, cap)| ==> 0 < |Cut(bs, cap)[i]| <= cap
    ensures forall i :: 0 <= i < |Cut(bs, cap)| - 1 ==> |Cut(bs, cap)[i]| == cap
    ensures bs != [] ==> Cut(bs, cap) != [] && |Cut(bs, cap)[0]| == Min(cap, |bs|)
    decreases |bs|
  {
    if |bs| > cap {
      CutSizes(bs[cap..], cap);
    }
  }

  lemma {:induction false} CutWhole(bs: seq<byte>, cap: nat)
    requires cap > 0
    ensures Joined(Cut(bs, cap)) == bs
    decreases |bs|
  {
    if bs == [] {
    } else if |bs| <= cap {
      assert Joined([bs][1..]) == [];
    } else {
      var head, rest := bs[..cap], bs[cap..];
      CutWhole(rest, cap);
      JoinedHead(head, Cut(rest, cap));
      assert head + rest == bs;
      hide Joined;
    }
  }

  lemma {:induction false} JoinedHead(c: seq<byte>, cs: seq<seq<byte>>)
    ensures Joined([c] + cs) == c + Joined(cs)
  {
    assert ([c] + cs)[1..] == cs;
  }

  /** Cutting loses nothing, and every chunk is filled but the last. */
  lemma {:induction false} CutJoins(bs: seq<byte>, cap: nat)
    requires cap > 0
    ensures Joined(Cut(bs, cap)) == bs
    ensures forall i :: 0 <= i < |Cut(bs, cap)| ==> 0 < |Cut(bs, cap)[i]| <= cap
    ensures forall i :: 0 <= i < |Cut(bs, cap)| - 1 ==> |Cut(bs, cap)[i]| == cap
    ensures bs != [] ==> Cut(bs, cap) != [] && |Cut(bs, cap)[0]| == Min(cap, |bs|)
  {
    hide Cut, Joined;
    CutSizes(bs, cap);
    CutWhole(bs, cap);
  }

  /** The length a control word states. */
  function Stated(frame: seq<byte>): nat
    requires |frame| >= 4
  {
    if frame[0] == 255 then Number3(frame[1], frame[2], frame[3]) else frame[0]
  }

  /** The shared buffer as it is when the writer signals a chunk: control word, chunk, and
      whatever was there before. */
  ghost predicate Image(frame: seq<byte>, chunk: seq<byte>) {
    && 4 + |chunk| <= |frame| && frame[4..4 + |chunk|] == chunk
    && (if |chunk| > 252 then frame[0] == 255 && frame[1..4] == Low3(|chunk|) else frame[0] == |chunk|)
  }

  /** The chunk a reader finds. */
  function Chunk(frame: seq<byte>): seq<byte> {
    if |frame| >= 4 && 4 + Stated(frame) <= |frame| then frame[4..4 + Stated(frame)] else []
  }

  /** The reader finds the writer's chunk exactly if three bytes can state its length. */
  lemma {:induction false} ImageRead(frame: seq<byte>, chunk: seq<byte>)
    requires Image(frame, chunk)
    ensures Chunk(frame) == chunk <==> |chunk| < LIMIT
    ensures 4 + Stated(frame) <= |frame| && |Chunk(frame)| <= if |chunk| < LIMIT then |chunk| else |chunk| - LIMIT
    ensures 0 < |chunk| ==> frame[0] != 0
  {
    var n := |chunk|;
    Low3Number(n);
    StatedLength(n);
    hide Low3, Number3;
    if n > 252 {
      assert frame[1..4][0] == frame[1] && frame[1..4][1] == frame[2] && frame[1..4][2] == frame[3];
      assert Stated(frame) == n % LIMIT;
    }
  }

  function Chunks(frames: seq<seq<byte>>): (cs: seq<seq<byte>>)
    ensures |cs| == |frames|
  {
    seq(|frames|, i requires 0 <= i < |frames| => Chunk(frames[i]))
  }

  ghost predicate Images(frames: seq<seq<byte>>, chunks: seq<seq<byte>>) {
    |frames| == |chunks| && forall i :: 0 <= i < |frames| ==> Image(frames[i], chunks[i])
  }

  /** Everything read chunk by chunk is everything written, exactly if no chunk reaches
      2^24 bytes; the first is the longest: the smaller of buffer and package. */
  lemma {:induction false} TransportRoundTrip(bs: seq<byte>, cap: nat, frames: seq<seq<byte>>)
    requires cap > 0 && Images(frames, Cut(bs, cap))
    ensures Joined(Chunks(frames)) == bs <==> Min(cap, |bs|) < LIMIT
    ensures Min(cap, |bs|) >= LIMIT ==> |Joined(Chunks(frames))| <= |bs| - LIMIT
  {
    var cs := Cut(bs, cap);
    CutJoins(bs, cap);
    ChunkBound(bs, cap);
    hide Cut, Image, Chunk, Joined, LIMIT;
    forall i | 0 <= i < |cs|
      ensures Chunk(frames[i]) == cs[i] <==> |cs[i]| < LIMIT
      ensures |Chunk(frames[i])| <= if |cs[i]| < LIMIT then |cs[i]| else |cs[i]| - LIMIT
    {
      ImageRead(frames[i], cs[i]);
    }
    if Min(cap, |bs|) < LIMIT {
      assert Chunks(frames) == cs;
    } else {
      Positives();
      Shorter(Chunks(frames), cs, LIMIT);
    }
  }

  lemma {:induction false} Positives()
    ensures LIMIT > 0
  {
  }

  lemma {:induction false} ChunkBound(bs: seq<byte>, cap: nat)
    requires cap > 0
    ensures forall i :: 0 <= i < |Cut(bs, cap)| ==> |Cut(bs, cap)[i]| <= Min(cap, |bs|)
  {
    CutJoins(bs, cap);
    forall i | 0 <= i < |Cut(bs, cap)| ensures |Cut(bs, cap)[i]| <= |bs| {
      PartOf(Cut(bs, cap), i);
    }
  }

  lemma {:induction false} PartOf(cs: seq<seq<byte>>, i: nat)
    requires i < |cs|
    ensures |cs[i]| <= |Joined(cs)|
    decreases |cs|
  {
    if i > 0 {
      PartOf(cs[1..], i - 1);
    }
  }

  /** Chunks that are nowhere longer, the first by `d` shorter, add up to less. */
  lemma {:induction false} Shorter(a: seq<seq<byte>>, b: seq<seq<byte>>, d: nat)
    requires |a| == |b| && forall i :: 0 <= i < |a| ==> |a[i]| <= |b[i]|
    requires d == 0 || (a != [] && |a[0]| + d <= |b[0]|)
    ensures |Joined(a)| + d <= |Joined(b)|
    decreases |a|
  {
    if a != [] {
      Shorter(a[1..], b[1..], 0);
    }
  }

  // ---- both together ---------------------------------------------------------------------------------

  lemma {:induction false} AcceptedLength(s: seq<byte>, data: seq<byte>, payload: seq<byte>)
    requires Parse(s, |data|, true) == Accepted(data, payload, |payload|, [])
    ensures |s| >= |data| + |payload| + 4
  {
    hide Sum, Number3;
  }

  lemma {:induction false} PacketLength(data: seq<byte>, payload: seq<byte>)
    ensures |Packet(data, payload)| == |data| + |payload| + if |data| + |payload| > 252 then 7 else 4
  {
    hide Sum;
  }

  /** A packet that went through the shared buffer in chunks is read back as it was sent
      exactly if three bytes can state its length and that of its longest chunk, and its
      data is not empty before a payload. */
  lemma {:induction false} EndToEnd(data: seq<byte>, payload: seq<byte>, cap: nat, frames: seq<seq<byte>>)
    requires cap > 0 && Images(frames, Cut(Packet(data, payload), cap))
    ensures Parse(Joined(Chunks(frames)), |data|, true) == Accepted(data, payload, |payload|, []) <==>
      && |data| + |payload| < LIMIT && (|data| > 0 || |payload| == 0)
      && Min(cap, |Packet(data, payload)|) < LIMIT
  {
    var bs, s := Packet(data, payload), Joined(Chunks(frames));
    PacketLength(data, payload);
    hide Packet, Parse, Cut, Joined, Images;
    TransportRoundTrip(bs, cap, frames);
    if Min(cap, |bs|) < LIMIT {
      assert bs + [] == bs;
      PacketRoundTrip(data, payload, []);
    } else if Parse(s, |data|, true) == Accepted(data, payload, |payload|, []) {
      AcceptedLength(s, data, payload);
      assert false;
    }
  }
}
