/** What the reader of t32term.c makes of any stream at all, well-formed or not. */
module T32Replies {
  import opened Rings
  import opened T32Packets

  /** A length field and the length it states: one byte, or 255 and three. */
  ghost predicate States(field: seq<byte>, len: nat) {
    || (|field| == 1 && field[0] != 255 && len == field[0])
    || (|field| == 4 && field[0] == 255 && len == Number3(field[1], field[2], field[3]))
  }

  /** The stream is a start byte, a length field, as much data and payload as the reader takes
      for that length, two closing bytes, and the rest. */
  ghost predicate Reads(s: seq<byte>, dataLen: nat, wantPayload: bool, field: seq<byte>, len: nat, data: seq<byte>,
                        payload: seq<byte>, tail: seq<byte>, rest: seq<byte>) {
    && States(field, len) && |tail| == 2
    && s == [2] + field + (data + payload + tail + rest)
    && |data| == (if dataLen == 0 then len else dataLen)
    && |payload| == (if wantPayload && len > |data| then len - |data| else 0)
  }

  /** The closing bytes are the checksum and the end mark. */
  predicate Closes(field: seq<byte>, data: seq<byte>, payload: seq<byte>, tail: seq<byte>) {
    |tail| == 2 && tail[0] == Sum(field + data + payload) % 256 && tail[1] == 3
  }

  /** The header is read as it stands. */
  lemma {:induction false} HeadIff(s: seq<byte>, field: seq<byte>, len: nat, body: seq<byte>)
    ensures ReadHead(s) == Head(field, len, body) <==> States(field, len) && s == [2] + field + body
  {
    if ReadHead(s) == Head(field, len, body) {
      assert s == [s[0]] + s[1..1 + |field|] + s[1 + |field|..];
    }
    if States(field, len) && s == [2] + field + body {
      assert s[1..1 + |field|] == field && s[1 + |field|..] == body;
      assert forall i :: 0 <= i < |field| ==> s[1 + i] == field[i];
    }
  }

  lemma {:induction false} BodySplits(body: seq<byte>, data: seq<byte>, payload: seq<byte>, tail: seq<byte>,
                                      rest: seq<byte>)
    requires body == data + payload + tail + rest && |tail| == 2
    ensures var n, m := |data|, |payload|;
      && body[..n] == data && body[n..n + m] == payload && body[n + m] == tail[0] && body[n + m + 1] == tail[1]
      && body[n + m + 2..] == rest
  {
  }

  lemma {:induction false} BodyJoins(body: seq<byte>, n: nat, m: nat)
    requires n + m + 2 <= |body|
    ensures body == body[..n] + body[n..n + m] + body[n + m..n + m + 2] + body[n + m + 2..]
  {
  }

  /** What is read off a stream is what the reply is about. */
  lemma {:induction false} ReplyTo(s: seq<byte>, dataLen: nat, wantPayload: bool, field: seq<byte>, len: nat,
                                   data: seq<byte>, payload: seq<byte>, tail: seq<byte>, rest: seq<byte>)
    requires Reads(s, dataLen, wantPayload, field, len, data, payload, tail, rest)
    ensures Parse(s, dataLen, wantPayload) ==
        if Closes(field, data, payload, tail)
        then Accepted(data, payload, if wantPayload then len - |data| else len, rest)
        else Rejected(rest)
  {
    hide Sum, ReadHead, States;
    var body := data + payload + tail + rest;
    HeadIff(s, field, len, body);
    BodySplits(body, data, payload, tail, rest);
  }

  /** A stream that is answered is read in one way. */
  lemma {:induction false} ReplyReads(s: seq<byte>, dataLen: nat, wantPayload: bool)
    requires Parse(s, dataLen, wantPayload) != Waits && s[0] == 2
    ensures exists field, len, data, payload, tail, rest ::
        Reads(s, dataLen, wantPayload, field, len, data, payload, tail, rest)
  {
    hide ParseBody, States, Reads, Number3;
    var head := ReadHead(s);
    assert head.Head?;
    var field, len, body := head.field, head.len, head.body;
    HeadIff(s, field, len, body);
    assert Parse(s, dataLen, wantPayload) == ParseBody(field, len, body, dataLen, wantPayload);
    hide ReadHead, Parse;
    Enough(field, len, body, dataLen, wantPayload);
    BodyReads(s, field, len, body, dataLen, wantPayload);
  }

  /** How many bytes of data and of payload the reader takes. */
  function Lengths(len: nat, dataLen: nat, wantPayload: bool): (nat, nat) {
    var n := if dataLen == 0 then len else dataLen;
    (n, if wantPayload && len > n then len - n else 0)
  }

  lemma {:induction false} Enough(field: seq<byte>, len: nat, body: seq<byte>, dataLen: nat, wantPayload: bool)
    requires ParseBody(field, len, body, dataLen, wantPayload) != Waits
    ensures var (n, m) := Lengths(len, dataLen, wantPayload); n + m + 2 <= |body|
  {
    hide Sum;
  }

  lemma {:induction false} BodyReads(s: seq<byte>, field: seq<byte>, len: nat, body: seq<byte>, dataLen: nat,
                                     wantPayload: bool)
    requires States(field, len) && s == [2] + field + body
    requires var (n, m) := Lengths(len, dataLen, wantPayload); n + m + 2 <= |body|
    ensures var (n, m) := Lengths(len, dataLen, wantPayload);
      Reads(s, dataLen, wantPayload, field, len, body[..n], body[n..n + m], body[n + m..n + m + 2], body[n + m + 2..])
  {
    hide States;
    var (n, m) := Lengths(len, dataLen, wantPayload);
    BodyJoins(body, n, m);
  }

  lemma {:induction false} Answered(s: seq<byte>, dataLen: nat, wantPayload: bool)
    requires Parse(s, dataLen, wantPayload) != Waits
    ensures |s| >= 2
    ensures s[0] != 2 ==> Parse(s, dataLen, wantPayload) == Rejected(s[2..])
  {
    hide ParseBody;
  }

  /** Data, payload and count are accepted exactly if the stream is a start byte, a field that
      states their length, the bytes themselves, their sum and the end mark. */
  lemma {:induction false} AcceptsIff(s: seq<byte>, dataLen: nat, wantPayload: bool, data: seq<byte>,
                                      payload: seq<byte>, count: int, rest: seq<byte>)
    ensures Parse(s, dataLen, wantPayload) == Accepted(data, payload, count, rest) <==>
      exists field, len: nat, tail ::
        && Reads(s, dataLen, wantPayload, field, len, data, payload, tail, rest) && Closes(field, data, payload, tail)
        && count == if wantPayload then len - |data| else len
  {
    hide Parse, Reads, Closes;
    var r := Parse(s, dataLen, wantPayload);
    forall field, len: nat, tail | Reads(s, dataLen, wantPayload, field, len, data, payload, tail, rest)
      ensures r == if Closes(field, data, payload, tail)
        then Accepted(data, payload, if wantPayload then len - |data| else len, rest) else Rejected(rest)
    {
      ReplyTo(s, dataLen, wantPayload, field, len, data, payload, tail, rest);
    }
    if r == Accepted(data, payload, count, rest) {
      Answered(s, dataLen, wantPayload);
      ReplyReads(s, dataLen, wantPayload);
      var field, len: nat, data', payload', tail, rest' :|
        Reads(s, dataLen, wantPayload, field, len, data', payload', tail, rest');
      ReplyTo(s, dataLen, wantPayload, field, len, data', payload', tail, rest');
    }
  }

  /** A stream is rejected exactly for a wrong start byte, after two bytes, or for closing bytes
      that are not the checksum and the end mark, after all of them. */
  lemma {:induction false} RejectsIff(s: seq<byte>, dataLen: nat, wantPayload: bool, rest: seq<byte>)
    ensures Parse(s, dataLen, wantPayload) == Rejected(rest) <==>
      || (|s| >= 2 && s[0] != 2 && rest == s[2..])
      || exists field, len, data, payload, tail ::
           Reads(s, dataLen, wantPayload, field, len, data, payload, tail, rest) && !Closes(field, data, payload, tail)
  {
    var r := Parse(s, dataLen, wantPayload);
    assert |s| >= 2 && s[0] != 2 ==> r == Rejected(s[2..]) by { hide ParseBody; }
    hide Parse, Reads, Closes;
    if r == Rejected(rest) {
      Answered(s, dataLen, wantPayload);
      if s[0] == 2 {
        ReplyReads(s, dataLen, wantPayload);
        var field, len, data, payload, tail, rest' :|
          Reads(s, dataLen, wantPayload, field, len, data, payload, tail, rest');
        ReplyTo(s, dataLen, wantPayload, field, len, data, payload, tail, rest');
      }
    } else {
      forall field, len: nat, data, payload, tail
        | Reads(s, dataLen, wantPayload, field, len, data, payload, tail, rest)
        ensures Closes(field, data, payload, tail)
      {
        ReplyTo(s, dataLen, wantPayload, field, len, data, payload, tail, rest);
      }
    }
  }

  /** The reply with more bytes behind what is left unread. */
  function Further(r: Reply, more: seq<byte>): Reply {
    match r
    case Waits => Waits
    case Rejected(rest) => Rejected(rest + more)
    case Accepted(data, payload, count, rest) => Accepted(data, payload, count, rest + more)
  }

  /** An answer, once given, does not depend on what comes behind it. */
  lemma {:induction false} AnswerStands(s: seq<byte>, more: seq<byte>, dataLen: nat, wantPayload: bool)
    requires Parse(s, dataLen, wantPayload) != Waits
    ensures Parse(s + more, dataLen, wantPayload) == Further(Parse(s, dataLen, wantPayload), more)
  {
    Answered(s, dataLen, wantPayload);
    if s[0] == 2 {
      ReplyReads(s, dataLen, wantPayload);
      var field, len, data, payload, tail, rest :|
        Reads(s, dataLen, wantPayload, field, len, data, payload, tail, rest);
      ReplyTo(s, dataLen, wantPayload, field, len, data, payload, tail, rest);
      ReadsMore(s, more, dataLen, wantPayload, field, len, data, payload, tail, rest);
      hide Parse, Reads;
      ReplyTo(s + more, dataLen, wantPayload, field, len, data, payload, tail, rest + more);
    } else {
      assert (s + more)[2..] == s[2..] + more;
      hide ParseBody;
    }
  }

  lemma {:induction false} ReadsMore(s: seq<byte>, more: seq<byte>, dataLen: nat, wantPayload: bool, field: seq<byte>,
                                     len: nat, data: seq<byte>, payload: seq<byte>, tail: seq<byte>, rest: seq<byte>)
    requires Reads(s, dataLen, wantPayload, field, len, data, payload, tail, rest)
    ensures Reads(s + more, dataLen, wantPayload, field, len, data, payload, tail, rest + more)
  {
    hide States;
    assert (data + payload + tail + rest) + more == data + payload + tail + (rest + more);
  }

  /** The layout of a control word: one byte states the length of a chunk exactly up to 252. */
  lemma {:induction false} ControlWord(frame: seq<byte>, chunk: seq<byte>)
    requires Image(frame, chunk)
    ensures frame[0] != 255 <==> |chunk| <= 252
    ensures |chunk| <= 252 ==> frame[0] == |chunk|
    ensures |chunk| > 252 ==> Number3(frame[1], frame[2], frame[3]) == |chunk| % LIMIT
  {
    Low3Number(|chunk|);
    hide Low3, Number3;
    assert |chunk| > 252 ==> frame[1..4][0] == frame[1] && frame[1..4][1] == frame[2] && frame[1..4][2] == frame[3];
  }

  /** The layout of a packet: start byte, a length of one byte up to 252 and of four above, the
      bytes, and two closing bytes; whoever reads all of it accepts it. */
  lemma {:induction false} PacketReads(data: seq<byte>, payload: seq<byte>, rest: seq<byte>, dataLen: nat,
                                       wantPayload: bool)
    requires |data| + |payload| < LIMIT
    requires |data| == (if dataLen == 0 then |data| + |payload| else dataLen) && (wantPayload || payload == [])
    ensures var n := |data| + |payload|;
      && |Packet(data, payload)| == (if n <= 252 then n + 4 else n + 7)
      && exists field, tail ::
          && Reads(Packet(data, payload) + rest, dataLen, wantPayload, field, n, data, payload, tail, rest)
          && Closes(field, data, payload, tail)
  {
    hide Sum, ReadHead, States;
    var n := |data| + |payload|;
    var field, tail := LenField(n), [Sum(LenField(n) + data + payload) % 256, 3];
    HeadOfPacket(data, payload, rest);
    StatedLength(n);
    HeadIff(Packet(data, payload) + rest, field, n, Body(data, payload) + rest);
    assert Body(data, payload) + rest == data + payload + tail + rest;
    assert Reads(Packet(data, payload) + rest, dataLen, wantPayload, field, n, data, payload, tail, rest);
  }
}
