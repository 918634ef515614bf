/** Byte streams through waiting readers and writers (pipes.c), as values: the
    descriptors of blocked threads and what a transfer does to them. */
module PipeStreams {
  import opened Rings

  const EIO := 5
  const EAGAIN := 11
  const EINVAL := 22

  /** A blocked reader's descriptor: bytes delivered so far, bytes still wanted. */
  datatype Sink = Sink(thread: Tid, got: seq<byte>, left: nat, least: nat)

  /** A blocked writer's descriptor: bytes already taken, bytes still to send. */
  datatype Source = Source(thread: Tid, sent: seq<byte>, rest: seq<byte>, least: nat)

  function Accept(r: Sink, bs: seq<byte>): Sink
    requires |bs| <= r.left
  {
    r.(got := r.got + bs, left := r.left - |bs|)
  }

  function Send(w: Source, n: nat): Source
    requires n <= |w.rest|
  {
    w.(sent := w.sent + w.rest[..n], rest := w.rest[n..])
  }

  /** Bytes the writers still hold, in queue order. */
  function Flat(ws: seq<Source>): (r: seq<byte>) {
    if ws == [] then [] else ws[0].rest + Flat(ws[1..])
  }

  /** Bytes the readers still want. */
  function Room(rs: seq<Sink>): nat {
    if rs == [] then 0 else rs[0].left + Room(rs[1..])
  }

  /** Takes up to `n` bytes from the writers, front first. */
  function Drain(ws: seq<Source>, n: nat): (r: seq<Source>)
    ensures |r| == |ws|
  {
    if ws == [] then []
    else var k := Min(n, |ws[0].rest|); [Send(ws[0], k)] + Drain(ws[1..], n - k)
  }

  /** Hands bytes to the readers, front first; bytes beyond their room are not used. */
  function Fill(rs: seq<Sink>, bs: seq<byte>): (r: seq<Sink>)
    ensures |r| == |rs|
  {
    if rs == [] then []
    else [Accept(rs[0], Clip(bs, rs[0].left))] + Fill(rs[1..], Past(bs, rs[0].left))
  }

  function Hungry(rs: seq<Sink>): seq<Sink> {
    if rs == [] then [] else (if rs[0].left > 0 then [rs[0]] else []) + Hungry(rs[1..])
  }

  function Satisfied(rs: seq<Sink>): seq<Sink> {
    if rs == [] then [] else (if rs[0].left == 0 then [rs[0]] else []) + Satisfied(rs[1..])
  }

  function Unfinished(ws: seq<Source>): seq<Source> {
    if ws == [] then [] else (if ws[0].rest != [] then [ws[0]] else []) + Unfinished(ws[1..])
  }

  function Finished(ws: seq<Source>): seq<Source> {
    if ws == [] then [] else (if ws[0].rest == [] then [ws[0]] else []) + Finished(ws[1..])
  }

  /** How many readers a walk of the queue visits before `n` bytes of room are seen. */
  function SinkWalk(rs: seq<Sink>, n: nat): (v: nat)
    ensures v <= |rs|
    ensures v < |rs| ==> Room(rs[..v]) >= n
  {
    if rs == [] then 0
    else if rs[0].left >= n then assert rs[..1] == [rs[0]]; 1
    else
      var v := 1 + SinkWalk(rs[1..], n - rs[0].left);
      assert rs[..v][1..] == rs[1..][..v - 1]; v
  }

  /** How many writers a walk of the queue visits before `n` bytes are seen. */
  function SourceWalk(ws: seq<Source>, n: nat): (v: nat)
    ensures v <= |ws|
    ensures v < |ws| ==> |Flat(ws[..v])| >= n
  {
    if ws == [] then 0
    else if |ws[0].rest| >= n then assert ws[..1] == [ws[0]]; 1
    else
      var v := 1 + SourceWalk(ws[1..], n - |ws[0].rest|);
      assert ws[..v][1..] == ws[1..][..v - 1]; v
  }

  // ---- one step of a transfer -------------------------------------------------

  lemma {:induction false} AcceptTwice(r: Sink, bs: seq<byte>, n: nat)
    requires n <= Min(r.left, |bs|)
    ensures var r' := Accept(r, bs[..n]);
      Accept(r', Clip(bs[n..], r'.left)) == Accept(r, Clip(bs, r.left))
  {
    assert bs[..n] + Clip(bs[n..], r.left - n) == Clip(bs, r.left);
    assert (r.got + bs[..n]) + Clip(bs[n..], r.left - n) == r.got + Clip(bs, r.left);
  }

  lemma {:induction false} FillStep(rs: seq<Sink>, bs: seq<byte>, n: nat)
    requires rs != [] && n <= Min(rs[0].left, |bs|)
    ensures Fill(rs, bs) == Fill([Accept(rs[0], bs[..n])] + rs[1..], bs[n..])
    ensures Room([Accept(rs[0], bs[..n])] + rs[1..]) == Room(rs) - n
  {
    var r := Accept(rs[0], bs[..n]);
    var rs' := [r] + rs[1..];
    assert rs'[0] == r && rs'[1..] == rs[1..];
    AcceptTwice(rs[0], bs, n);
    assert Past(bs, n) == bs[n..];
    PastTwice(bs, n, r.left);
    hide Past, Clip, Accept;
  }

  lemma {:induction false} FillSkip(r: Sink, rs: seq<Sink>, bs: seq<byte>)
    requires r.left == 0
    ensures Fill([r] + rs, bs) == [r] + Fill(rs, bs)
    ensures Room([r] + rs) == Room(rs)
  {
    assert ([r] + rs)[1..] == rs;
    assert Clip(bs, 0) == [] && Past(bs, 0) == bs;
    assert Accept(r, []) == r by { assert r.got + [] == r.got; }
  }

  lemma {:induction false} SendTwice(w: Source, n: nat, k: nat)
    requires n <= k <= |w.rest|
    ensures Send(Send(w, n), k - n) == Send(w, k)
  {
    TwoCuts(w.sent, w.rest, n, k);
  }

  lemma {:induction false} TwoCuts<T>(before: seq<T>, s: seq<T>, n: nat, k: nat)
    requires n <= k <= |s|
    ensures (before + s[..n]) + s[n..][..k - n] == before + s[..k]
    ensures s[n..][k - n..] == s[k..]
  {
    assert s[..n] + s[n..][..k - n] == s[..k];
    assert (before + s[..n]) + s[n..][..k - n] == before + (s[..n] + s[n..][..k - n]);
  }

  lemma {:induction false} DrainStep(ws: seq<Source>, room: nat, n: nat)
    requires ws != [] && n <= Min(room, |ws[0].rest|)
    ensures Drain(ws, room) == Drain([Send(ws[0], n)] + ws[1..], room - n)
  {
    var w, k := Send(ws[0], n), Min(room, |ws[0].rest|);
    var ws' := [w] + ws[1..];
    assert ws'[0] == w && ws'[1..] == ws[1..];
    assert |w.rest| == |ws[0].rest| - n;
    SendTwice(ws[0], n, k);
    hide Send;
    assert Drain(ws', room - n) == [Send(w, k - n)] + Drain(ws'[1..], room - k);
  }

  lemma {:induction false} FlatStep(ws: seq<Source>, n: nat)
    requires ws != [] && n <= |ws[0].rest|
    ensures Flat([Send(ws[0], n)] + ws[1..]) == Past(Flat(ws), n)
    ensures Clip(Flat(ws), n) == ws[0].rest[..n] && |Flat(ws)| >= n
  {
    assert ([Send(ws[0], n)] + ws[1..])[1..] == ws[1..];
    PastConcat(ws[0].rest, Flat(ws[1..]), n);
  }

  lemma {:induction false} DrainSkip(w: Source, ws: seq<Source>, room: nat)
    requires w.rest == []
    ensures Drain([w] + ws, room) == [w] + Drain(ws, room)
    ensures Flat([w] + ws) == Flat(ws)
  {
    assert ([w] + ws)[1..] == ws;
    assert w.sent + [] == w.sent;
    assert Send(w, 0) == w;
  }

  lemma {:induction false} DrainNone(ws: seq<Source>)
    ensures Drain(ws, 0) == ws
  {
    if ws != [] {
      DrainNone(ws[1..]);
      assert ws[0].sent + [] == ws[0].sent;
      assert Send(ws[0], 0) == ws[0];
    }
  }

  lemma {:induction false} FillNone(rs: seq<Sink>)
    ensures Fill(rs, []) == rs
  {
    if rs != [] {
      FillNone(rs[1..]);
      assert rs[0].got + [] == rs[0].got;
    }
  }

  /** The two descriptor lists of a transfer under way: still to do, and done. */
  datatype Lists = Lists(src: seq<Source>, srcDone: seq<Source>, rs: seq<Sink>, rsDone: seq<Sink>)

  /** `n` bytes leave the first source. */
  function FromSource(l: Lists, n: nat): Lists
    requires l.src != [] && n <= |l.src[0].rest|
  {
    l.(src := [Send(l.src[0], n)] + l.src[1..])
  }

  /** `n` bytes go from the first source to the first reader. */
  function ToReader(l: Lists, n: nat): Lists
    requires l.src != [] && l.rs != [] && n <= Min(l.rs[0].left, |l.src[0].rest|)
  {
    FromSource(l, n).(rs := [Accept(l.rs[0], l.src[0].rest[..n])] + l.rs[1..])
  }

  /** Moves on from a source or a reader that is used up. */
  function Settle(l: Lists): (l': Lists)
    requires l.src != []
    ensures |l'.src| + |l'.rs| <= |l.src| + |l.rs|
    ensures l.src[0].rest == [] || (l.rs != [] && l.rs[0].left == 0) ==> |l'.src| + |l'.rs| < |l.src| + |l.rs|
    ensures l.rs == [] ==> l'.rs == []
  {
    var l1 := if l.src[0].rest == [] then l.(src := l.src[1..], srcDone := l.srcDone + [l.src[0]]) else l;
    if l.rs != [] && l.rs[0].left == 0 then l1.(rs := l.rs[1..], rsDone := l.rsDone + [l.rs[0]]) else l1
  }

  /** How a transfer will end, with `free` bytes of ring to fill after the readers:
      final descriptors, byte count and ring contents. */
  ghost function Ending(l: Lists, free: nat, written: nat, ring: seq<byte>): (seq<Source>, seq<Sink>, nat, seq<byte>) {
    var f := Flat(l.src);
    (l.srcDone + Drain(l.src, Room(l.rs) + free),
     l.rsDone + Fill(l.rs, f),
     written + Min(|f|, Room(l.rs) + free),
     ring + Clip(Past(f, Room(l.rs)), free))
  }

  lemma {:induction false} ToReaderStep(l: Lists, n: nat, free: nat, written: nat, ring: seq<byte>)
    requires l.src != [] && l.rs != [] && n <= Min(l.rs[0].left, |l.src[0].rest|)
    ensures Ending(ToReader(l, n), free, written + n, ring) == Ending(l, free, written, ring)
  {
    hide Flat, Drain, Fill, Send, Accept;
    var f, room := Flat(l.src), Room(l.rs);
    FlatStep(l.src, n);
    DrainStep(l.src, room + free, n);
    FillStep(l.rs, f, n);
    assert Past(f, n) == f[n..] && Clip(f, n) == f[..n] && |f[n..]| == |f| - n;
    PastTwice(f, n, room - n);
  }

  lemma {:induction false} ToRingStep(l: Lists, n: nat, free: nat, written: nat, ring: seq<byte>)
    requires l.src != [] && l.rs == [] && n <= Min(free, |l.src[0].rest|)
    ensures Ending(FromSource(l, n), free - n, written + n, ring + l.src[0].rest[..n]) == Ending(l, free, written, ring)
  {
    var f := Flat(l.src);
    FlatStep(l.src, n);
    DrainStep(l.src, free, n);
    ClipTwice(f, n, free - n);
    assert |Past(f, n)| == |f| - n;
    assert Past(f, 0) == f && Past(Past(f, n), 0) == Past(f, n);
    assert Fill([], f) == [] && Fill([], Past(f, n)) == [] && Room([]) == 0;
    var head, tail := l.src[0].rest[..n], Clip(Past(f, n), free - n);
    assert (ring + head) + tail == ring + (head + tail);
    hide Flat, Drain, Fill, Room, Past, Clip, Send;
  }

  lemma {:induction false} SettleSource(l: Lists, free: nat, written: nat, ring: seq<byte>)
    requires l.src != [] && l.src[0].rest == []
    ensures Ending(l.(src := l.src[1..], srcDone := l.srcDone + [l.src[0]]), free, written, ring) ==
        Ending(l, free, written, ring)
  {
    hide Flat, Drain, Fill, Room, Past, Clip, Min;
    DrainSkip(l.src[0], l.src[1..], Room(l.rs) + free);
    assert l.src == [l.src[0]] + l.src[1..];
    var d := Drain(l.src[1..], Room(l.rs) + free);
    assert (l.srcDone + [l.src[0]]) + d == l.srcDone + ([l.src[0]] + d);
  }

  lemma {:induction false} SettleReader(l: Lists, free: nat, written: nat, ring: seq<byte>)
    requires l.rs != [] && l.rs[0].left == 0
    ensures Ending(l.(rs := l.rs[1..], rsDone := l.rsDone + [l.rs[0]]), free, written, ring) ==
        Ending(l, free, written, ring)
  {
    hide Flat, Drain, Fill, Room, Past, Clip, Min;
    FillSkip(l.rs[0], l.rs[1..], Flat(l.src));
    assert l.rs == [l.rs[0]] + l.rs[1..];
    var d := Fill(l.rs[1..], Flat(l.src));
    assert (l.rsDone + [l.rs[0]]) + d == l.rsDone + ([l.rs[0]] + d);
  }

  lemma {:induction false} SettleStep(l: Lists, free: nat, written: nat, ring: seq<byte>)
    requires l.src != []
    ensures Ending(Settle(l), free, written, ring) == Ending(l, free, written, ring)
  {
    hide Ending;
    var l1 := l;
    if l.src[0].rest == [] {
      SettleSource(l, free, written, ring);
      l1 := l.(src := l.src[1..], srcDone := l.srcDone + [l.src[0]]);
    }
    if l.rs != [] && l.rs[0].left == 0 {
      SettleReader(l1, free, written, ring);
    }
  }

  lemma {:induction false} TransferStart(src: seq<Source>, rs: seq<Sink>, free: nat, ring: seq<byte>)
    ensures Ending(Lists(src, [], rs, []), free, 0, ring) ==
      (Drain(src, Room(rs) + free), Fill(rs, Flat(src)), Min(|Flat(src)|, Room(rs) + free),
          ring + Clip(Past(Flat(src), Room(rs)), free))
  {
    hide Flat, Drain, Fill, Room, Past, Clip, Min;
    var d, f := Drain(src, Room(rs) + free), Fill(rs, Flat(src));
    assert [] + d == d && [] + f == f;
  }

  /** Once a side is used up the transfer has ended. */
  lemma {:induction false} TransferOver(l: Lists, free: nat, written: nat, ring: seq<byte>)
    requires l.src == [] || (l.rs == [] && free == 0)
    ensures Ending(l, free, written, ring) == (l.srcDone + l.src, l.rsDone + l.rs, written, ring)
  {
    var f := Flat(l.src);
    if l.src == [] {
      FillNone(l.rs);
      assert Past(f, Room(l.rs)) == [];
    } else {
      DrainNone(l.src);
    }
    assert Clip(Past(f, Room(l.rs)), free) == [];
    assert ring + [] == ring;
  }

  // ---- whole lists ------------------------------------------------------------

  lemma {:induction false} FlatConcat(a: seq<Source>, b: seq<Source>)
    ensures Flat(a + b) == Flat(a) + Flat(b)
  {
    if a == [] {
      assert a + b == b;
    } else {
      assert (a + b)[1..] == a[1..] + b;
      FlatConcat(a[1..], b);
    }
  }

  lemma {:induction false} FlatOne(w: Source)
    ensures Flat([w]) == w.rest
  {
    assert w.rest + [] == w.rest;
  }

  lemma {:induction false} RoomConcat(a: seq<Sink>, b: seq<Sink>)
    ensures Room(a + b) == Room(a) + Room(b)
  {
    if a == [] {
      assert a + b == b;
    } else {
      assert (a + b)[1..] == a[1..] + b;
      RoomConcat(a[1..], b);
    }
  }

  lemma {:induction false} DrainConcat(a: seq<Source>, b: seq<Source>, n: nat)
    ensures Drain(a + b, n) == Drain(a, n) + Drain(b, n - Min(n, |Flat(a)|))
  {
    if a == [] {
      assert a + b == b;
    } else {
      assert (a + b)[1..] == a[1..] + b;
      DrainConcat(a[1..], b, n - Min(n, |a[0].rest|));
    }
  }

  lemma {:induction false} FillHead(r: Sink, rs: seq<Sink>, bs: seq<byte>)
    ensures Fill([r] + rs, bs) == [Accept(r, Clip(bs, r.left))] + Fill(rs, Past(bs, r.left))
  {
    assert ([r] + rs)[1..] == rs;
  }

  lemma {:induction false} FillNobody(b: seq<Sink>, bs: seq<byte>)
    ensures Fill([], bs) + Fill(b, Past(bs, Room([]))) == Fill(b, bs)
  {
    assert Past(bs, 0) == bs;
  }

  lemma {:induction false} FillConcat(a: seq<Sink>, b: seq<Sink>, bs: seq<byte>)
    ensures Fill(a + b, bs) == Fill(a, bs) + Fill(b, Past(bs, Room(a)))
  {
    hide Past, Accept, Fill;
    if a == [] {
      assert a + b == b;
      FillNobody(b, bs);
    } else {
      var r, rest := a[0], a[1..];
      FillConcat(rest, b, Past(bs, r.left));
      PastTwice(bs, r.left, Room(rest));
      FillHead(r, rest, bs);
      FillHead(r, rest + b, bs);
      assert a == [r] + rest && a + b == [r] + (rest + b);
      var head, fa, fb := [Accept(r, Clip(bs, r.left))], Fill(rest, Past(bs, r.left)), Fill(b, Past(bs, Room(a)));
      assert head + (fa + fb) == (head + fa) + fb;
    }
  }

  /** Draining `n` bytes takes exactly the first `n` bytes of the flat stream. */
  lemma {:induction false} DrainFlat(ws: seq<Source>, n: nat)
    ensures Flat(Drain(ws, n)) == Past(Flat(ws), n)
  {
    hide Past, Clip, Send, Flat, Drain;
    if ws == [] {
      DrainNobody(n);
    } else {
      var w, rest, k := ws[0], ws[1..], Min(n, |ws[0].rest|);
      DrainFlat(rest, n - k);
      SendPast(w, n);
      PastConcat(w.rest, Flat(rest), n);
      FlatHead(w, rest);
      FlatHead(Send(w, k), Drain(rest, n - k));
      DrainHead(ws, n);
      assert ws == [w] + rest;
    }
  }

  lemma {:induction false} DrainNobody(n: nat)
    ensures Flat(Drain([], n)) == Past(Flat([]), n)
  {
  }

  lemma {:induction false} DrainHead(ws: seq<Source>, n: nat)
    requires ws != []
    ensures var k := Min(n, |ws[0].rest|); Drain(ws, n) == [Send(ws[0], k)] + Drain(ws[1..], n - k)
  {
  }

  lemma {:induction false} FlatHead(w: Source, ws: seq<Source>)
    ensures Flat([w] + ws) == w.rest + Flat(ws)
  {
    assert ([w] + ws)[1..] == ws;
  }

  lemma {:induction false} SendPast(w: Source, n: nat)
    ensures Send(w, Min(n, |w.rest|)).rest == Past(w.rest, n)
  {
  }

  /** Dropping finished writers leaves the stream alone. */
  lemma {:induction false} UnfinishedFlat(ws: seq<Source>)
    ensures Flat(Unfinished(ws)) == Flat(ws)
  {
    if ws != [] {
      UnfinishedFlat(ws[1..]);
      FlatConcat(if ws[0].rest != [] then [ws[0]] else [], Unfinished(ws[1..]));
      assert Flat([ws[0]]) == ws[0].rest + [];
    }
  }

  lemma {:induction false} FillRoom(rs: seq<Sink>, bs: seq<byte>)
    ensures Room(Fill(rs, bs)) == Room(rs) - Min(Room(rs), |bs|)
  {
    if rs != [] {
      FillRoom(rs[1..], Past(bs, rs[0].left));
      assert Fill(rs, bs)[1..] == Fill(rs[1..], Past(bs, rs[0].left));
    }
  }

  lemma {:induction false} HungryLeft(rs: seq<Sink>, r: Sink)
    requires r in Hungry(rs)
    ensures r.left > 0
  {
    if r in Hungry(rs[1..]) { HungryLeft(rs[1..], r); }
  }

  lemma {:induction false} AllHungry(rs: seq<Sink>)
    requires forall r :: r in rs ==> r.left > 0
    ensures Hungry(rs) == rs && Satisfied(rs) == []
  {
    if rs != [] { AllHungry(rs[1..]); }
  }

  lemma {:induction false} HungryConcat(a: seq<Sink>, b: seq<Sink>)
    ensures Hungry(a + b) == Hungry(a) + Hungry(b)
  {
    if a == [] {
      assert a + b == b;
    } else {
      assert (a + b)[0] == a[0] && (a + b)[1..] == a[1..] + b;
      HungryConcat(a[1..], b);
      var head := if a[0].left > 0 then [a[0]] else [];
      assert head + (Hungry(a[1..]) + Hungry(b)) == (head + Hungry(a[1..])) + Hungry(b);
    }
  }

  lemma {:induction false} SatisfiedConcat(a: seq<Sink>, b: seq<Sink>)
    ensures Satisfied(a + b) == Satisfied(a) + Satisfied(b)
  {
    if a == [] {
      assert a + b == b;
    } else {
      assert (a + b)[0] == a[0] && (a + b)[1..] == a[1..] + b;
      SatisfiedConcat(a[1..], b);
      var head := if a[0].left == 0 then [a[0]] else [];
      assert head + (Satisfied(a[1..]) + Satisfied(b)) == (head + Satisfied(a[1..])) + Satisfied(b);
    }
  }

  /** When all room is used up nobody stays hungry. */
  lemma {:induction false} NoRoomNoHungry(rs: seq<Sink>)
    requires Room(rs) == 0
    ensures Hungry(rs) == []
  {
    if rs != [] { NoRoomNoHungry(rs[1..]); }
  }

  /** The readers a put leaves waiting. */
  lemma {:induction false} StillWaiting(rs: seq<Sink>, data: seq<byte>)
    ensures forall r :: r in Hungry(Fill(rs, data)) ==> r.left > 0
    ensures |data| > Room(rs) ==> Hungry(Fill(rs, data)) == []
    ensures rs == [] ==> Hungry(Fill(rs, data)) == [] && Room(rs) == 0
  {
    forall r | r in Hungry(Fill(rs, data)) ensures r.left > 0 { HungryLeft(Fill(rs, data), r); }
    FillRoom(rs, data);
    if |data| > Room(rs) {
      NoRoomNoHungry(Fill(rs, data));
    }
  }

  lemma {:induction false} SplitHead(r: Sink, rs: seq<Sink>)
    ensures Satisfied([r] + rs) == (if r.left == 0 then [r] else []) + Satisfied(rs)
    ensures Hungry([r] + rs) == (if r.left > 0 then [r] else []) + Hungry(rs)
  {
    assert ([r] + rs)[1..] == rs;
  }

  /** Readers are served front first, so those satisfied stand ahead of those still hungry. */
  lemma {:induction false} SatisfiedFirst(rs: seq<Sink>, bs: seq<byte>)
    requires forall r :: r in rs ==> r.left > 0
    ensures Satisfied(Fill(rs, bs)) + Hungry(Fill(rs, bs)) == Fill(rs, bs)
  {
    hide Satisfied, Hungry;
    if rs == [] {
      AllHungry(Fill(rs, bs));
    } else {
      var k, rest := rs[0].left, rs[1..];
      var r, f := Accept(rs[0], Clip(bs, k)), Fill(rest, Past(bs, k));
      SplitHead(r, f);
      if |bs| >= k {
        SatisfiedFirst(rest, Past(bs, k));
        hide Fill;
        assert ([r] + Satisfied(f)) + Hungry(f) == [r] + (Satisfied(f) + Hungry(f));
        assert [] + Hungry(f) == Hungry(f);
      } else {
        FillNone(rest);
        AllHungry(rest);
        assert [] + [] + ([r] + rest) == [r] + rest;
      }
    }
  }

  lemma {:induction false} NoBytesNoUnfinished(ws: seq<Source>)
    requires Flat(ws) == []
    ensures Unfinished(ws) == []
    ensures forall w :: w in ws ==> w.rest == []
  {
    if ws != [] {
      assert |ws[0].rest| == 0;
      NoBytesNoUnfinished(ws[1..]);
    }
  }

  /** A walk that stops early still reaches every writer a drain of `n` bytes touches. */
  lemma {:induction false} WalkEnough(ws: seq<Source>, n: nat, m: nat)
    requires m <= n
    ensures var v := SourceWalk(ws, n);
      && Drain(ws, m) == Drain(ws[..v], m) + ws[v..]
      && Clip(Flat(ws), m) == Clip(Flat(ws[..v]), m)
      && Flat(ws) == Flat(ws[..v]) + Flat(ws[v..])
  {
    var v := SourceWalk(ws, n);
    assert ws == ws[..v] + ws[v..];
    DrainConcat(ws[..v], ws[v..], m);
    FlatConcat(ws[..v], ws[v..]);
    DrainNone(ws[v..]);
  }

  /** The same for readers, who are all hungry. */
  lemma {:induction false} SinkWalkEnough(rs: seq<Sink>, bs: seq<byte>)
    requires forall r :: r in rs ==> r.left > 0
    ensures var v := SinkWalk(rs, |bs|);
      && Room(rs) == Room(rs[..v]) + Room(rs[v..])
      && Fill(rs, bs) == Fill(rs[..v], bs) + rs[v..]
      && Hungry(Fill(rs, bs)) == Hungry(Fill(rs[..v], bs)) + rs[v..]
      && Satisfied(Fill(rs, bs)) == Satisfied(Fill(rs[..v], bs))
      && Past(bs, Room(rs)) == Past(bs, Room(rs[..v]))
  {
    var v := SinkWalk(rs, |bs|);
    assert rs == rs[..v] + rs[v..];
    RoomConcat(rs[..v], rs[v..]);
    FillConcat(rs[..v], rs[v..], bs);
    if v < |rs| {
      FillNone(rs[v..]);
    }
    AllHungry(rs[v..]);
    HungryConcat(Fill(rs[..v], bs), rs[v..]);
    SatisfiedConcat(Fill(rs[..v], bs), rs[v..]);
  }

  // ---- reading ----------------------------------------------------------------

  /** A read under way: bytes delivered, bytes still wanted, writers still to visit,
      visited writers that stay and visited writers that are released. */
  datatype Reading = Reading(got: seq<byte>, left: nat, todo: seq<Source>, kept: seq<Source>, woken: seq<Source>)

  /** The next writer hands over what is still wanted; it is released when it has
      nothing left. */
  function FromWriter(r: Reading): Reading
    requires r.todo != []
  {
    var m := Min(r.left, |r.todo[0].rest|);
    var w := Send(r.todo[0], m);
    var r' := r.(got := r.got + r.todo[0].rest[..m], left := r.left - m, todo := r.todo[1..]);
    if w.rest == [] then r'.(woken := r.woken + [w]) else r'.(kept := r.kept + [w])
  }

  function FromRing(r: Reading, bs: seq<byte>): Reading
    requires |bs| <= r.left
  {
    r.(got := r.got + bs, left := r.left - |bs|)
  }

  /** How a read will end, with `ring` stored ahead of the writers' bytes. */
  ghost function ReadEnding(r: Reading, ring: seq<byte>): (seq<byte>, seq<byte>, seq<Source>, seq<Source>) {
    var d := Drain(r.todo, r.left - Min(r.left, |ring|));
    (r.got + Clip(ring + Flat(r.todo), r.left), Past(ring, r.left), r.kept + Unfinished(d), r.woken + Finished(d))
  }

  lemma {:induction false} RingReadStep(r: Reading, ring: seq<byte>, m: nat)
    requires m <= Min(r.left, |ring|)
    ensures ReadEnding(FromRing(r, ring[..m]), ring[m..]) == ReadEnding(r, ring)
  {
    hide Flat, Drain, Clip, Past, Finished, Unfinished;
    RingCut(ring, Flat(r.todo), m, r.left);
    var rest := Clip(ring[m..] + Flat(r.todo), r.left - m);
    assert (r.got + ring[..m]) + rest == r.got + (ring[..m] + rest);
  }

  /** Reading `m` bytes off the ring first. */
  lemma {:induction false} RingCut(ring: seq<byte>, f: seq<byte>, m: nat, left: nat)
    requires m <= Min(left, |ring|)
    ensures Clip(ring + f, left) == ring[..m] + Clip(ring[m..] + f, left - m)
    ensures Past(ring, left) == Past(ring[m..], left - m) && |ring[m..]| == |ring| - m
  {
    assert ring + f == ring[..m] + (ring[m..] + f);
  }

  lemma {:induction false} DrainOne(ws: seq<Source>, n: nat)
    requires ws != []
    ensures var m := Min(n, |ws[0].rest|);
      var w, d := Send(ws[0], m), Drain(ws[1..], n - m);
      && Unfinished(Drain(ws, n)) == (if w.rest != [] then [w] else []) + Unfinished(d)
      && Finished(Drain(ws, n)) == (if w.rest == [] then [w] else []) + Finished(d)
  {
    var m := Min(n, |ws[0].rest|);
    assert Drain(ws, n)[0] == Send(ws[0], m) && Drain(ws, n)[1..] == Drain(ws[1..], n - m);
  }

  lemma {:induction false} ClipWriter(ws: seq<Source>, ring: seq<byte>, left: nat)
    requires ws != [] && (ring == [] || left == 0)
    ensures var m := Min(left, |ws[0].rest|);
      Clip(ring + Flat(ws), left) == ws[0].rest[..m] + Clip(ring + Flat(ws[1..]), left - m)
  {
    FlatHead(ws[0], ws[1..]);
    assert ws == [ws[0]] + ws[1..];
    hide Flat;
    var f := Flat(ws[1..]);
    if left > 0 {
      assert ring + Flat(ws) == ws[0].rest + f && ring + f == f;
      assert Clip(ws[0].rest, left) == ws[0].rest[..Min(left, |ws[0].rest|)];
      hide Clip;
      PastConcat(ws[0].rest, f, left);
    }
  }

  lemma {:induction false} WriterReadStep(r: Reading, ring: seq<byte>)
    requires r.todo != [] && (ring == [] || r.left == 0)
    ensures ReadEnding(FromWriter(r), ring) == ReadEnding(r, ring)
  {
    hide Flat, Drain, Clip, Finished, Unfinished;
    var m := Min(r.left, |r.todo[0].rest|);
    assert Past(ring, r.left - m) == Past(ring, r.left);
    assert r.left - Min(r.left, |ring|) == r.left && (r.left - m) - Min(r.left - m, |ring|) == r.left - m;
    hide Past, Min;
    DrainOne(r.todo, r.left);
    ClipWriter(r.todo, ring, r.left);
    var w := Send(r.todo[0], m);
    var head, rest := r.todo[0].rest[..m], Clip(ring + Flat(r.todo[1..]), r.left - m);
    assert (r.got + head) + rest == r.got + (head + rest);
    var d := Drain(r.todo[1..], r.left - m);
    if w.rest == [] {
      assert (r.woken + [w]) + Finished(d) == r.woken + ([w] + Finished(d));
      assert [] + Unfinished(d) == Unfinished(d);
    } else {
      assert (r.kept + [w]) + Unfinished(d) == r.kept + ([w] + Unfinished(d));
      assert [] + Finished(d) == Finished(d);
    }
  }

  lemma {:induction false} ReadStart(n: nat, ring: seq<byte>, ws: seq<Source>)
    ensures var d := Drain(ws, n - Min(n, |ring|));
      ReadEnding(Reading([], n, ws, [], []), ring) ==
          (Clip(ring + Flat(ws), n), Past(ring, n), Unfinished(d), Finished(d))
  {
    hide Flat, Drain, Clip, Past, Finished, Unfinished;
    var c, d := Clip(ring + Flat(ws), n), Drain(ws, n - Min(n, |ring|));
    assert [] + c == c && [] + Unfinished(d) == Unfinished(d) && [] + Finished(d) == Finished(d);
  }

  lemma {:induction false} ReadOver(r: Reading, ring: seq<byte>)
    requires r.todo == [] && (ring == [] || r.left == 0)
    ensures ReadEnding(r, ring) == (r.got, ring, r.kept, r.woken)
  {
    assert Clip(ring + Flat([]), r.left) == [];
    assert Past(ring, r.left) == ring;
    assert r.got + [] == r.got && r.kept + [] == r.kept && r.woken + [] == r.woken;
  }
}
