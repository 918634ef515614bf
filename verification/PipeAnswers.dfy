/** When a pipe call returns, and with what, when it waits, and whom a get lets go. */
module PipeAnswers {
  import opened Rings
  import opened PipeStreams
  import opened PipeSpec

  // ---- a put ------------------------------------------------------------------

  /** Bytes a put got rid of: what the waiting readers gained and what the ring grew by. */
  function Taken(v: View, e: PutEffect): int {
    |Gains(v.readers, Readers(e))| + |e.view.ring| - |v.ring|
  }

  /** A put is turned away exactly for a minimum above the whole (-EINVAL) or, not waiting,
      above the room there is (-EIO), and then nothing happened. Otherwise as many bytes are
      taken as there is room for; it waits exactly if it may, some are left, and those taken
      do not make up a minimum above 0; and if it does not wait, it returns 0 and their number. */
  predicate PutAnswered(v: View, data: seq<byte>, least: nat, noWait: bool, e: PutEffect)
    requires |v.ring| <= v.size
  {
    var room, taken := Room(v.readers) + v.size - |v.ring|, Taken(v, e);
    && e.view.size == v.size
    && (e.out == Returned(-EINVAL, 0) <==> least > |data|)
    && (e.out == Returned(-EIO, 0) <==> least <= |data| && noWait && room < least)
    && (e.out.Returned? && e.out.ret != 0 ==> e.view == v && e.woken == [])
    && (least <= |data| && !(noWait && room < least) ==>
          && taken == Min(|data|, room)
          && (e.out.Blocks? <==> !noWait && taken < |data| && (taken < least || least == 0))
          && (!e.out.Blocks? ==> e.out == Returned(0, taken)))
  }

  lemma {:induction false} PutAnswers(v: View, thread: Tid, data: seq<byte>, least: nat, noWait: bool, place: nat)
    requires Inv(v) && place <= |v.writers|
    ensures PutAnswered(v, data, least, noWait, Put(v, thread, data, least, noWait, place))
  {
    hide Put, Taken, Room, Stream, Flat;
    if PutRefused(v, data, least, noWait) {
      PutTurnsAway(v, thread, data, least, noWait, place);
    } else {
      hide PutAnswered, PutRefused;
      PutGoesOn(v, thread, data, least, noWait, place);
    }
  }

  lemma {:induction false} PutGoesOn(v: View, thread: Tid, data: seq<byte>, least: nat, noWait: bool, place: nat)
    requires Inv(v) && place <= |v.writers| && !PutRefused(v, data, least, noWait)
    ensures PutAnswered(v, data, least, noWait, Put(v, thread, data, least, noWait, place))
  {
    hide Taken, Fill, Satisfied, Hungry, Place, Room, Clip, Past, Stream, Flat;
    PutTakes(v, thread, data, least, noWait, place);
  }

  lemma {:induction false} PutTakes(v: View, thread: Tid, data: seq<byte>, least: nat, noWait: bool, place: nat)
    requires Inv(v) && place <= |v.writers| && !PutRefused(v, data, least, noWait)
    ensures var e, room := Put(v, thread, data, least, noWait, place), Room(v.readers) + v.size - |v.ring|;
      Taken(v, e) == Min(|data|, room) == |data| - |Past(Past(data, Room(v.readers)), v.size - |v.ring|)|
  {
    hide Served, Gains, Fill, Satisfied, Hungry, Place, Stream, Flat, Room;
    assert |v.ring| <= v.size;
    hide Inv;
    var e := Put(v, thread, data, least, noWait, place);
    PutServes(v, e, data);
    GainsOf(v, e, Clip(data, Room(v.readers)));
  }

  // ---- a get ------------------------------------------------------------------

  /** A get is turned away exactly for a minimum above the whole or, not waiting, above what
      there is, and then nothing happened. Otherwise it takes what there is, up to what it
      asks for; it waits exactly if it may, got less, and what it got does not make up a
      minimum above 0; and if it does not wait, it returns 0 and the number of bytes. */
  predicate GetAnswered(v: View, n: nat, least: nat, noWait: bool, e: GetEffect) {
    && e.view.size == v.size
    && (e.out == Returned(-EINVAL, 0) <==> least > n)
    && (e.out == Returned(-EIO, 0) <==> least <= n && noWait && |Stream(v)| < least)
    && (e.out.Returned? && e.out.ret != 0 ==> e.view == v && e.got == [] && e.woken == [])
    && (least <= n && !(noWait && |Stream(v)| < least) ==>
          && |e.got| == Min(n, |Stream(v)|)
          && (e.out.Blocks? <==> !noWait && |e.got| < n && (|e.got| < least || least == 0))
          && (!e.out.Blocks? ==> e.out == Returned(0, |e.got|)))
  }

  lemma {:induction false} GetAnswers(v: View, thread: Tid, n: nat, least: nat, noWait: bool, place: nat)
    requires Inv(v) && place <= |v.readers|
    ensures GetAnswered(v, n, least, noWait, CheckedGet(v, thread, n, least, noWait, place))
  {
    hide Stream, Flat, Drain, Finished, SourceWalk, Take, Refill, Place, Inv;
    if least <= n && !(noWait && |Stream(v)| < least) {
      assert |Clip(Stream(v), n)| == Min(n, |Stream(v)|);
      AfterTakeSize(v, n);
    }
  }

  lemma {:induction false} AfterTakeSize(v: View, n: nat)
    requires Inv(v)
    ensures |Take(v, n).ring| <= v.size && Refill(Take(v, n)).size == v.size
  {
    hide Flat, Drain, Unfinished, SourceWalk;
  }

  // ---- whom a get lets go -------------------------------------------------------

  /** Whose descriptors these are. */
  function Names(ws: seq<Source>): multiset<Tid> {
    if ws == [] then multiset{} else multiset{ws[0].thread} + Names(ws[1..])
  }

  /** The same writer later on: bytes only went from unsent to sent. */
  predicate SentOn(w: Source, w': Source) {
    w'.thread == w.thread && w'.least == w.least && w.sent <= w'.sent && w'.sent + w'.rest == w.sent + w.rest
  }

  /** Writer `i` has no byte left after the first `n` bytes of the pipe are gone, and the walk
      comes by it: it has seen fewer than `n` bytes ahead of it. */
  predicate LetGo(v: View, n: nat, i: nat)
    requires i < |v.writers|
  {
    if v.writers[i].rest == [] then i == 0 || |Flat(v.writers[..i])| < n
    else |v.ring| + |Flat(v.writers[..i + 1])| <= n
  }

  lemma {:induction false} FlatLonger(ws: seq<Source>, i: nat)
    requires i < |ws|
    ensures Flat(ws[..i + 1]) == Flat(ws[..i]) + ws[i].rest
  {
    assert ws[..i + 1] == ws[..i] + [ws[i]];
    FlatConcat(ws[..i], [ws[i]]);
    FlatOne(ws[i]);
  }

  lemma {:induction false} FlatFirst(ws: seq<Source>, i: nat)
    requires 0 < i <= |ws|
    ensures Flat(ws[..i]) == ws[0].rest + Flat(ws[1..][..i - 1])
  {
    assert ws[..i][0] == ws[0] && ws[..i][1..] == ws[1..][..i - 1];
  }

  /** What draining leaves of each writer. */
  lemma {:induction false} DrainAt(ws: seq<Source>, k: nat, i: nat)
    requires i < |ws|
    ensures SentOn(ws[i], Drain(ws, k)[i])
    ensures Drain(ws, k)[i].rest == [] <==> ws[i].rest == [] || |Flat(ws[..i + 1])| <= k
    decreases i
  {
    var n := Min(k, |ws[0].rest|);
    if i == 0 {
      FlatLonger(ws, 0);
      assert ws[..0] == [];
      SendSends(ws[0], n);
    } else {
      assert Drain(ws, k)[i] == Drain(ws[1..], k - n)[i - 1];
      hide Drain, Flat, SentOn;
      DrainAt(ws[1..], k - n, i - 1);
      FlatFirst(ws, i + 1);
      FlatLonger(ws[1..], i - 1);
    }
  }

  lemma {:induction false} SendSends(w: Source, n: nat)
    requires n <= |w.rest|
    ensures SentOn(w, Send(w, n)) && (Send(w, n).rest == [] <==> n == |w.rest|)
  {
    assert w.rest[..n] + w.rest[n..] == w.rest;
    assert (w.sent + w.rest[..n]) + w.rest[n..] == w.sent + (w.rest[..n] + w.rest[n..]);
  }

  lemma {:induction false} Sorts(ws: seq<Source>)
    requires ws != []
    ensures var w, rest := ws[0], ws[1..];
      && Finished(ws) == (if w.rest == [] then [w] + Finished(rest) else Finished(rest))
      && Unfinished(ws) == (if w.rest != [] then [w] + Unfinished(rest) else Unfinished(rest))
  {
  }

  lemma {:induction false} FinishedIn(ws: seq<Source>)
    ensures forall w :: w in Finished(ws) <==> w in ws && w.rest == []
    ensures forall w :: w in Unfinished(ws) <==> w in ws && w.rest != []
  {
    if ws != [] {
      var x, rest := ws[0], ws[1..];
      FinishedIn(rest);
      Sorts(ws);
      hide Finished, Unfinished;
      assert forall w :: w in ws <==> w == x || w in rest;
    }
  }

  /** Each writer is finished or not. */
  lemma {:induction false} NamesSorted(ws: seq<Source>)
    ensures Names(Finished(ws)) + Names(Unfinished(ws)) == Names(ws)
  {
    if ws != [] {
      var w, rest := ws[0], ws[1..];
      NamesSorted(rest);
      Sorts(ws);
      NamesHead(w, Finished(rest));
      NamesHead(w, Unfinished(rest));
      hide Finished, Unfinished;
    }
  }

  lemma {:induction false} NamesHead(w: Source, ws: seq<Source>)
    ensures Names([w] + ws) == multiset{w.thread} + Names(ws)
  {
    assert ([w] + ws)[1..] == ws;
  }

  lemma {:induction false} NamesConcat(a: seq<Source>, b: seq<Source>)
    ensures Names(a + b) == Names(a) + Names(b)
    decreases |a|
  {
    if a == [] {
      assert a + b == b;
    } else {
      assert (a + b)[0] == a[0] && (a + b)[1..] == a[1..] + b;
      NamesConcat(a[1..], b);
    }
  }

  lemma {:induction false} NamesDrain(ws: seq<Source>, k: nat)
    ensures Names(Drain(ws, k)) == Names(ws)
  {
    if ws != [] {
      var n := Min(k, |ws[0].rest|);
      var w, rest := Send(ws[0], n), Drain(ws[1..], k - n);
      assert Drain(ws, k) == [w] + rest && w.thread == ws[0].thread;
      hide Drain, Send;
      NamesDrain(ws[1..], k - n);
      NamesHead(w, rest);
    }
  }

  /** Whom the walk comes by. */
  lemma {:induction false} WalkSees(ws: seq<Source>, n: nat, i: nat)
    requires i < |ws|
    ensures i < SourceWalk(ws, n) <==> i == 0 || |Flat(ws[..i])| < n
    decreases i
  {
    if i > 0 {
      FlatFirst(ws, i);
      if |ws[0].rest| < n {
        WalkSees(ws[1..], n - |ws[0].rest|, i - 1);
        if i == 1 {
          assert ws[1..][..0] == [];
        }
      }
    }
  }

  /** Each writer is let go or goes on waiting, and who is let go is told by its place in the
      stream alone: it is let go with everything sent exactly if its last byte was taken. Who
      waits on has the bytes it had, some of them sent by now. */
  lemma {:induction false} GetReleases(v: View, thread: Tid, n: nat, least: nat, noWait: bool, place: nat)
    requires Inv(v) && place <= |v.readers| && !(noWait && |Stream(v)| < least)
    ensures var e := Get(v, thread, n, least, noWait, place);
      && Names(e.woken) + Names(e.view.writers) == Names(v.writers)
      && (forall i :: 0 <= i < |v.writers| && LetGo(v, n, i) ==> Emptied(v.writers[i]) in e.woken)
      && (forall w :: w in e.woken ==> exists i :: 0 <= i < |v.writers| && LetGo(v, n, i) && w == Emptied(v.writers[i]))
      && (forall w :: w in e.view.writers ==> exists i :: 0 <= i < |v.writers| && SentOn(v.writers[i], w))
  {
    hide Stream, Flat, Drain, Finished, Unfinished, SourceWalk, Place, LetGo, SentOn, Refill, Take, Emptied, Names;
    assert |v.ring| <= v.size;
    hide Inv;
    var seen, k := SourceWalk(v.writers, n), n - Min(n, |v.ring|);
    TakeReleases(v, n);
    RefillWaits(Take(v, n));
    forall w | w in Refill(Take(v, n)).writers
      ensures exists i :: 0 <= i < |v.writers| && SentOn(v.writers[i], w)
    {
      var j :| 0 <= j < |Take(v, n).writers| && SentOn(Take(v, n).writers[j], w);
      assert Take(v, n).writers[j] in Take(v, n).writers;
      var i :| 0 <= i < |v.writers| && SentOn(v.writers[i], Take(v, n).writers[j]);
      SentTwice(v.writers[i], Take(v, n).writers[j], w);
    }
  }

  /** The writer with everything sent. */
  function Emptied(w: Source): Source {
    Source(w.thread, w.sent + w.rest, [], w.least)
  }

  lemma {:induction false} SentTwice(a: Source, b: Source, c: Source)
    requires SentOn(a, b) && SentOn(b, c)
    ensures SentOn(a, c)
  {
  }

  lemma {:induction false} SentAll(w: Source, w': Source)
    requires SentOn(w, w') && w'.rest == []
    ensures w' == Emptied(w)
  {
    assert w'.sent + [] == w'.sent;
  }

  /** The bytes a walk visits decide who is done. */
  lemma {:induction false} VisitedDone(v: View, n: nat, i: nat)
    requires i < SourceWalk(v.writers, n)
    ensures var seen, k := SourceWalk(v.writers, n), n - Min(n, |v.ring|);
      && SentOn(v.writers[i], Drain(v.writers[..seen], k)[i])
      && (Drain(v.writers[..seen], k)[i].rest == [] <==> LetGo(v, n, i))
  {
    hide Drain, Flat, SourceWalk, SentOn;
    var seen, k := SourceWalk(v.writers, n), n - Min(n, |v.ring|);
    DrainAt(v.writers[..seen], k, i);
    WalkSees(v.writers, n, i);
    assert v.writers[..seen][..i + 1] == v.writers[..i + 1];
    FlatLonger(v.writers, i);
  }

  lemma {:induction false} NotVisited(v: View, n: nat, i: nat)
    requires i < |v.writers| && LetGo(v, n, i)
    ensures i < SourceWalk(v.writers, n)
  {
    hide Flat, SourceWalk;
    WalkSees(v.writers, n, i);
    FlatLonger(v.writers, i);
  }

  lemma {:induction false} TakeReleases(v: View, n: nat)
    ensures var seen, k := SourceWalk(v.writers, n), n - Min(n, |v.ring|);
      var woken := Finished(Drain(v.writers[..seen], k));
      && Names(woken) + Names(Take(v, n).writers) == Names(v.writers)
      && (forall i :: 0 <= i < |v.writers| && LetGo(v, n, i) ==> Emptied(v.writers[i]) in woken)
      && (forall w :: w in woken ==> exists i :: 0 <= i < |v.writers| && LetGo(v, n, i) && w == Emptied(v.writers[i]))
      && (forall w :: w in Take(v, n).writers ==> exists i :: 0 <= i < |v.writers| && SentOn(v.writers[i], w))
  {
    hide Drain, Flat, SourceWalk, SentOn, LetGo, Finished, Unfinished, Names, Emptied, Past;
    var ws, seen, k := v.writers, SourceWalk(v.writers, n), n - Min(n, |v.ring|);
    var d := Drain(ws[..seen], k);
    FinishedIn(d);
    TakeNames(ws, seen, k);
    forall i | 0 <= i < |ws| && LetGo(v, n, i) ensures Emptied(ws[i]) in Finished(d) {
      NotVisited(v, n, i);
      VisitedDone(v, n, i);
      SentAll(ws[i], d[i]);
      assert d[i] in d;
    }
    forall w | w in Finished(d) ensures exists i :: 0 <= i < |ws| && LetGo(v, n, i) && w == Emptied(ws[i]) {
      var i :| 0 <= i < |d| && d[i] == w;
      VisitedDone(v, n, i);
      SentAll(ws[i], d[i]);
    }
    forall w | w in Take(v, n).writers ensures exists i :: 0 <= i < |ws| && SentOn(ws[i], w) {
      if w in Unfinished(d) {
        var i :| 0 <= i < |d| && d[i] == w;
        VisitedDone(v, n, i);
      } else {
        var i :| seen <= i < |ws| && ws[i] == w;
        SentNothing(ws[i]);
      }
    }
  }

  lemma {:induction false} SentNothing(w: Source)
    ensures SentOn(w, w)
  {
  }

  lemma {:induction false} TakeNames(ws: seq<Source>, seen: nat, k: nat)
    requires seen <= |ws|
    ensures var d := Drain(ws[..seen], k);
      Names(Finished(d)) + Names(Unfinished(d) + ws[seen..]) == Names(ws)
  {
    hide Drain, Finished, Unfinished, Names;
    var d := Drain(ws[..seen], k);
    NamesSorted(d);
    NamesDrain(ws[..seen], k);
    NamesConcat(Unfinished(d), ws[seen..]);
    NamesConcat(ws[..seen], ws[seen..]);
    assert ws == ws[..seen] + ws[seen..];
  }

  lemma {:induction false} RefillWaits(v: View)
    requires |v.ring| <= v.size
    ensures Names(Refill(v).writers) == Names(v.writers)
    ensures forall w :: w in Refill(v).writers ==> exists i :: 0 <= i < |v.writers| && SentOn(v.writers[i], w)
  {
    hide Drain, Flat, SentOn, Names, Clip;
    var d := Drain(v.writers, v.size - |v.ring|);
    NamesDrain(v.writers, v.size - |v.ring|);
    forall w | w in d ensures exists i :: 0 <= i < |v.writers| && SentOn(v.writers[i], w) {
      var i :| 0 <= i < |d| && d[i] == w;
      DrainAt(v.writers, v.size - |v.ring|, i);
    }
  }
}
