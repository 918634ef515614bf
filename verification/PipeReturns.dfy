/** What blocked pipe calls return once they are woken (pipe_return_code in pipes.c). */
module PipeReturns {
  import opened Rings
  import opened PipeStreams
  import opened PipeSpec
  import opened PipeRuns

  /** pipe_return_code: 0 if at least the minimum was transferred. */
  function ReturnCode(least: nat, remaining: nat, requested: nat): int {
    if requested - remaining >= least then 0 else -EAGAIN
  }

  function ReaderCode(r: Sink): int {
    ReturnCode(r.least, r.left, |r.got| + r.left)
  }

  function WriterCode(w: Source): int {
    ReturnCode(w.least, |w.rest|, |w.sent| + |w.rest|)
  }

  /** Nobody waits for a minimum above what was asked for. */
  predicate FairReader(r: Sink) {
    r.least <= |r.got| + r.left
  }

  predicate FairWriter(w: Source) {
    w.least <= |w.sent| + |w.rest|
  }

  ghost predicate Fair(v: View) {
    (forall r :: r in v.readers ==> FairReader(r)) && (forall w :: w in v.writers ==> FairWriter(w))
  }

  lemma {:induction false} FillFair(rs: seq<Sink>, bs: seq<byte>)
    requires forall r :: r in rs ==> FairReader(r)
    ensures forall r :: r in Fill(rs, bs) ==> FairReader(r)
  {
    hide Fill;
    forall i | 0 <= i < |rs| ensures FairReader(Fill(rs, bs)[i]) {
      assert rs[i] in rs;
      FillKeeps(rs, bs, i);
    }
  }

  lemma {:induction false} PartsOfReaders(rs: seq<Sink>)
    ensures forall r :: r in Hungry(rs) ==> r in rs
    ensures forall r :: r in Satisfied(rs) ==> r in rs && r.left == 0
  {
    if rs != [] {
      PartsOfReaders(rs[1..]);
    }
  }

  lemma {:induction false} PartsOfWriters(ws: seq<Source>)
    ensures forall w :: w in Unfinished(ws) ==> w in ws
    ensures forall w :: w in Finished(ws) ==> w in ws && w.rest == []
  {
    if ws != [] {
      PartsOfWriters(ws[1..]);
    }
  }

  /** A writer's bytes only move from unsent to sent. */
  lemma {:induction false} DrainFair(ws: seq<Source>, n: nat)
    requires forall w :: w in ws ==> FairWriter(w)
    ensures forall w :: w in Drain(ws, n) ==> FairWriter(w)
  {
    if ws != [] {
      assert ws[0] in ws;
      DrainFair(ws[1..], n - Min(n, |ws[0].rest|));
    }
  }

  /** Every reader a put wakes has what it asked for and returns 0; nobody who waits asks for
      too much. */
  lemma {:induction false} PutWakes(v: View, thread: Tid, data: seq<byte>, least: nat, noWait: bool, place: nat)
    requires Inv(v) && Fair(v) && place <= |v.writers|
    ensures var e := Put(v, thread, data, least, noWait, place);
      Fair(e.view) && forall r :: r in e.woken ==> r.left == 0 && ReaderCode(r) == 0
  {
    var filled := Fill(v.readers, data);
    FillFair(v.readers, data);
    PartsOfReaders(filled);
    hide Fill, Hungry, Satisfied, Room, Past, Clip, Inv;
    if !PutRefused(v, data, least, noWait) {
      PutRemainder(v, thread, data, least, noWait, place);
    }
  }

  lemma {:induction false} PutRemainder(v: View, thread: Tid, data: seq<byte>, least: nat, noWait: bool, place: nat)
    requires Inv(v) && Fair(v) && place <= |v.writers| && !PutRefused(v, data, least, noWait)
    ensures forall w :: w in Put(v, thread, data, least, noWait, place).view.writers ==> FairWriter(w)
  {
    var rest := Past(Past(data, Room(v.readers)), v.size - |v.ring|);
    var x := Source(thread, data[..|data| - |rest|], rest, least);
    PlacedIn(v.writers, place, x);
    hide Fill, Hungry, Satisfied, Room, Flat, Stream;
  }

  /** The writers a take leaves waiting, and those it is done with. */
  lemma {:induction false} TakeFair(v: View, n: nat)
    requires forall w :: w in v.writers ==> FairWriter(w)
    ensures forall w :: w in Take(v, n).writers ==> FairWriter(w)
    ensures forall w :: w in Finished(Drain(v.writers[..SourceWalk(v.writers, n)], n - Min(n, |v.ring|))) ==>
      w.rest == [] && WriterCode(w) == 0
  {
    hide Drain, Finished, Unfinished, SourceWalk, Past;
    var seen := SourceWalk(v.writers, n);
    var visited := v.writers[..seen];
    assert forall w :: w in visited ==> w in v.writers;
    DrainFair(visited, n - Min(n, |v.ring|));
    PartsOfWriters(Drain(visited, n - Min(n, |v.ring|)));
  }

  lemma {:induction false} RefillFair(v: View)
    requires |v.ring| <= v.size && forall w :: w in v.writers ==> FairWriter(w)
    ensures forall w :: w in Refill(v).writers ==> FairWriter(w)
  {
    hide Drain, Flat, Clip;
    DrainFair(v.writers, v.size - |v.ring|);
  }

  /** Every writer a get wakes has sent all it had and returns 0. */
  lemma {:induction false} GetWakes(v: View, thread: Tid, n: nat, least: nat, noWait: bool, place: nat)
    requires Inv(v) && Fair(v) && place <= |v.readers| && least <= n
    ensures var e := Get(v, thread, n, least, noWait, place);
      Fair(e.view) && forall w :: w in e.woken ==> w.rest == [] && WriterCode(w) == 0
  {
    hide Take, Refill, Drain, Finished, SourceWalk, Stream, Flat, Past, FairWriter, WriterCode;
    TakeFair(v, n);
    RefillFair(Take(v, n));
    var got := Clip(Stream(v), n);
    PlacedIn(v.readers, place, Sink(thread, got, n - |got|, least));
  }

  lemma {:induction false} StepFair(t: Trace, c: Call)
    requires Inv(t.view) && Fair(t.view)
    ensures Fair(Step(t, c).view)
  {
    match c
    case PutCall(thread, data, least, noWait, place) =>
      hide Inv, Put, Fair;
      PutWakes(t.view, thread, data, least, noWait, Min(place, |t.view.writers|));
    case GetCall(thread, n, least, noWait, place) =>
      hide Inv, Get, Fair;
      if least <= n {
        GetWakes(t.view, thread, n, least, noWait, Min(place, |t.view.readers|));
      }
    case ReaderTimeout(i) =>
    case WriterTimeout(i) =>
  }

  /** Whoever the next put or get wakes returns 0. */
  ghost predicate WakesWell(v: View) {
    && (forall thread, data, least, noWait, place ::
          |v.ring| <= v.size && 0 <= place <= |v.writers| ==>
            forall r :: r in Put(v, thread, data, least, noWait, place).woken ==> r.left == 0 && ReaderCode(r) == 0)
    && (forall thread, n, least, noWait, place ::
          |v.ring| <= v.size && 0 <= place <= |v.readers| && least <= n ==>
            forall w :: w in Get(v, thread, n, least, noWait, place).woken ==> w.rest == [] && WriterCode(w) == 0)
  }

  lemma {:induction false} FairWakesWell(v: View)
    requires Inv(v) && Fair(v)
    ensures WakesWell(v)
  {
    hide Inv, Fair, Put, Get, ReaderCode, WriterCode;
    forall thread, data, least, noWait, place | |v.ring| <= v.size && 0 <= place <= |v.writers|
      ensures forall r :: r in Put(v, thread, data, least, noWait, place).woken ==> r.left == 0 && ReaderCode(r) == 0
    {
      PutWakes(v, thread, data, least, noWait, place);
    }
    forall thread, n, least, noWait, place | |v.ring| <= v.size && 0 <= place <= |v.readers| && least <= n
      ensures forall w :: w in Get(v, thread, n, least, noWait, place).woken ==> w.rest == [] && WriterCode(w) == 0
    {
      GetWakes(v, thread, n, least, noWait, place);
    }
  }

  /** In every run nobody waits for a minimum above what was asked for, and whoever the next
      call wakes returns 0. */
  lemma {:induction false} FairInEveryRun(t: Trace, cs: seq<Call>, t': Trace)
    requires Inv(t.view) && Conserved(t) && Fair(t.view) && Reaches(t, cs, t')
    ensures Inv(t'.view) && Conserved(t') && Fair(t'.view) && WakesWell(t'.view)
    decreases |cs|
  {
    hide Inv, Conserved, Fair, Step, WakesWell;
    if cs != [] {
      StepFair(t, cs[0]);
      StepKeeps(t, cs[0]);
      FairInEveryRun(Step(t, cs[0]), cs[1..], t');
    } else {
      FairWakesWell(t.view);
    }
  }

  /** A reader whose wait times out, in any run, keeps what it got: it returns 0 exactly if
      that is at least its minimum, the stream and the history stay as they are, and the other
      readers keep their places. */
  lemma {:induction false} ReaderTimesOut(t: Trace, cs: seq<Call>, t': Trace, i: nat)
    requires Inv(t.view) && Conserved(t) && Fair(t.view) && Reaches(t, cs, t') && i < |t'.view.readers|
    ensures Inv(t'.view)
    ensures var r, after := t'.view.readers[i], Step(t', ReaderTimeout(i));
      && ReaderCode(r) == (if |r.got| >= r.least then 0 else -EAGAIN) && r.left > 0
      && after == t'.(view := t'.view.(readers := Without(t'.view.readers, i)))
      && Inv(after.view) && Conserved(after) && Stream(after.view) == Stream(t'.view)
  {
    FairInEveryRun(t, cs, t');
    assert t'.view.readers[i] in t'.view.readers;
    assert Inv(t'.view) && t'.view.readers[i].left > 0;
    hide Inv, Conserved, Fair, WakesWell;
    StepKeeps(t', ReaderTimeout(i));
  }

  /** A writer whose wait times out, in any run, takes back exactly the bytes not yet taken:
      the stream loses those and no others, and it returns 0 exactly if what was
      taken is at least its minimum. */
  lemma {:induction false} WriterTimesOut(t: Trace, cs: seq<Call>, t': Trace, i: nat)
    requires Inv(t.view) && Conserved(t) && Fair(t.view) && Reaches(t, cs, t') && i < |t'.view.writers|
    ensures Inv(t'.view)
    ensures var w, after := t'.view.writers[i], Step(t', WriterTimeout(i));
      && WriterCode(w) == (if |w.sent| >= w.least then 0 else -EAGAIN)
      && after.withdrawn == t'.withdrawn + multiset(w.rest)
      && multiset(Stream(t'.view)) == multiset(Stream(after.view)) + multiset(w.rest)
      && after.accepted == t'.accepted && after.delivered == t'.delivered && Inv(after.view) && Conserved(after)
  {
    hide Inv, Conserved, Fair, WakesWell, Stream, Reaches, Step;
    FairInEveryRun(t, cs, t');
    StepKeeps(t', WriterTimeout(i));
    TakesBack(t', i);
  }

  lemma {:induction false} TakesBack(t: Trace, i: nat)
    requires Inv(t.view) && i < |t.view.writers|
    ensures var w, after := t.view.writers[i], Step(t, WriterTimeout(i));
      && after.withdrawn == t.withdrawn + multiset(w.rest)
      && multiset(Stream(t.view)) == multiset(Stream(after.view)) + multiset(w.rest)
      && after.accepted == t.accepted && after.delivered == t.delivered
  {
    var ws := t.view.writers;
    hide Flat;
    FlatWithout(ws, i);
    var before, after := Flat(ws), Flat(Without(ws, i));
    hide Without;
    assert multiset(t.view.ring + before) == multiset(t.view.ring) + multiset(before);
    assert multiset(t.view.ring + after) == multiset(t.view.ring) + multiset(after);
  }
}
