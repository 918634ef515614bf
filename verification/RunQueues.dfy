/** The order threads run in: priority, then deadline, then arrival (z_sched_prio_cmp in
    sched.c), and insertion into a list kept in that order. */
module RunQueues {

  const MOD32 := 0x1_0000_0000
  const HALF32 := 0x8000_0000

  /** What decides a thread's place: lower priority numbers run first; `deadline` is the
      deadline before it is cut to 32 bits; `arrival` numbers the times of queueing. */
  datatype Rank = Rank(prio: int, deadline: int, arrival: nat)

  /** A value of type uint32_t read as int32_t. */
  function Signed32(x: int): (s: int)
    ensures -HALF32 <= s < HALF32
  {
    var u := x % MOD32;
    if u >= HALF32 then u - MOD32 else u
  }

  /** z_sched_prio_cmp: positive if `a` goes first; deadlines are compared in the 32-bit
      registers that hold them. */
  function PrioCmp(a: Rank, b: Rank): int {
    if a.prio != b.prio then b.prio - a.prio
    else Signed32(b.deadline % MOD32 - a.deadline % MOD32)
  }

  /** Deadlines less than half the 32-bit range apart. */
  predicate Near(a: Rank, b: Rank) {
    -HALF32 < a.deadline - b.deadline < HALF32
  }

  /** Priority, then true deadline. */
  predicate Sooner(a: Rank, b: Rank) {
    a.prio < b.prio || (a.prio == b.prio && a.deadline < b.deadline)
  }

  /** ... and then arrival. */
  predicate Before(a: Rank, b: Rank) {
    Sooner(a, b) || (a.prio == b.prio && a.deadline == b.deadline && a.arrival < b.arrival)
  }

  /** The wrapped difference is the true one exactly if that fits into 32 signed bits. */
  lemma {:induction false} WrappedDifference(d1: int, d2: int)
    ensures Signed32(d2 % MOD32 - d1 % MOD32) == d2 - d1 <==> -HALF32 <= d2 - d1 < HALF32
  {
    var q1, q2 := d1 / MOD32, d2 / MOD32;
    assert d1 == q1 * MOD32 + d1 % MOD32 && d2 == q2 * MOD32 + d2 % MOD32;
    var w := d2 % MOD32 - d1 % MOD32;
    assert d2 - d1 == (q2 - q1) * MOD32 + w;
    assert -MOD32 < w < MOD32;
    assert w % MOD32 == if w >= 0 then w else w + MOD32;
  }

  /** Inside the half-range window the comparison is the order on true deadlines. */
  lemma {:induction false} CmpIsOrder(a: Rank, b: Rank)
    requires Near(a, b)
    ensures PrioCmp(a, b) > 0 <==> Sooner(a, b)
    ensures PrioCmp(a, b) < 0 <==> Sooner(b, a)
    ensures PrioCmp(a, b) == 0 <==> a.prio == b.prio && a.deadline == b.deadline
  {
    WrappedDifference(a.deadline, b.deadline);
  }

  /** Hence it is total, antisymmetric in sign and transitive on any near threads. */
  lemma {:induction false} CmpIsTotalPreorder(a: Rank, b: Rank, c: Rank)
    requires Near(a, b) && Near(b, c) && Near(a, c)
    ensures PrioCmp(a, b) > 0 <==> PrioCmp(b, a) < 0
    ensures PrioCmp(a, b) >= 0 && PrioCmp(b, c) >= 0 ==> PrioCmp(a, c) >= 0
    ensures PrioCmp(a, b) > 0 && PrioCmp(b, c) >= 0 ==> PrioCmp(a, c) > 0
  {
    hide PrioCmp;
    CmpIsOrder(a, b);
    CmpIsOrder(b, a);
    CmpIsOrder(b, c);
    CmpIsOrder(a, c);
  }

  /** Outside the window it is not even transitive: three deadlines, each a third of the
      range after the last, go round in a circle. */
  lemma {:induction false} CmpNeedsWindow()
    ensures var a, b, c := Rank(0, 0, 0), Rank(0, 0x5555_5555, 1), Rank(0, 0xAAAA_AAAA, 2);
      PrioCmp(a, b) > 0 && PrioCmp(b, c) > 0 && PrioCmp(c, a) > 0
  {
  }

  // ---- the list run queue ----------------------------------------------------------

  ghost predicate Sorted(q: seq<Rank>) {
    forall i, j :: 0 <= i < j < |q| ==> Before(q[i], q[j])
  }

  /** z_priq_dumb_add: in front of the first member the newcomer beats. */
  function Slot(q: seq<Rank>, r: Rank): (p: nat)
    ensures p <= |q|
    ensures forall i :: 0 <= i < p ==> PrioCmp(r, q[i]) <= 0
    ensures p < |q| ==> PrioCmp(r, q[p]) > 0
  {
    if q == [] || PrioCmp(r, q[0]) > 0 then 0 else 1 + Slot(q[1..], r)
  }

  /** Adding the latest arrival keeps the list sorted, ties first come first served. */
  lemma {:induction false} AddSorted(q: seq<Rank>, r: Rank)
    requires Sorted(q) && forall i :: 0 <= i < |q| ==> Near(r, q[i]) && q[i].arrival < r.arrival
    ensures var p := Slot(q, r); Sorted(q[..p] + [r] + q[p..])
  {
    hide PrioCmp;
    var p := Slot(q, r);
    var q' := q[..p] + [r] + q[p..];
    forall i | 0 <= i < |q| ensures if i < p then Before(q[i], r) else Before(r, q[i]) {
      CmpIsOrder(r, q[i]);
      if i > p {
        CmpIsOrder(r, q[p]);
        assert Before(q[p], q[i]);
      }
    }
    forall i, j | 0 <= i < j < |q'| ensures Before(q'[i], q'[j]) {
      var a, b := if i < p then i else i - 1, if j < p then j else j - 1;
      assert q'[i] == if i == p then r else q[a];
      assert q'[j] == if j == p then r else q[b];
    }
  }

  lemma {:induction false} RemoveSorted(q: seq<Rank>, p: nat)
    requires Sorted(q) && p < |q|
    ensures Sorted(q[..p] + q[p + 1..])
  {
    var q' := q[..p] + q[p + 1..];
    assert forall i :: 0 <= i < |q'| ==> q'[i] == q[if i < p then i else i + 1];
  }

  // ---- lists in order of rank, arrival aside -------------------------------------------

  /** Nobody stands behind one it beats. */
  ghost predicate Ordered(q: seq<Rank>) {
    forall i, j :: 0 <= i < j < |q| ==> PrioCmp(q[i], q[j]) >= 0
  }

  ghost predicate AllNear(q: seq<Rank>) {
    forall i, j :: 0 <= i < |q| && 0 <= j < |q| ==> Near(q[i], q[j])
  }

  ghost predicate NearTo(q: seq<Rank>, r: Rank) {
    forall i :: 0 <= i < |q| ==> Near(q[i], r) && Near(r, q[i])
  }

  /** On either side of the newcomer's place stand those it does not beat, and those it
      beats. */
  lemma {:induction false} SlotParts(q: seq<Rank>, r: Rank, i: nat)
    requires Ordered(q) && AllNear(q) && NearTo(q, r) && i < |q|
    ensures if i < Slot(q, r) then PrioCmp(q[i], r) >= 0 else PrioCmp(r, q[i]) > 0
  {
    var at := Slot(q, r);
    hide PrioCmp, Slot;
    assert Near(r, q[i]) && Near(q[i], r) && Near(r, r) && Near(q[i], q[i]);
    if i < at {
      assert PrioCmp(r, q[i]) <= 0;
      CmpIsOrder(r, q[i]);
      CmpIsOrder(q[i], r);
    } else if i > at {
      assert Near(r, q[at]) && Near(q[at], q[i]) && PrioCmp(q[at], q[i]) >= 0;
      CmpIsTotalPreorder(r, q[at], q[i]);
    }
  }

  /** In order, and close enough together to be ordered. */
  ghost predicate InLine(q: seq<Rank>) {
    AllNear(q) && Ordered(q)
  }

  lemma {:induction false} NearPlaced(q: seq<Rank>, at: nat, r: Rank)
    requires AllNear(q) && NearTo(q, r) && at <= |q|
    ensures AllNear(q[..at] + [r] + q[at..])
  {
    var q' := q[..at] + [r] + q[at..];
    assert Near(r, r);
    hide Near;
    assert forall i :: 0 <= i < |q'| ==> q'[i] == if i < at then q[i] else if i == at then r else q[i - 1];
  }

  /** One more in its slot, and the list stays in line. */
  lemma {:induction false} SlotInLine(q: seq<Rank>, r: Rank)
    requires InLine(q) && NearTo(q, r)
    ensures var at := Slot(q, r); InLine(q[..at] + [r] + q[at..])
  {
    hide PrioCmp, Slot, AllNear, NearTo;
    var at := Slot(q, r);
    NearPlaced(q, at, r);
    var q' := q[..at] + [r] + q[at..];
    assert forall i :: 0 <= i < |q'| ==> q'[i] == if i < at then q[i] else if i == at then r else q[i - 1];
    forall i, j | 0 <= i < j < |q'| ensures PrioCmp(q'[i], q'[j]) >= 0 {
      if j == at {
        SlotParts(q, r, i);
      } else if i == at {
        SlotParts(q, r, j - 1);
      }
    }
  }

  /** One fewer, and the list stays in line. */
  lemma {:induction false} CutInLine(q: seq<Rank>, k: nat)
    requires InLine(q) && k < |q|
    ensures InLine(q[..k] + q[k + 1..])
  {
    hide PrioCmp, Near;
    var d := q[..k] + q[k + 1..];
    assert forall i :: 0 <= i < |d| ==> d[i] == q[if i < k then i else i + 1];
  }

  /** Neighbours in order make the whole list so. */
  lemma {:induction false} Neighbours(q: seq<Rank>, i: nat, j: nat)
    requires AllNear(q) && i < j < |q| && forall k :: 0 <= k < |q| - 1 ==> PrioCmp(q[k], q[k + 1]) >= 0
    ensures PrioCmp(q[i], q[j]) >= 0
    decreases j
  {
    hide PrioCmp, Near;
    if i < j - 1 {
      Neighbours(q, i, j - 1);
      CmpIsTotalPreorder(q[i], q[j - 1], q[j]);
    }
    assert PrioCmp(q[j - 1], q[j - 1 + 1]) >= 0;
  }

  /** The newcomer's slot is the one place behind those it does not beat and in front of one it
      beats. */
  lemma {:induction false} PlaceInLine(q: seq<Rank>, r: Rank, p: nat)
    requires InLine(q) && NearTo(q, r) && p <= |q|
    requires (forall i :: 0 <= i < p ==> PrioCmp(r, q[i]) <= 0) && (p < |q| ==> PrioCmp(r, q[p]) > 0)
    ensures InLine(q[..p] + [r] + q[p..])
  {
    hide PrioCmp, InLine, NearTo;
    assert p == Slot(q, r);
    hide Slot;
    SlotInLine(q, r);
  }

  /** With rank `r`, the one at place `i` stays where it stands: near the others, not behind one
      it beats, not in front of one that beats it. */
  ghost predicate FitsAt(q: seq<Rank>, i: nat, r: Rank)
    requires i < |q|
  {
    && (forall j :: 0 <= j < |q| && j != i ==> Near(r, q[j]))
    && (i > 0 ==> PrioCmp(q[i - 1], r) >= 0)
    && (i + 1 < |q| ==> PrioCmp(r, q[i + 1]) >= 0)
  }

  /** A list stays in line through a change of one rank if and only if that one fits where it
      stands. */
  lemma {:induction false} ChangeInLineIff(q: seq<Rank>, i: nat, r: Rank)
    requires InLine(q) && i < |q|
    ensures InLine(q[i := r]) <==> FitsAt(q, i, r)
  {
    var q' := q[i := r];
    assert Near(r, r) && forall a, b :: Near(a, b) <==> Near(b, a);
    hide PrioCmp, Near;
    if FitsAt(q, i, r) {
      forall a, b | 0 <= a < |q'| && 0 <= b < |q'| ensures Near(q'[a], q'[b]) {
        assert Near(q[a], q[b]);
      }
      forall k | 0 <= k < |q'| - 1 ensures PrioCmp(q'[k], q'[k + 1]) >= 0 {
        assert PrioCmp(q[k], q[k + 1]) >= 0;
      }
      forall a, b | 0 <= a < b < |q'| ensures PrioCmp(q'[a], q'[b]) >= 0 {
        Neighbours(q', a, b);
      }
    }
    if InLine(q') {
      forall j | 0 <= j < |q| && j != i ensures Near(r, q[j]) {
        assert Near(q'[i], q'[j]);
      }
      assert i > 0 ==> PrioCmp(q'[i - 1], q'[i]) >= 0;
      assert i + 1 < |q| ==> PrioCmp(q'[i], q'[i + 1]) >= 0;
    }
  }
}
