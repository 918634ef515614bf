/** The balanced-tree run queue of priority_queues.c. The tree library is an ordered
    sequence here; what is modelled is the order key that breaks ties and its
    renumbering when the 32-bit counter wraps. */
module RbQueues {
  import opened RunQueues

  const KEY_MAX := 0xFFFF_FFFF

  /** A queued thread; `late` marks one that was added at a wraparound. */
  datatype RbNode = RbNode(thread: nat, rank: Rank, key: nat, late: bool)

  /** z_priq_rb_lessthan. */
  predicate LessThan(a: RbNode, b: RbNode) {
    var cmp := PrioCmp(a.rank, b.rank);
    cmp > 0 || (cmp == 0 && a.key < b.key)
  }

  predicate SameRank(a: RbNode, b: RbNode) {
    a.rank.prio == b.rank.prio && a.rank.deadline == b.rank.deadline
  }

  ghost predicate TreeOrder(t: seq<RbNode>) {
    forall i, j :: 0 <= i < j < |t| ==> LessThan(t[i], t[j])
  }

  ghost predicate Window(t: seq<RbNode>) {
    forall i, j :: 0 <= i < |t| && 0 <= j < |t| ==> Near(t[i].rank, t[j].rank)
  }

  ghost predicate DistinctKeys(t: seq<RbNode>) {
    forall i, j :: 0 <= i < j < |t| ==> t[i].key != t[j].key
  }

  /** Among equals, threads stand in order of arrival, except that a latecomer may have been
      overtaken: it stands behind all who came before it, and perhaps some who came after. */
  ghost predicate Fifo(t: seq<RbNode>) {
    forall i, j :: 0 <= i < j < |t| && SameRank(t[i], t[j]) && !t[j].late ==>
      t[i].rank.arrival < t[j].rank.arrival
  }

  /** Keys in use are below the counter, but for the top key a latecomer may hold. */
  ghost predicate KeysBelow(t: seq<RbNode>, next: nat) {
    && next <= KEY_MAX
    && forall i :: 0 <= i < |t| ==> t[i].key < next || (t[i].key == KEY_MAX && t[i].late)
  }

  ghost predicate Inv(t: seq<RbNode>, next: nat) {
    Window(t) && TreeOrder(t) && DistinctKeys(t) && Fifo(t) && KeysBelow(t, next)
  }

  /** Keys 0, 1, 2 and so on in tree order. */
  function Renumbered(t: seq<RbNode>): (r: seq<RbNode>)
    ensures |r| == |t|
  {
    seq(|t|, i requires 0 <= i < |t| => t[i].(key := i))
  }

  /** Where the tree puts a node: in front of the first node it is less than. */
  function TreeSlot(t: seq<RbNode>, x: RbNode): (p: nat)
    ensures p <= |t|
    ensures forall i :: 0 <= i < p ==> !LessThan(x, t[i])
    ensures p < |t| ==> LessThan(x, t[p])
  {
    if t == [] || LessThan(x, t[0]) then 0 else 1 + TreeSlot(t[1..], x)
  }

  /** z_priq_rb_add: the tree and the counter after adding a thread. */
  function Add(t: seq<RbNode>, next: nat, thread: nat, rank: Rank): (r: (seq<RbNode>, nat)) {
    var wrap := next == KEY_MAX;
    var t1 := if wrap then Renumbered(t) else t;
    var x := RbNode(thread, rank, next, wrap);
    var p := TreeSlot(t1, x);
    (t1[..p] + [x] + t1[p..], if wrap then |t| else next + 1)
  }

  /** Renumbering keeps the order of the tree and the rest, and frees the upper keys. */
  lemma {:induction false} RenumberKeeps(t: seq<RbNode>, next: nat)
    requires Inv(t, next) && |t| < KEY_MAX
    ensures Inv(Renumbered(t), |t|) && forall i :: 0 <= i < |t| ==> Renumbered(t)[i].key < |t|
  {
    var r := Renumbered(t);
    forall i, j | 0 <= i < j < |r| ensures LessThan(r[i], r[j]) {
      assert LessThan(t[i], t[j]);
    }
    forall i, j | 0 <= i < j < |r| && SameRank(r[i], r[j]) && !r[j].late
      ensures r[i].rank.arrival < r[j].rank.arrival
    {
      assert SameRank(t[i], t[j]);
    }
    hide LessThan, Near;
    assert forall i :: 0 <= i < |r| ==> r[i].rank == t[i].rank;
    assert Window(r);
  }

  lemma {:induction false} LessTransitive(a: RbNode, b: RbNode, c: RbNode)
    requires Near(a.rank, b.rank) && Near(b.rank, c.rank) && Near(a.rank, c.rank)
    requires LessThan(a, b) && LessThan(b, c)
    ensures LessThan(a, c)
  {
    hide PrioCmp;
    CmpIsOrder(a.rank, b.rank);
    CmpIsOrder(b.rank, c.rank);
    CmpIsOrder(a.rank, c.rank);
  }

  lemma {:induction false} LessTotal(a: RbNode, b: RbNode)
    requires Near(a.rank, b.rank) && a.key != b.key
    ensures LessThan(a, b) || LessThan(b, a)
    ensures SameRank(a, b) ==> (LessThan(a, b) <==> a.key < b.key)
  {
    hide PrioCmp;
    CmpIsOrder(a.rank, b.rank);
    CmpIsOrder(b.rank, a.rank);
  }

  /** Inserting a node with a fresh key: it is after everything in front of its slot. */
  lemma {:induction false} SlotSplits(t: seq<RbNode>, x: RbNode)
    requires TreeOrder(t) && Window(t)
    requires forall i :: 0 <= i < |t| ==> Near(t[i].rank, x.rank) && t[i].key != x.key
    ensures forall i :: 0 <= i < |t| ==> if i < TreeSlot(t, x) then LessThan(t[i], x) else LessThan(x, t[i])
  {
    hide LessThan, Near;
    var p := TreeSlot(t, x);
    forall i | 0 <= i < |t| ensures if i < p then LessThan(t[i], x) else LessThan(x, t[i]) {
      NearSwap(t[i].rank, x.rank);
      if i < p {
        LessTotal(x, t[i]);
      } else if i > p {
        NearSwap(t[p].rank, x.rank);
        LessTransitive(x, t[p], t[i]);
      }
    }
  }

  lemma {:induction false} NearSwap(a: Rank, b: Rank)
    requires Near(a, b)
    ensures Near(b, a)
  {
  }

  function Insert(t: seq<RbNode>, p: nat, x: RbNode): (t': seq<RbNode>)
    requires p <= |t|
    ensures |t'| == |t| + 1
    ensures forall i :: 0 <= i < |t'| ==> t'[i] == if i < p then t[i] else if i == p then x else t[i - 1]
  {
    t[..p] + [x] + t[p..]
  }

  lemma {:induction false} InsertTreeOrder(t: seq<RbNode>, x: RbNode)
    requires TreeOrder(t) && Window(t)
    requires forall i :: 0 <= i < |t| ==> Near(t[i].rank, x.rank) && t[i].key != x.key
    ensures TreeOrder(Insert(t, TreeSlot(t, x), x))
  {
    hide LessThan, Near;
    SlotSplits(t, x);
  }

  lemma {:induction false} InsertWindow(t: seq<RbNode>, p: nat, x: RbNode)
    requires Window(t) && p <= |t| && forall i :: 0 <= i < |t| ==> Near(t[i].rank, x.rank)
    ensures Window(Insert(t, p, x))
  {
    hide Near;
    NearSelf(x.rank);
    forall i | 0 <= i < |t| ensures Near(x.rank, t[i].rank) { NearSwap(t[i].rank, x.rank); }
  }

  lemma {:induction false} InsertFifo(t: seq<RbNode>, x: RbNode)
    requires TreeOrder(t) && Window(t) && Fifo(t)
    requires forall i :: 0 <= i < |t| ==>
        Near(t[i].rank, x.rank) && t[i].key != x.key && t[i].rank.arrival < x.rank.arrival
    requires forall i :: 0 <= i < |t| && (x.late || !t[i].late) ==> t[i].key < x.key
    ensures Fifo(Insert(t, TreeSlot(t, x), x))
  {
    hide LessThan, Near, SameRank;
    SlotSplits(t, x);
    forall i | 0 <= i < |t| && SameRank(x, t[i]) && (x.late || !t[i].late) ensures i < TreeSlot(t, x) {
      NearSwap(t[i].rank, x.rank);
      LessTotal(x, t[i]);
    }
  }

  lemma {:induction false} InsertKeeps(t: seq<RbNode>, next: nat, x: RbNode, next': nat)
    requires Inv(t, next) && next <= next' <= KEY_MAX
    requires forall i :: 0 <= i < |t| ==>
        Near(t[i].rank, x.rank) && t[i].key != x.key && t[i].rank.arrival < x.rank.arrival
    requires x.key < next' || (x.key == KEY_MAX && x.late)
    requires forall i :: 0 <= i < |t| && (x.late || !t[i].late) ==> t[i].key < x.key
    ensures var p := TreeSlot(t, x); Inv(t[..p] + [x] + t[p..], next')
  {
    hide LessThan, Near, SameRank, TreeOrder, Window, Fifo;
    var p := TreeSlot(t, x);
    InsertTreeOrder(t, x);
    InsertWindow(t, p, x);
    InsertFifo(t, x);
    assert t[..p] + [x] + t[p..] == Insert(t, p, x);
  }

  lemma {:induction false} NearSelf(a: Rank)
    ensures Near(a, a)
  {
  }

  /** Adding a thread keeps the tree in strict order with pairwise distinct keys, and first
      come first served, except that a thread added at a wraparound may be overtaken. */
  lemma {:induction false} AddKeeps(t: seq<RbNode>, next: nat, thread: nat, rank: Rank)
    requires Inv(t, next) && |t| < KEY_MAX
    requires forall i :: 0 <= i < |t| ==> Near(t[i].rank, rank) && t[i].rank.arrival < rank.arrival
    ensures var r := Add(t, next, thread, rank); Inv(r.0, r.1)
  {
    hide LessThan, Near, SameRank, TreeOrder, Window, Fifo, DistinctKeys;
    if next == KEY_MAX {
      RenumberKeeps(t, next);
      InsertKeeps(Renumbered(t), |t|, RbNode(thread, rank, next, true), |t|);
    } else {
      InsertKeeps(t, next, RbNode(thread, rank, next, false), next + 1);
    }
  }

  /** A newcomer overtakes an equal if and only if that one holds the top key; so a latecomer
      is overtaken until keys are renumbered, and nobody else ever. */
  lemma {:induction false} OvertakenIff(t: seq<RbNode>, next: nat, thread: nat, rank: Rank, i: nat)
    requires Inv(t, next) && next < KEY_MAX && i < |t|
    requires forall j :: 0 <= j < |t| ==> Near(t[j].rank, rank) && t[j].rank.arrival < rank.arrival
    requires t[i].rank.prio == rank.prio && t[i].rank.deadline == rank.deadline
    ensures TreeSlot(t, RbNode(thread, rank, next, false)) <= i <==> t[i].key == KEY_MAX
    ensures t[i].key == KEY_MAX ==> t[i].late
  {
    var x := RbNode(thread, rank, next, false);
    hide LessThan, Near, TreeOrder, Window, Fifo, DistinctKeys;
    SlotSplits(t, x);
    NearSwap(t[i].rank, rank);
    LessTotal(x, t[i]);
    LessTotal(t[i], x);
    NotBoth(x, t[i]);
  }

  lemma {:induction false} NotBoth(a: RbNode, b: RbNode)
    ensures SameRank(a, b) ==> !(LessThan(a, b) && LessThan(b, a))
  {
  }

  /** The latecomer loses its place: in every tree, the thread added at a wraparound keeps
      the top key, so an equal that arrives after it is put in front of it. */
  lemma {:induction false} WraparoundBreaksFifo(t: seq<RbNode>, a: nat, rank: Rank, b: nat, next: Rank)
    requires rank.prio == next.prio && rank.deadline == next.deadline && |t| < KEY_MAX
    ensures var r := Add(t, KEY_MAX, a, rank);
      var s := Add(r.0, r.1, b, next).0;
      exists i, j :: 0 <= i < j < |s| && s[i] == RbNode(b, next, |t|, false) && s[j] == RbNode(a, rank, KEY_MAX, true)
  {
    var late, x := RbNode(a, rank, KEY_MAX, true), RbNode(b, next, |t|, false);
    var t1 := Add(t, KEY_MAX, a, rank).0;
    var p := TreeSlot(Renumbered(t), late);
    assert t1[p] == late;
    assert LessThan(x, late);
    hide LessThan;
    var q := TreeSlot(t1, x);
    var s := Add(t1, |t|, b, next).0;
    assert s[q] == x && s[p + 1] == late;
  }

  class RbQueue {
    var tree: seq<RbNode>
    var nextOrderKey: nat

    ghost predicate Valid()
      reads this
    {
      Inv(tree, nextOrderKey)
    }

    constructor ()
      ensures Valid() && tree == [] && nextOrderKey == 0
    {
      tree, nextOrderKey := [], 0;
    }

    /** The loop of z_priq_rb_add at a wraparound: keys 0, 1, 2 and so on in tree order. */
    method Renumber()
      requires nextOrderKey == 0
      modifies this
      ensures tree == Renumbered(old(tree)) && nextOrderKey == |tree|
    {
      ghost var t := tree;
      while nextOrderKey < |tree|
        invariant nextOrderKey <= |tree| == |t|
        invariant forall i :: 0 <= i < |t| ==> tree[i] == if i < nextOrderKey then t[i].(key := i) else t[i]
      {
        tree := tree[nextOrderKey := tree[nextOrderKey].(key := nextOrderKey)];
        nextOrderKey := nextOrderKey + 1;
      }
    }

    /** z_priq_rb_add. */
    method AddThread(thread: nat, rank: Rank)
      requires Valid() && |tree| < KEY_MAX
      requires forall i :: 0 <= i < |tree| ==> Near(tree[i].rank, rank) && tree[i].rank.arrival < rank.arrival
      modifies this
      ensures Valid() && (tree, nextOrderKey) == Add(old(tree), old(nextOrderKey), thread, rank)
    {
      hide Inv, LessThan, Near, Renumbered;
      AddKeeps(tree, nextOrderKey, thread, rank);
      KeyBound(tree, nextOrderKey);
      var x := RbNode(thread, rank, nextOrderKey, nextOrderKey == KEY_MAX);
      nextOrderKey := (nextOrderKey + 1) % MOD32;
      if nextOrderKey == 0 {
        Renumber();
      }
      var p := TreeSlot(tree, x);
      tree := tree[..p] + [x] + tree[p..];
    }

    /** z_priq_rb_remove: an emptied tree restarts the counter. */
    method RemoveAt(p: nat)
      requires Valid() && p < |tree|
      modifies this
      ensures Valid() && tree == old(tree[..p] + tree[p + 1..])
      ensures nextOrderKey == if tree == [] then 0 else old(nextOrderKey)
    {
      RemoveKeeps(tree, nextOrderKey, p);
      hide Inv;
      tree := tree[..p] + tree[p + 1..];
      if tree == [] {
        nextOrderKey := 0;
      }
    }
  }

  lemma {:induction false} KeyBound(t: seq<RbNode>, next: nat)
    requires Inv(t, next)
    ensures next <= KEY_MAX
  {
  }

  lemma {:induction false} RemoveKeeps(t: seq<RbNode>, next: nat, p: nat)
    requires Inv(t, next) && p < |t|
    ensures Inv(t[..p] + t[p + 1..], next)
    ensures t[..p] + t[p + 1..] == [] ==> Inv([], 0)
  {
    hide LessThan, Near, SameRank;
    var t' := t[..p] + t[p + 1..];
    assert forall i :: 0 <= i < |t'| ==> t'[i] == t[if i < p then i else i + 1];
  }
}
