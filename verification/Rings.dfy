/** Bytes, clipped prefixes, queues and ring buffers: the vocabulary the other modules
    share. */
module Rings {

  type byte = b: int | 0 <= b < 256

  /** A thread, or a timeout. */
  type Tid = nat

  function Min(a: nat, b: nat): (m: nat) {
    if a <= b then a else b
  }

  /** The first `n` elements, or all of them when there are fewer. */
  function Clip<T>(s: seq<T>, n: nat): (r: seq<T>) {
    s[..Min(|s|, n)]
  }

  /** What is left after the first `n` elements. */
  function Past<T>(s: seq<T>, n: nat): (r: seq<T>) {
    s[Min(|s|, n)..]
  }

  lemma {:induction false} PastConcat<T>(a: seq<T>, b: seq<T>, n: nat)
    ensures Past(a + b, n) == Past(a, n) + Past(b, n - Min(n, |a|))
    ensures Clip(a + b, n) == Clip(a, n) + Clip(b, n - Min(n, |a|))
  {
  }

  lemma {:induction false} ClipPast<T>(s: seq<T>, n: nat)
    ensures Clip(s, n) + Past(s, n) == s
  {
  }

  lemma {:induction false} PastTwice<T>(s: seq<T>, k: nat, m: nat)
    ensures Past(Past(s, k), m) == Past(s, k + m)
  {
  }

  lemma {:induction false} ClipTwice<T>(s: seq<T>, k: nat, m: nat)
    ensures Clip(s, k + m) == Clip(s, k) + Clip(Past(s, k), m)
  {
  }

  /** `s` with `x` put at position `p`. */
  function Place<T>(s: seq<T>, p: nat, x: T): (r: seq<T>)
    requires p <= |s|
    ensures |r| == |s| + 1
  {
    s[..p] + [x] + s[p..]
  }

  /** `s` without the element at position `i`. */
  function Without<T>(s: seq<T>, i: nat): (r: seq<T>)
    requires i < |s|
  {
    s[..i] + s[i + 1..]
  }

  lemma {:induction false} WithoutIn<T>(s: seq<T>, i: nat)
    requires i < |s|
    ensures forall x :: x in Without(s, i) ==> x in s
  {
    assert s == s[..i] + [s[i]] + s[i + 1..];
  }

  ghost predicate Distinct<T>(s: seq<T>) {
    forall i, j :: 0 <= i < j < |s| ==> s[i] != s[j]
  }

  lemma {:induction false} PlacedIn<T>(s: seq<T>, p: nat, x: T)
    requires p <= |s|
    ensures forall y :: y in s[..p] + [x] + s[p..] <==> y in s || y == x
  {
    assert s == s[..p] + s[p..];
  }

  lemma {:induction false} PlacedDistinct<T>(s: seq<T>, p: nat, x: T)
    requires p <= |s| && x !in s && Distinct(s)
    ensures Distinct(s[..p] + [x] + s[p..])
  {
    var r := s[..p] + [x] + s[p..];
    assert forall i :: 0 <= i < |r| ==> r[i] == if i < p then s[i] else if i == p then x else s[i - 1];
  }

  /** The first place of `x`, or the length. */
  function Index<T(==)>(s: seq<T>, x: T): (p: nat)
    ensures p <= |s|
    ensures p < |s| ==> s[p] == x
    ensures p == |s| <==> x !in s
  {
    if s == [] || s[0] == x then 0 else 1 + Index(s[1..], x)
  }

  /** sys_dlist_remove. */
  function Remove<T(==)>(s: seq<T>, x: T): seq<T> {
    var p := Index(s, x);
    if p == |s| then s else s[..p] + s[p + 1..]
  }

  lemma {:induction false} IndexFrom<T>(s: seq<T>, k: nat, x: T)
    requires k <= |s|
    ensures Index(s[k..], x) == if k == |s| || s[k] == x then 0 else 1 + Index(s[k + 1..], x)
  {
    if k < |s| {
      assert s[k..][0] == s[k] && s[k..][1..] == s[k + 1..];
    }
  }

  /** The walk of sys_dlist_remove, over a list given as a sequence. */
  method Unlink<T(==)>(s: seq<T>, x: T) returns (r: seq<T>)
    ensures r == Remove(s, x)
  {
    hide Index;
    var p := 0;
    assert s[0..] == s;
    while p < |s| && s[p] != x
      invariant p <= |s| && p + Index(s[p..], x) == Index(s, x)
    {
      IndexFrom(s, p, x);
      p := p + 1;
    }
    IndexFrom(s, p, x);
    r := if p < |s| then s[..p] + s[p + 1..] else s;
  }

  lemma {:induction false} RemoveIn<T>(s: seq<T>, x: T)
    requires Distinct(s)
    ensures forall y :: y in Remove(s, x) <==> y in s && y != x
    ensures Distinct(Remove(s, x))
  {
    var p := Index(s, x);
    if p < |s| {
      var r := Remove(s, x);
      assert s == s[..p] + [x] + s[p + 1..];
      assert forall i :: 0 <= i < |r| ==> r[i] == s[if i < p then i else i + 1];
    }
  }

  /** A ring index after an advance of at most one turn. */
  function Wrap(i: nat, size: nat): (r: nat) {
    if i >= size then i - size else i
  }

  /** The `n` elements stored in ring `buf` from index `start` on. */
  function Slice<T>(buf: seq<T>, start: nat, n: nat): (r: seq<T>)
    requires n <= |buf| && start <= |buf|
    ensures |r| == n
  {
    if start + n <= |buf| then buf[start..start + n] else buf[start..] + buf[..start + n - |buf|]
  }

  lemma {:induction false} SliceAt<T>(buf: seq<T>, start: nat, n: nat, i: nat)
    requires i < n <= |buf| && start < |buf|
    ensures Slice(buf, start, n)[i] == buf[Wrap(start + i, |buf|)]
  {
  }

  /** Writing `bs` behind the stored elements appends them. */
  lemma {:induction false} SlicePut<T>(buf: seq<T>, buf': seq<T>, start: nat, n: nat, w: nat, bs: seq<T>)
    requires start < |buf| == |buf'| && n + |bs| <= |buf|
    requires w == Wrap(start + n, |buf|) && w + |bs| <= |buf|
    requires forall i :: 0 <= i < |bs| ==> buf'[w + i] == bs[i]
    requires forall i :: 0 <= i < |buf| && !(w <= i < w + |bs|) ==> buf'[i] == buf[i]
    ensures Slice(buf', start, n + |bs|) == Slice(buf, start, n) + bs
  {
    hide Slice;
    var old', new' := Slice(buf, start, n) + bs, Slice(buf', start, n + |bs|);
    forall i | 0 <= i < n + |bs|
      ensures new'[i] == old'[i]
    {
      SliceAt(buf', start, n + |bs|, i);
      if i < n {
        SliceAt(buf, start, n, i);
      } else {
        assert Wrap(start + i, |buf|) == w + (i - n);
        assert buf'[w + (i - n)] == bs[i - n];
      }
    }
  }

  /** Advancing the start by `k` drops the first `k` stored elements. */
  lemma {:induction false} SliceTake<T>(buf: seq<T>, start: nat, n: nat, k: nat)
    requires start < |buf| && k <= n <= |buf| && start + k <= |buf|
    ensures Slice(buf, start, n)[..k] == buf[start..start + k]
    ensures Slice(buf, Wrap(start + k, |buf|), n - k) == Slice(buf, start, n)[k..]
  {
    var all, rest := Slice(buf, start, n), Slice(buf, Wrap(start + k, |buf|), n - k);
    forall i | 0 <= i < n - k
      ensures rest[i] == all[k + i]
    {
      assert all[k + i] == buf[Wrap(start + k + i, |buf|)];
    }
    assert rest == all[k..];
  }

  // ---- buffers cut into pieces of equal size ----------------------------------------------

  lemma {:induction false} CellFits(k: nat, size: nat, n: nat)
    requires k < n
    ensures 0 <= k * size <= k * size + size <= n * size
  {
    assert (n - 1 - k) * size >= 0;
    assert n * size == k * size + size + (n - 1 - k) * size;
  }

  lemma {:induction false} CellsApart(j: nat, k: nat, size: nat)
    requires j != k
    ensures j * size + size <= k * size || k * size + size <= j * size
  {
    if j < k { CellFits(j, size, k); } else { CellFits(k, size, j); }
  }
}
