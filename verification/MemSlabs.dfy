/** mem_slab.c as it runs: the free list lives in the first words of the free blocks, next
    to blocks whose holders write what they like. */
module MemSlabs {
  import opened Rings
  import opened Slabs

  // ---- the list in memory ----------------------------------------------------------------------

  /** The end of the list. */
  const NULL: int := -1

  /** From address `p`, the first words of the blocks `bs` form a list that ends; blocks
      are `size` words long. */
  ghost predicate Linked(mem: seq<int>, size: nat, p: int, bs: seq<nat>)
    decreases |bs|
  {
    if bs == [] then p == NULL
    else p == bs[0] * size && 0 <= p < |mem| && Linked(mem, size, mem[p], bs[1..])
  }

  /** Writing elsewhere leaves the list alone. */
  lemma {:induction false} LinkedFrame(mem: seq<int>, mem': seq<int>, size: nat, p: int, bs: seq<nat>)
    requires Linked(mem, size, p, bs) && |mem'| == |mem|
    requires forall i :: 0 <= i < |bs| && 0 <= bs[i] * size < |mem| ==> mem'[bs[i] * size] == mem[bs[i] * size]
    ensures Linked(mem', size, p, bs)
    decreases |bs|
  {
    if bs != [] {
      forall i | 0 <= i < |bs[1..]| && 0 <= bs[1..][i] * size < |mem|
        ensures mem'[bs[1..][i] * size] == mem[bs[1..][i] * size]
      {
        assert bs[1..][i] == bs[i + 1];
      }
      assert mem'[bs[0] * size] == mem[bs[0] * size];
      LinkedFrame(mem, mem', size, mem[p], bs[1..]);
    }
  }

  /** A write inside block `b` leaves a list of other blocks alone. */
  lemma {:induction false} WriteInside(mem: seq<int>, at: nat, v: int, size: nat, p: int, bs: seq<nat>, b: nat)
    requires Linked(mem, size, p, bs) && b !in bs && b * size <= at < b * size + size && at < |mem|
    ensures Linked(mem[at := v], size, p, bs)
  {
    forall i | 0 <= i < |bs| && 0 <= bs[i] * size < |mem| ensures mem[at := v][bs[i] * size] == mem[bs[i] * size] {
      CellsApart(bs[i], b, size);
    }
    LinkedFrame(mem, mem[at := v], size, p, bs);
  }

  /** A head that links to itself is the start of no list that ends. */
  lemma {:induction false} SelfLinkNeverEnds(mem: seq<int>, size: nat, p: int, bs: seq<nat>)
    requires 0 <= p < |mem| && mem[p] == p
    ensures !Linked(mem, size, p, bs)
    decreases |bs|
  {
    if bs != [] {
      SelfLinkNeverEnds(mem, size, p, bs[1..]);
    }
  }

  /** k - 1, ..., 0: the blocks in the order create_free_list leaves them. */
  function Down(k: nat): (r: seq<nat>)
    ensures |r| == k
    ensures forall i :: 0 <= i < k ==> r[i] == k - 1 - i
  {
    seq(k, i requires 0 <= i < k => k - 1 - i)
  }

  class MemSlab {
    const blockWords: nat
    const numBlocks: nat
    const mem: array<int>
    var freeList: int
    var numUsed: nat
    var waitq: seq<Tid>
    ghost var free: seq<nat>
    ghost var held: map<nat, Tid>

    ghost function Here(): Slab
      reads this
    {
      Slab(numBlocks, free, held, waitq)
    }

    ghost predicate Valid()
      reads this, mem
    {
      && blockWords > 0 && mem.Length == numBlocks * blockWords
      && Inv(Here()) && Linked(mem[..], blockWords, freeList, free) && numUsed == |held.Keys|
    }

    /** k_mem_slab_init of an aligned buffer, up to the list itself. */
    constructor (blockWords: nat, numBlocks: nat)
      ensures this.blockWords == blockWords && this.numBlocks == numBlocks && fresh(mem)
      ensures mem.Length == if blockWords == 0 then 1 else numBlocks * blockWords
      ensures numUsed == 0 && waitq == [] && held == map[]
    {
      this.blockWords := blockWords;
      this.numBlocks := numBlocks;
      assert numBlocks * blockWords >= 0;
      mem := new int[if blockWords == 0 then 1 else numBlocks * blockWords];
      numUsed := 0;
      waitq := [];
      held := map[];
    }

    /** create_free_list: the last block becomes the head. It yields a list exactly when
        blocks have a size or there is at most one; blocks of size 0 are all the same
        block, chained to itself. */
    method CreateFreeList()
      requires mem.Length == if blockWords == 0 then 1 else numBlocks * blockWords
      requires numUsed == 0 && waitq == [] && held == map[]
      modifies this`freeList, this`free, mem
      ensures blockWords > 0 ==> Valid() && free == Down(numBlocks)
      ensures blockWords == 0 && numBlocks > 1 ==> freeList == 0 && mem[0] == 0
      ensures blockWords > 0 || numBlocks <= 1 ==> Linked(mem[..], blockWords, freeList, Down(numBlocks))
    {
      hide Inv, Down;
      freeList := NULL;
      var p := 0;
      var j := 0;
      while j < numBlocks
        invariant j <= numBlocks && p == j * blockWords
        invariant blockWords > 0 || j <= 1 ==> Linked(mem[..], blockWords, freeList, Down(j))
        invariant blockWords == 0 && j > 0 ==> freeList == 0
        invariant blockWords == 0 && j > 1 ==> mem[0] == 0
      {
        p := LinkBlock(j, p);
        j := j + 1;
      }
      free := Down(numBlocks);
      DownIsWhole(numBlocks);
    }

    /** One round of create_free_list. */
    method LinkBlock(j: nat, p: nat) returns (p': nat)
      requires j < numBlocks && p == j * blockWords
      requires mem.Length == if blockWords == 0 then 1 else numBlocks * blockWords
      requires blockWords > 0 || j <= 1 ==> Linked(mem[..], blockWords, freeList, Down(j))
      requires blockWords == 0 && j > 0 ==> freeList == 0
      modifies this`freeList, mem
      ensures p' == (j + 1) * blockWords
      ensures blockWords > 0 || j == 0 ==> Linked(mem[..], blockWords, freeList, Down(j + 1))
      ensures blockWords == 0 ==> freeList == 0
      ensures blockWords == 0 && j > 0 ==> mem[0] == 0
    {
      CellFits(j, blockWords, numBlocks);
      assert (j + 1) * blockWords == j * blockWords + blockWords;
      ghost var was, old' := mem[..], freeList;
      mem[p] := freeList;
      freeList := p;
      p' := p + blockWords;
      assert mem[..] == was[p := old'];
      if blockWords > 0 {
        assert j !in Down(j);
        WriteInside(was, p, old', blockWords, old', Down(j), j);
      }
      if blockWords > 0 || j == 0 {
        assert Down(j + 1)[0] == j && Down(j + 1)[1..] == Down(j);
      }
    }

    /** k_mem_slab_alloc: the head of the list, taken off it. */
    method Alloc(t: Tid, noWait: bool, place: nat) returns (at: int, waits: bool)
      requires Valid() && place <= |waitq|
      modifies this
      ensures Valid() && Here() == Slabs.Alloc(old(Here()), t, noWait, place).s
      ensures match Slabs.Alloc(old(Here()), t, noWait, place).out
        case Got(b) => at == b * blockWords && !waits
        case NoMemory => at == NULL && !waits
        case Waits => at == NULL && waits
    {
      hide Inv;
      AllocKeeps(Here(), t, noWait, place);
      ghost var b := if free != [] then free[0] else 0;
      at, waits := NULL, false;
      if freeList != NULL {
        at := freeList;
        freeList := mem[freeList];
        numUsed := numUsed + 1;
        held := held[b := t];
        free := free[1..];
      } else if !noWait {
        waitq := Place(waitq, place, t);
        waits := true;
      }
    }

    /** k_mem_slab_free of a block somebody holds; `woken` is the thread it goes to. */
    method Free(at: nat, ghost b: nat) returns (woken: seq<Tid>)
      requires Valid() && b in held.Keys && at == b * blockWords
      modifies this, mem
      ensures Valid() && Here() == Slabs.Free(old(Here()), b)
      ensures woken == if old(waitq) == [] then [] else old(waitq)[..1]
      ensures numUsed == if woken == [] then old(numUsed) - 1 else old(numUsed)
    {
      FreeKeeps(Here(), b);
      InUse(Here(), b);
      CellFits(b, blockWords, numBlocks);
      hide Inv;
      woken := [];
      if freeList == NULL && waitq != [] {
        woken := [waitq[0]];
        held := held[b := waitq[0]];
        waitq := waitq[1..];
      } else {
        WriteInside(mem[..], at, freeList, blockWords, freeList, free, b);
        ghost var was := mem[..];
        mem[at] := freeList;
        assert mem[..] == was[at := freeList];
        freeList := at;
        numUsed := numUsed - 1;
        held := held - {b};
        assert held.Keys == old(held).Keys - {b};
        free := [b] + free;
        assert free[1..] == old(free);
      }
    }

    /** The holder of a block may write any of its words, the link word included. */
    method Write(b: nat, offset: nat, v: int)
      requires Valid() && b in held.Keys && offset < blockWords
      modifies mem
      ensures Valid() && Here() == old(Here())
    {
      InUse(Here(), b);
      CellFits(b, blockWords, numBlocks);
      ghost var was := mem[..];
      WriteInside(was, b * blockWords + offset, v, blockWords, freeList, free, b);
      mem[b * blockWords + offset] := v;
      assert mem[..] == was[b * blockWords + offset := v];
    }
  }

  lemma {:induction false} InUse(s: Slab, b: nat)
    requires Inv(s) && b in s.held.Keys
    ensures b < s.blocks && b !in s.free && |s.held.Keys| > 0
    ensures s.waiting != [] ==> s.free == []
  {
    assert s.held.Keys != {};
  }

  lemma {:induction false} DownIsWhole(n: nat)
    ensures Inv(Slab(n, Down(n), map[], []))
  {
    var s := Down(n);
    forall b: nat | b < n ensures b in s {
      assert s[n - 1 - b] == b;
    }
  }

  lemma {:induction false} Whole(n: nat, word: nat)
    requires word > 0 && n % word == 0
    ensures n / word * word == n && (n > 0 <==> n / word > 0)
  {
    assert n == word * (n / word) + n % word;
  }

  datatype InitResult = Ready(slab: MemSlab) | Invalid

  /** k_mem_slab_init: -EINVAL exactly if block size or buffer is not word aligned; `word` is
      the size of a pointer. A block size of 0 passes, and its list does not end once
      there are two blocks. */
  method Init(buffer: nat, blockSize: nat, numBlocks: nat, word: nat) returns (r: InitResult)
    requires word > 0
    ensures r.Invalid? <==> blockSize % word != 0 || buffer % word != 0
    ensures r.Ready? ==> fresh(r.slab) && fresh(r.slab.mem) && r.slab.blockWords * word == blockSize
    ensures r.Ready? && blockSize > 0 ==> r.slab.Valid() && r.slab.Here() == Slab(numBlocks, Down(numBlocks), map[], [])
    ensures r.Ready? && blockSize == 0 && numBlocks > 1 ==> forall bs :: !Linked(r.slab.mem[..], 0, r.slab.freeList, bs)
  {
    if blockSize % word != 0 || buffer % word != 0 {
      return Invalid;
    }
    Whole(blockSize, word);
    hide Inv;
    var slab := new MemSlab(blockSize / word, numBlocks);
    slab.CreateFreeList();
    if blockSize == 0 && numBlocks > 1 {
      forall bs ensures !Linked(slab.mem[..], 0, slab.freeList, bs) {
        SelfLinkNeverEnds(slab.mem[..], 0, slab.freeList, bs);
      }
    }
    r := Ready(slab);
  }
}
