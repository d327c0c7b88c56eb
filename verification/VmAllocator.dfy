/**
 * The X-Fi's allocator of device addresses: a first-fit search of the unused blocks, and a release that
 * merges the block given back with its neighbours in the address-sorted unused list.
 */
module VmAllocator {
  import opened CInt

  datatype Block = Block(addr: nat, size: nat)

  datatype Vm = Vm(size: nat, unused: seq<Block>, used: seq<Block>)

  const PAGE := 4096

  /** A size rounded up to whole pages, in 32-bit arithmetic: sizes near the top wrap to nothing. */
  function Align(size: int): (r: nat)
    ensures 0 <= r < 0x1_0000_0000
    ensures 0 < size <= 0x7FFF_FFFF ==> size <= r < size + PAGE
  {
    U32(U32(size) + PAGE - 1) / PAGE * PAGE
  }

  function End(b: Block): (e: nat) { b.addr + b.size }

  /** A used block as it counts in pages; its size field keeps the size asked for. */
  function Aligned(b: Block): (b': Block) { Block(b.addr, Align(b.size)) }

  // ---------------------------------------------------------------- allocation

  /** The first unused block that is large enough. */
  function FirstFit(unused: seq<Block>, size: nat): (k: nat)
    ensures k <= |unused|
    ensures k < |unused| ==> unused[k].size >= size
    ensures forall i :: 0 <= i < k ==> unused[i].size < size
  {
    if unused == [] || unused[0].size >= size then 0 else 1 + FirstFit(unused[1..], size)
  }

  predicate CanMap(vm: Vm, size: int) { Align(size) <= vm.size && FirstFit(vm.unused, Align(size)) < |vm.unused| }

  /** Mapping `size` bytes: the front of the first block that fits, or that block itself. */
  function Map(vm: Vm, size: int): (vm': Vm)
    requires CanMap(vm, size)
  {
    var n := Align(size);
    var k := FirstFit(vm.unused, n);
    var e := vm.unused[k];
    Vm(vm.size - n, Taken(vm.unused, k, n), [Block(e.addr, U32(size))] + vm.used)
  }

  /** The unused list without the first `n` bytes of block `k`. */
  function Taken(u: seq<Block>, k: nat, n: nat): (r: seq<Block>)
    requires k < |u| && n <= u[k].size
  {
    if u[k].size == n then u[..k] + u[k + 1..] else u[k := Block(u[k].addr + n, u[k].size - n)]
  }

  // ---------------------------------------------------------------- release

  /** The first unused block that starts at or after `addr`. */
  function FirstFrom(unused: seq<Block>, addr: nat): (k: nat)
    ensures k <= |unused|
    ensures k < |unused| ==> unused[k].addr >= addr
    ensures forall i :: 0 <= i < k ==> unused[i].addr < addr
  {
    if unused == [] || unused[0].addr >= addr then 0 else 1 + FirstFrom(unused[1..], addr)
  }

  /** The block goes before `k`, or becomes the front of block `k` if they touch. */
  function Inserted(unused: seq<Block>, k: nat, b: Block): (u: seq<Block>)
    requires k <= |unused|
    ensures k < |u|
  {
    if k < |unused| && unused[k].addr == End(b) then unused[k := Block(b.addr, unused[k].size + b.size)]
    else unused[..k] + [b] + unused[k..]
  }

  /** Merges block `k` into the one before it, and so on, until one reaches past the next one's start. */
  function MergedBack(u: seq<Block>, k: nat): (u': seq<Block>)
    requires k < |u|
    decreases k
  {
    if k == 0 || End(u[k - 1]) > u[k].addr then u
    else MergedBack(u[..k - 1] + [Block(u[k - 1].addr, u[k - 1].size + u[k].size)] + u[k + 1..], k - 1)
  }

  function Unmap(vm: Vm, j: nat): (vm': Vm)
    requires j < |vm.used|
  {
    var b := Aligned(vm.used[j]);
    var k := FirstFrom(vm.unused, End(b));
    Vm(vm.size + b.size, MergedBack(Inserted(vm.unused, k, b), k), vm.used[..j] + vm.used[j + 1..])
  }

  // ---------------------------------------------------------------- conservation

  function Total(bs: seq<Block>): (t: nat) { if bs == [] then 0 else bs[0].size + Total(bs[1..]) }

  function TotalAligned(bs: seq<Block>): (t: nat) { if bs == [] then 0 else Align(bs[0].size) + TotalAligned(bs[1..]) }

  lemma {:induction false} TotalAppend(a: seq<Block>, b: seq<Block>)
    ensures Total(a + b) == Total(a) + Total(b)
  {
    if a == [] {
      assert a + b == b;
    } else {
      TotalAppend(a[1..], b);
      assert (a + b)[1..] == a[1..] + b;
    }
  }

  lemma {:induction false} TotalAlignedAppend(a: seq<Block>, b: seq<Block>)
    ensures TotalAligned(a + b) == TotalAligned(a) + TotalAligned(b)
  {
    if a == [] {
      assert a + b == b;
    } else {
      TotalAlignedAppend(a[1..], b);
      assert (a + b)[1..] == a[1..] + b;
    }
  }

  lemma TotalSplit(bs: seq<Block>, k: nat)
    requires k < |bs|
    ensures Total(bs) == Total(bs[..k]) + bs[k].size + Total(bs[k + 1..])
    ensures TotalAligned(bs) == TotalAligned(bs[..k]) + Align(bs[k].size) + TotalAligned(bs[k + 1..])
  {
    hide Total, TotalAligned, Align;
    assert bs == bs[..k] + ([bs[k]] + bs[k + 1..]);
    TotalCons(bs[k], bs[k + 1..]);
    TotalAppend(bs[..k], [bs[k]] + bs[k + 1..]);
    TotalAlignedAppend(bs[..k], [bs[k]] + bs[k + 1..]);
  }

  lemma TotalCons(b: Block, bs: seq<Block>)
    ensures Total([b] + bs) == b.size + Total(bs)
    ensures TotalAligned([b] + bs) == Align(b.size) + TotalAligned(bs)
  {
    assert ([b] + bs)[1..] == bs;
  }

  lemma TotalJoin(a: seq<Block>, b: Block, c: seq<Block>)
    ensures Total(a + [b] + c) == Total(a) + b.size + Total(c)
  {
    assert a + [b] + c == a + ([b] + c);
    assert ([b] + c)[1..] == c;
    TotalAppend(a, [b] + c);
  }

  lemma TotalLast(u: seq<Block>, k: nat)
    requires k < |u|
    ensures Total(u[..k + 1]) == Total(u[..k]) + u[k].size
  {
    assert u[..k + 1] == u[..k] + [u[k]];
    TotalAppend(u[..k], [u[k]]);
    assert [u[k]][1..] == [];
  }

  lemma {:induction false} MergedBackTotal(u: seq<Block>, k: nat)
    requires k < |u|
    ensures Total(MergedBack(u, k)) == Total(u)
    decreases k
  {
    hide Total, TotalAligned;
    if k > 0 && End(u[k - 1]) <= u[k].addr {
      MergeStepTotal(u, k);
      MergedBackTotal(u[..k - 1] + [Block(u[k - 1].addr, u[k - 1].size + u[k].size)] + u[k + 1..], k - 1);
    }
  }

  lemma MergeStepTotal(u: seq<Block>, k: nat)
    requires 0 < k < |u|
    ensures Total(u[..k - 1] + [Block(u[k - 1].addr, u[k - 1].size + u[k].size)] + u[k + 1..]) == Total(u)
  {
    hide Total, TotalAligned;
    TotalJoin(u[..k - 1], Block(u[k - 1].addr, u[k - 1].size + u[k].size), u[k + 1..]);
    TotalSplit(u, k);
    TotalLast(u, k - 1);
  }

  lemma TotalReplaced(u: seq<Block>, k: nat, e: Block)
    requires k < |u|
    ensures Total(u[k := e]) == Total(u) - u[k].size + e.size
  {
    hide Total, TotalAligned;
    assert u[k := e] == u[..k] + [e] + u[k + 1..];
    TotalJoin(u[..k], e, u[k + 1..]);
    TotalSplit(u, k);
  }

  lemma TotalInserted(u: seq<Block>, k: nat, e: Block)
    requires k <= |u|
    ensures Total(u[..k] + [e] + u[k..]) == Total(u) + e.size
  {
    hide Total, TotalAligned;
    TotalJoin(u[..k], e, u[k..]);
    assert u[..k] + u[k..] == u;
    TotalAppend(u[..k], u[k..]);
  }

  predicate Touches(unused: seq<Block>, k: nat, b: Block) { k < |unused| && unused[k].addr == End(b) }

  lemma InsertedIs(unused: seq<Block>, k: nat, b: Block)
    requires k <= |unused|
    ensures Inserted(unused, k, b) == if Touches(unused, k, b) then unused[k := Block(b.addr, unused[k].size + b.size)]
                                      else unused[..k] + [b] + unused[k..]
  {
  }

  lemma InsertedTotal(unused: seq<Block>, k: nat, b: Block)
    requires k <= |unused|
    ensures Total(Inserted(unused, k, b)) == Total(unused) + b.size
  {
    hide Total, TotalAligned, Inserted;
    InsertedIs(unused, k, b);
    if Touches(unused, k, b) {
      TotalReplaced(unused, k, Block(b.addr, unused[k].size + b.size));
    } else {
      TotalInserted(unused, k, b);
    }
  }

  /** The counter is what is unused, and with the pages of the used blocks it makes up the whole space. */
  predicate Conserved(vm: Vm, total: nat) { vm.size == Total(vm.unused) && vm.size + TotalAligned(vm.used) == total }

  lemma TakenTotal(u: seq<Block>, k: nat, n: nat)
    requires k < |u| && n <= u[k].size
    ensures Total(Taken(u, k, n)) == Total(u) - n
  {
    hide Total;
    if u[k].size == n {
      TotalSplit(u, k);
      TotalAppend(u[..k], u[k + 1..]);
    } else {
      TotalReplaced(u, k, Block(u[k].addr + n, u[k].size - n));
    }
  }

  lemma MapConserves(vm: Vm, size: int, total: nat)
    requires Conserved(vm, total) && CanMap(vm, size)
    ensures Conserved(Map(vm, size), total)
  {
    var n := Align(size);
    var k := FirstFit(vm.unused, n);
    TakenTotal(vm.unused, k, n);
    AlignOfStored(size);
    assert ([Block(vm.unused[k].addr, U32(size))] + vm.used)[1..] == vm.used;
  }

  /** The size stored with a block aligns to what the block took. */
  lemma AlignOfStored(size: int)
    ensures Align(U32(size)) == Align(size)
  {
    assert U32(U32(size)) == U32(size);
  }

  lemma UnmapConserves(vm: Vm, j: nat, total: nat)
    requires Conserved(vm, total) && j < |vm.used|
    ensures Conserved(Unmap(vm, j), total)
  {
    var b := Aligned(vm.used[j]);
    var k := FirstFrom(vm.unused, End(b));
    InsertedTotal(vm.unused, k, b);
    MergedBackTotal(Inserted(vm.unused, k, b), k);
    TotalSplit(vm.used, j);
    TotalAlignedAppend(vm.used[..j], vm.used[j + 1..]);
  }

  datatype Event = Mapped(size: int) | Unmapped(j: nat)

  function Created(total: nat): (vm: Vm) { Vm(total, [Block(0, total)], []) }

  function Apply(vm: Vm, e: Event): (vm': Vm) {
    match e
    case Mapped(size) => if CanMap(vm, size) then Map(vm, size) else vm
    case Unmapped(j) => if j < |vm.used| then Unmap(vm, j) else vm
  }

  function Run(total: nat, es: seq<Event>): (vm: Vm) {
    if es == [] then Created(total) else Apply(Run(total, es[..|es| - 1]), es[|es| - 1])
  }

  /** Whatever is mapped and unmapped in whatever order, and of whatever sizes, no byte is lost or gained. */
  lemma {:induction false} EveryRunConserves(total: nat, es: seq<Event>)
    ensures Conserved(Run(total, es), total)
  {
    if es == [] {
      assert [Block(0, total)][1..] == [];
    } else {
      EveryRunConserves(total, es[..|es| - 1]);
      var vm := Run(total, es[..|es| - 1]);
      match es[|es| - 1]
      case Mapped(size) => if CanMap(vm, size) { MapConserves(vm, size, total); }
      case Unmapped(j) => if j < |vm.used| { UnmapConserves(vm, j, total); }
    }
  }

  /** As long as nothing is lost the test of the counter is redundant: a mapping fails only if no block fits. */
  lemma CanMapIff(vm: Vm, size: int, total: nat)
    requires Conserved(vm, total)
    ensures CanMap(vm, size) <==> exists i :: 0 <= i < |vm.unused| && vm.unused[i].size >= Align(size)
  {
    if i :| 0 <= i < |vm.unused| && vm.unused[i].size >= Align(size) {
      TotalSplit(vm.unused, i);
    }
  }

  // ---------------------------------------------------------------- tiling

  predicate In(b: Block, x: nat) { b.addr <= x < End(b) }

  predicate InSome(bs: seq<Block>, x: nat) { exists i :: 0 <= i < |bs| && In(bs[i], x) }

  lemma InSomeAppend(a: seq<Block>, b: seq<Block>, x: nat)
    ensures InSome(a + b, x) <==> InSome(a, x) || InSome(b, x)
  {
    if i :| 0 <= i < |a| && In(a[i], x) {
      assert In((a + b)[i], x);
    }
    if i :| 0 <= i < |b| && In(b[i], x) {
      assert In((a + b)[|a| + i], x);
    }
  }

  lemma InSomeJoin(a: seq<Block>, e: Block, c: seq<Block>, x: nat)
    ensures InSome(a + [e] + c, x) <==> InSome(a, x) || In(e, x) || InSome(c, x)
  {
    hide InSome;
    InSomeAppend(a + [e], c, x);
    InSomeAppend(a, [e], x);
    InSomeOne(e, x);
  }

  lemma InSomeOne(e: Block, x: nat)
    ensures InSome([e], x) <==> In(e, x)
  {
    assert [e][0] == e;
  }

  lemma InSomeSplit(u: seq<Block>, k: nat, x: nat)
    requires k < |u|
    ensures InSome(u, x) <==> InSome(u[..k], x) || In(u[k], x) || InSome(u[k + 1..], x)
  {
    hide InSome;
    assert u == u[..k] + [u[k]] + u[k + 1..];
    InSomeJoin(u[..k], u[k], u[k + 1..], x);
  }

  /** Unused blocks are not empty, do not overlap, and are sorted. */
  predicate Sorted(u: seq<Block>) {
    && (forall i :: 0 <= i < |u| ==> u[i].size > 0)
    && forall i, j :: 0 <= i < j < |u| ==> End(u[i]) <= u[j].addr
  }

  predicate Apart(b: Block, c: Block) { End(b) <= c.addr || End(c) <= b.addr }

  function Pages(used: seq<Block>): (r: seq<Block>)
  {
    seq(|used|, j requires 0 <= j < |used| => Aligned(used[j]))
  }

  predicate AllApart(bs: seq<Block>) {
    && (forall j :: 0 <= j < |bs| ==> bs[j].size > 0)
    && forall i, j :: 0 <= i < j < |bs| ==> Apart(bs[i], bs[j])
  }

  /** The blocks tile the space: every address is free or live and not both, and no two live blocks overlap. */
  ghost predicate Tiling(unused: seq<Block>, live: seq<Block>, total: nat) {
    && Sorted(unused) && AllApart(live)
    && (forall x: nat :: InSome(unused, x) || InSome(live, x) <==> x < total)
    && (forall x: nat :: !(InSome(unused, x) && InSome(live, x)))
  }

  ghost predicate Tiles(vm: Vm, total: nat) { Tiling(vm.unused, Pages(vm.used), total) }

  predicate Below(a: seq<Block>, x: nat) { forall i :: 0 <= i < |a| ==> End(a[i]) <= x }

  predicate Above(c: seq<Block>, x: nat) { forall i :: 0 <= i < |c| ==> x <= c[i].addr }

  lemma JoinedAt(a: seq<Block>, e: Block, c: seq<Block>)
    ensures |a + [e] + c| == |a| + 1 + |c| && (a + [e] + c)[|a|] == e
    ensures forall i :: 0 <= i < |a| ==> (a + [e] + c)[i] == a[i]
    ensures forall i :: 0 <= i < |c| ==> (a + [e] + c)[|a| + 1 + i] == c[i]
    ensures forall i :: |a| < i < |a| + 1 + |c| ==> (a + [e] + c)[i] == c[i - |a| - 1]
  {
  }

  lemma SortedParts3(a: seq<Block>, e: Block, c: seq<Block>)
    requires Sorted(a + [e] + c)
    ensures Sorted(a) && Sorted(c) && e.size > 0 && Below(a, e.addr) && Above(c, End(e))
  {
    JoinedAt(a, e, c);
    var u := a + [e] + c;
    assert u[|a|] == e;
    forall i, j | 0 <= i < j < |c|
      ensures End(c[i]) <= c[j].addr
    {
      assert End(u[|a| + 1 + i]) <= u[|a| + 1 + j].addr;
    }
    forall i | 0 <= i < |c|
      ensures c[i].size > 0 && End(e) <= c[i].addr
    {
      assert u[|a| + 1 + i] == c[i];
    }
  }

  lemma SortedWhole(a: seq<Block>, e: Block, c: seq<Block>)
    requires Sorted(a) && Sorted(c) && e.size > 0 && Below(a, e.addr) && Above(c, End(e))
    ensures Sorted(a + [e] + c)
  {
    JoinedAt(a, e, c);
    var u := a + [e] + c;
    hide Sorted, Below, Above;
    forall i, j | 0 <= i < j < |u|
      ensures End(u[i]) <= u[j].addr
    {
      SortedPair(a, e, c, i, j);
    }
    forall i | 0 <= i < |u|
      ensures u[i].size > 0
    {
      SortedItem(a, e, c, i);
    }
    IsSorted(u);
  }

  lemma SortedItem(a: seq<Block>, e: Block, c: seq<Block>, i: nat)
    requires Sorted(a) && Sorted(c) && e.size > 0 && i < |a| + 1 + |c|
    ensures (a + [e] + c)[i].size > 0
  {
    JoinedAt(a, e, c);
    if i < |a| {
      SortedSize(a, i);
    } else if i > |a| {
      SortedSize(c, i - |a| - 1);
    }
  }

  lemma SortedPair(a: seq<Block>, e: Block, c: seq<Block>, i: nat, j: nat)
    requires Sorted(a) && Sorted(c) && e.size > 0 && Below(a, e.addr) && Above(c, End(e)) && i < j < |a| + 1 + |c|
    ensures End((a + [e] + c)[i]) <= (a + [e] + c)[j].addr
  {
    JoinedAt(a, e, c);
    hide Sorted, Below, Above;
    if i < |a| {
      BelowAt(a, e.addr, i);
      if j < |a| {
        SortedAt(a, i, j);
      }
    }
    if j > |a| {
      AboveAt(c, End(e), j - |a| - 1);
      if i > |a| {
        SortedAt(c, i - |a| - 1, j - |a| - 1);
      }
    }
  }

  lemma AboveAt(c: seq<Block>, x: nat, i: nat)
    requires Above(c, x) && i < |c|
    ensures x <= c[i].addr
  {
  }

  lemma SortedAt(u: seq<Block>, i: nat, j: nat)
    requires Sorted(u) && i < j < |u|
    ensures End(u[i]) <= u[j].addr
  {
  }

  lemma SortedSize(u: seq<Block>, i: nat)
    requires Sorted(u) && i < |u|
    ensures u[i].size > 0
  {
  }

  lemma IsSorted(u: seq<Block>)
    requires forall i :: 0 <= i < |u| ==> u[i].size > 0
    requires forall i, j :: 0 <= i < j < |u| ==> End(u[i]) <= u[j].addr
    ensures Sorted(u)
  {
  }

  lemma SortedJoin(a: seq<Block>, e: Block, c: seq<Block>)
    ensures Sorted(a + [e] + c) <==> Sorted(a) && Sorted(c) && e.size > 0 && Below(a, e.addr) && Above(c, End(e))
  {
    hide Sorted, Below, Above;
    if Sorted(a + [e] + c) {
      SortedParts3(a, e, c);
    } else if Sorted(a) && Sorted(c) && e.size > 0 && Below(a, e.addr) && Above(c, End(e)) {
      SortedWhole(a, e, c);
    }
  }

  lemma SortedSplit(u: seq<Block>, k: nat)
    requires k < |u|
    ensures Sorted(u) <==>
            && Sorted(u[..k]) && Sorted(u[k + 1..]) && u[k].size > 0
            && Below(u[..k], u[k].addr) && Above(u[k + 1..], End(u[k]))
  {
    hide Sorted, Below, Above;
    assert u == u[..k] + [u[k]] + u[k + 1..];
    SortedJoin(u[..k], u[k], u[k + 1..]);
  }

  // ---------------------------------------------------------------- merging

  /** The first `k + 1` blocks touch, each the next. */
  ghost predicate Contiguous(u: seq<Block>, k: nat)
    requires k < |u|
  {
    forall i, j :: 0 <= i && j == i + 1 && j <= k ==> End(u[i]) == u[j].addr
  }

  /** In a sorted list the merging never stops: all blocks before `k` end up in one, gaps or not. */
  lemma {:induction false} MergesEverything(u: seq<Block>, k: nat)
    requires k < |u| && Sorted(u[..k]) && Below(u[..k], u[k].addr)
    ensures MergedBack(u, k) == [Block(u[0].addr, Total(u[..k + 1]))] + u[k + 1..]
    decreases k
  {
    hide Total, Sorted, Below;
    TotalLast(u, k);
    if k == 0 {
      TotalOfNone(u[..0]);
      assert u == [u[0]] + u[1..];
    } else {
      SortedSplit(u[..k], k - 1);
      BelowAt(u[..k], u[k].addr, k - 1);
      assert u[..k][..k - 1] == u[..k - 1];
      var m := Block(u[k - 1].addr, u[k - 1].size + u[k].size);
      var v := u[..k - 1] + [m] + u[k + 1..];
      assert v[..k - 1] == u[..k - 1] && v[k..] == u[k + 1..] && v[k - 1] == m;
      MergesEverything(v, k - 1);
      TotalLast(u, k - 1);
      TotalLast(v, k - 1);
      if k > 1 {
        assert v[0] == u[0];
      }
    }
  }

  lemma BelowAt(a: seq<Block>, x: nat, i: nat)
    requires Below(a, x) && i < |a|
    ensures End(a[i]) <= x
  {
  }

  lemma TotalOfNone(a: seq<Block>)
    requires a == []
    ensures Total(a) == 0
  {
  }

  /** A contiguous prefix covers what one block of its total size does. */
  lemma {:induction false} ContiguousIsOneBlock(u: seq<Block>, k: nat, x: nat)
    requires k < |u| && Contiguous(u, k)
    ensures u[0].addr + Total(u[..k + 1]) == End(u[k])
    ensures InSome(u[..k + 1], x) <==> In(Block(u[0].addr, Total(u[..k + 1])), x)
    decreases k
  {
    hide Total, InSome;
    TotalLast(u, k);
    assert u[..k + 1] == u[..k] + [u[k]];
    InSomeAppend(u[..k], [u[k]], x);
    InSomeOne(u[k], x);
    if k == 0 {
      TotalOfNone(u[..0]);
      assert u[..1] == [u[0]];
    } else {
      ContiguousIsOneBlock(u, k - 1, x);
      assert End(u[k - 1]) == u[k].addr;
    }
  }

  /** The first block of the prefix that does not touch its successor. */
  lemma {:induction false} FirstGap(u: seq<Block>, k: nat) returns (i: nat)
    requires k < |u| && !Contiguous(u, k)
    ensures i < k && Contiguous(u, i) && End(u[i]) != u[i + 1].addr
    decreases k
  {
    if k > 0 && !Contiguous(u, k - 1) {
      i := FirstGap(u, k - 1);
    } else {
      i := k - 1;
    }
  }

  /** A merge over a gap is a tiling no more: an address of the gap, live, becomes free as well. */
  lemma MergeTilesIff(u: seq<Block>, k: nat, live: seq<Block>, total: nat)
    requires k < |u| && Tiling(u, live, total)
    ensures Tiling(MergedBack(u, k), live, total) <==> Contiguous(u, k)
  {
    hide InSome, AllApart, Sorted, MergedBack, Total, Contiguous, Below, Above;
    SortedSplit(u, k);
    MergesEverything(u, k);
    var m := Block(u[0].addr, Total(u[..k + 1]));
    assert MergedBack(u, k) == [m] + u[k + 1..];
    if Contiguous(u, k) {
      MergeContiguousTiles(u, k, live, total);
    } else {
      var i := FirstGap(u, k);
      var x := End(u[i]);
      GapIsLive(u, i, k, live, total);
      GapIsMerged(u, i, k, x);
      InSomeJoin([], m, u[k + 1..], x);
      assert [] + [m] + u[k + 1..] == [m] + u[k + 1..];
      assert InSome(MergedBack(u, k), x) && InSome(live, x);
    }
  }

  lemma MergeContiguousTiles(u: seq<Block>, k: nat, live: seq<Block>, total: nat)
    requires k < |u| && Tiling(u, live, total) && Contiguous(u, k)
    ensures Tiling([Block(u[0].addr, Total(u[..k + 1]))] + u[k + 1..], live, total)
  {
    hide InSome, AllApart, Sorted, Total, Contiguous, Below, Above;
    var m := Block(u[0].addr, Total(u[..k + 1]));
    var v := [m] + u[k + 1..];
    assert v == [] + [m] + u[k + 1..];
    SortedSplit(u, k);
    SortedJoin([], m, u[k + 1..]);
    ContiguousIsOneBlock(u, k, 0);
    TotalLast(u, k);
    SortedOfNone([]);
    forall x: nat
      ensures InSome(v, x) <==> InSome(u, x)
    {
      ContiguousIsOneBlock(u, k, x);
      InSomeJoin([], m, u[k + 1..], x);
      InSomeNone(x);
      InSomeSplit(u, k, x);
      assert u[..k + 1] == u[..k] + [u[k]];
      InSomeAppend(u[..k], [u[k]], x);
      InSomeOne(u[k], x);
    }
  }

  lemma SortedOfNone(u: seq<Block>)
    requires u == []
    ensures Sorted(u) && forall x :: Below(u, x)
  {
  }

  lemma InSomeNone(x: nat)
    ensures !InSome([], x)
  {
  }

  /** The first address of a gap in the unused list, up to a block that follows, is live. */
  lemma GapIsLive(u: seq<Block>, i: nat, k: nat, live: seq<Block>, total: nat)
    requires i < k < |u| && Tiling(u, live, total) && End(u[i]) != u[i + 1].addr
    ensures InSome(live, End(u[i])) && End(u[i]) < u[i + 1].addr
  {
    hide AllApart;
    var x := End(u[i]);
    assert End(u[i]) <= u[i + 1].addr;
    assert In(u[i + 1], u[i + 1].addr);
    assert InSome(u, u[i + 1].addr);
    forall p | 0 <= p < |u|
      ensures !In(u[p], x)
    {
      GapIsNotIn(u, i, p);
    }
  }

  lemma GapIsNotIn(u: seq<Block>, i: nat, p: nat)
    requires Sorted(u) && i + 1 < |u| && p < |u| && End(u[i]) != u[i + 1].addr
    ensures !In(u[p], End(u[i]))
  {
    assert p < i ==> End(u[p]) <= u[i].addr;
    assert p > i + 1 ==> End(u[i + 1]) <= u[p].addr;
  }

  /** ... and lies in what the merging makes of the blocks up to that one. */
  lemma GapIsMerged(u: seq<Block>, i: nat, k: nat, x: nat)
    requires i < k < |u| && Sorted(u) && Contiguous(u, i) && x == End(u[i])
    ensures In(Block(u[0].addr, Total(u[..k + 1])), x)
  {
    hide InSome, Contiguous;
    ContiguousIsOneBlock(u, i, x);
    TotalMonotone(u, i + 1, k);
    TotalLast(u, k);
  }

  lemma {:induction false} TotalMonotone(u: seq<Block>, i: nat, k: nat)
    requires i <= k <= |u|
    ensures Total(u[..i]) <= Total(u[..k])
    decreases k
  {
    if i < k {
      TotalMonotone(u, i, k - 1);
      TotalLast(u, k - 1);
    }
  }

  /** No live block starts between the first block of the list and block `k`. */
  predicate NoneBetween(u: seq<Block>, k: nat, live: seq<Block>)
    requires k < |u|
  {
    forall q :: 0 <= q < |live| ==> !(u[0].addr <= live[q].addr < u[k].addr)
  }

  lemma ContiguousIffNoneBetween(u: seq<Block>, k: nat, live: seq<Block>, total: nat)
    requires k < |u| && Tiling(u, live, total)
    ensures Contiguous(u, k) <==> NoneBetween(u, k, live)
  {
    hide Contiguous, Sorted, AllApart, InSome, Total;
    if Contiguous(u, k) {
      forall q | 0 <= q < |live|
        ensures !(u[0].addr <= live[q].addr < u[k].addr)
      {
        ContiguousLeavesNone(u, k, live, total, q);
      }
    } else {
      var i := FirstGap(u, k);
      GapIsLive(u, i, k, live, total);
      GapHasBlock(u, i, k, live, total);
    }
  }

  lemma ContiguousLeavesNone(u: seq<Block>, k: nat, live: seq<Block>, total: nat, q: nat)
    requires k < |u| && Tiling(u, live, total) && Contiguous(u, k) && q < |live|
    ensures !(u[0].addr <= live[q].addr < u[k].addr)
  {
    hide Contiguous, Sorted, Total;
    var x := live[q].addr;
    assert In(live[q], x);
    assert InSome(live, x);
    ContiguousIsOneBlock(u, k, x);
    InSomeAppend(u[..k + 1], u[k + 1..], x);
    assert u == u[..k + 1] + u[k + 1..];
  }

  lemma GapHasBlock(u: seq<Block>, i: nat, k: nat, live: seq<Block>, total: nat)
    requires i < k < |u| && Tiling(u, live, total) && InSome(live, End(u[i])) && End(u[i]) < u[i + 1].addr
    ensures !NoneBetween(u, k, live)
  {
    hide AllApart;
    var x := End(u[i]);
    var q :| 0 <= q < |live| && In(live[q], x);
    assert u[i + 1].addr <= u[k].addr;
    assert u[0].addr <= u[i].addr;
    assert In(u[0], u[0].addr);
    assert InSome(u, u[0].addr);
    assert !In(live[q], u[0].addr);
  }

  // ---------------------------------------------------------------- one release

  lemma InsertedIsSorted(unused: seq<Block>, live: seq<Block>, j: nat, total: nat)
    requires Tiling(unused, live, total) && j < |live|
    ensures var b := live[j]; var k := FirstFrom(unused, End(b)); var u := Inserted(unused, k, b);
            && Sorted(u) && u[k].addr == b.addr && u[..k] == unused[..k]
  {
    hide InSome, Inserted, FirstFrom;
    var b := live[j];
    var k := FirstFrom(unused, End(b));
    FreedLiesBetween(unused, live, j, total);
    InsertedIs(unused, k, b);
    SortedParts(unused, k);
    hide Sorted, Below, Above, Tiling, AllApart;
    if Touches(unused, k, b) {
      var e := Block(b.addr, unused[k].size + b.size);
      assert unused[k := e] == unused[..k] + [e] + unused[k + 1..];
      SortedJoin(unused[..k], e, unused[k + 1..]);
    } else {
      SortedJoin(unused[..k], b, unused[k..]);
    }
  }

  /** The blocks before the place found for a freed block end before it, the others start behind it. */
  lemma FreedLiesBetween(unused: seq<Block>, live: seq<Block>, j: nat, total: nat)
    requires Tiling(unused, live, total) && j < |live|
    ensures var b := live[j]; var k := FirstFrom(unused, End(b));
            && b.size > 0 && Below(unused[..k], b.addr) && Above(unused[k..], End(b))
            && (k < |unused| ==> unused[k].size > 0)
  {
    hide InSome, FirstFrom;
    var b := live[j];
    var k := FirstFrom(unused, End(b));
    forall i | 0 <= i < k
      ensures End(unused[i]) <= b.addr
    {
      FreeIsApart(unused, live, total, i, j);
    }
    forall i | k <= i < |unused|
      ensures End(b) <= unused[i].addr
    {
      if i > k {
        SortedAt(unused, k, i);
      }
    }
  }

  lemma SortedParts(u: seq<Block>, k: nat)
    requires Sorted(u) && k <= |u|
    ensures Sorted(u[..k]) && Sorted(u[k..]) && (k < |u| ==> Sorted(u[k + 1..]) && Above(u[k + 1..], End(u[k])))
  {
  }

  lemma FreeIsApart(unused: seq<Block>, live: seq<Block>, total: nat, i: nat, j: nat)
    requires Tiling(unused, live, total) && i < |unused| && j < |live|
    ensures Apart(unused[i], live[j])
  {
    var b, c := unused[i], live[j];
    var x := if b.addr >= c.addr then b.addr else c.addr;
    assert !(InSome(unused, x) && InSome(live, x));
    if In(b, x) && In(c, x) {
      assert false;
    }
  }

  lemma InsertedCovers(unused: seq<Block>, k: nat, b: Block, x: nat)
    requires k <= |unused| && (k < |unused| ==> unused[k].size > 0)
    ensures InSome(Inserted(unused, k, b), x) <==> InSome(unused, x) || In(b, x)
  {
    hide InSome, Inserted;
    InsertedIs(unused, k, b);
    if Touches(unused, k, b) {
      var e := Block(b.addr, unused[k].size + b.size);
      assert unused[k := e] == unused[..k] + [e] + unused[k + 1..];
      InSomeJoin(unused[..k], e, unused[k + 1..], x);
      InSomeSplit(unused, k, x);
      assert In(e, x) <==> In(b, x) || In(unused[k], x);
    } else {
      InSomeJoin(unused[..k], b, unused[k..], x);
      assert unused == unused[..k] + unused[k..];
      InSomeAppend(unused[..k], unused[k..], x);
    }
  }

  function Without(bs: seq<Block>, j: nat): (r: seq<Block>)
    requires j < |bs|
  {
    bs[..j] + bs[j + 1..]
  }

  lemma WithoutCovers(live: seq<Block>, j: nat, x: nat)
    requires AllApart(live) && j < |live|
    ensures AllApart(Without(live, j))
    ensures InSome(Without(live, j), x) <==> InSome(live, x) && !In(live[j], x)
  {
    WithoutIsApart(live, j);
    InSomeAppend(live[..j], live[j + 1..], x);
    InSomeSplit(live, j, x);
    if In(live[j], x) {
      forall i | 0 <= i < |live| && i != j
        ensures !In(live[i], x)
      {
        assert Apart(live[if i < j then i else j], live[if i < j then j else i]);
      }
    }
  }

  lemma WithoutIsApart(live: seq<Block>, j: nat)
    requires AllApart(live) && j < |live|
    ensures AllApart(Without(live, j))
  {
    var r := Without(live, j);
    forall a, b | 0 <= a < b < |r|
      ensures Apart(r[a], r[b])
    {
      assert Apart(live[if a < j then a else a + 1], live[if b < j then b else b + 1]);
    }
  }

  /** Before any merging the released block has simply changed sides. */
  lemma InsertedTiles(unused: seq<Block>, live: seq<Block>, j: nat, total: nat)
    requires Tiling(unused, live, total) && j < |live|
    ensures Tiling(Inserted(unused, FirstFrom(unused, End(live[j])), live[j]), Without(live, j), total)
  {
    var b, k := live[j], FirstFrom(unused, End(live[j]));
    assert k < |unused| ==> unused[k].size > 0;
    InsertedIsSorted(unused, live, j, total);
    WithoutIsApart(live, j);
    hide InSome, Inserted, AllApart, Sorted, FirstFrom, In, Without;
    forall x: nat
      ensures InSome(Inserted(unused, k, b), x) <==> InSome(unused, x) || In(b, x)
      ensures InSome(Without(live, j), x) <==> InSome(live, x) && !In(b, x)
      ensures In(b, x) ==> InSome(live, x)
    {
      InsertedCovers(unused, k, b, x);
      WithoutCovers(live, j, x);
      InSomeSplit(live, j, x);
    }
  }

  /** No live block other than `j` starts between the lowest unused block and block `j`. */
  predicate NothingBelow(vm: Vm, j: nat)
    requires j < |vm.used|
  {
    vm.unused == [] || forall i :: 0 <= i < |vm.used| && i != j ==>
      !(vm.unused[0].addr <= vm.used[i].addr < vm.used[j].addr)
  }

  lemma PagesWithout(used: seq<Block>, j: nat)
    requires j < |used|
    ensures Pages(used[..j] + used[j + 1..]) == Without(Pages(used), j)
  {
    hide Aligned;
  }

  /**
   * Releasing a block keeps the tiling exactly if no other live block starts between the lowest unused
   * block and it; otherwise the merging swallows live addresses and can hand them out again.
   */
  lemma UnmapTilesIff(vm: Vm, j: nat, total: nat)
    requires Tiles(vm, total) && j < |vm.used|
    ensures Tiles(Unmap(vm, j), total) <==> NothingBelow(vm, j)
  {
    var live, b := Pages(vm.used), Aligned(vm.used[j]);
    var k := FirstFrom(vm.unused, End(b));
    var u := Inserted(vm.unused, k, b);
    InsertedTiles(vm.unused, live, j, total);
    InsertedIsSorted(vm.unused, live, j, total);
    PagesWithout(vm.used, j);
    MergeTilesIff(u, k, Without(live, j), total);
    ContiguousIffNoneBetween(u, k, Without(live, j), total);
    BetweenIsBelow(vm, j, total);
  }

  lemma BetweenIsBelow(vm: Vm, j: nat, total: nat)
    requires Tiles(vm, total) && j < |vm.used|
    ensures var live, b := Pages(vm.used), Aligned(vm.used[j]); var k := FirstFrom(vm.unused, End(b));
            var u := Inserted(vm.unused, k, b);
            NoneBetween(u, k, Without(live, j)) <==> NothingBelow(vm, j)
  {
    var live, b := Pages(vm.used), Aligned(vm.used[j]);
    var k := FirstFrom(vm.unused, End(b));
    var u := Inserted(vm.unused, k, b);
    InsertedIsSorted(vm.unused, live, j, total);
    if k == 0 {
      assert vm.unused == [] || vm.unused[0].addr >= End(b);
    } else {
      assert u[..k][0] == vm.unused[..k][0];
      hide Inserted, FirstFrom, Without, Tiling, Aligned;
      NoneBetweenWithout(u, k, vm.used, j);
    }
  }

  lemma NoneBetweenWithout(u: seq<Block>, k: nat, used: seq<Block>, j: nat)
    requires k < |u| && j < |used| && u[k].addr == used[j].addr
    ensures NoneBetween(u, k, Without(Pages(used), j))
       <==> forall i :: 0 <= i < |used| && i != j ==> !(u[0].addr <= used[i].addr < used[j].addr)
  {
    WithoutSize(used, j);
    var w := Without(Pages(used), j);
    hide Pages, Without;
    if NoneBetween(u, k, w) {
      forall i | 0 <= i < |used| && i != j
        ensures !(u[0].addr <= used[i].addr < used[j].addr)
      {
        WithoutAt(used, j, if i < j then i else i - 1);
      }
    } else {
      var q :| 0 <= q < |w| && u[0].addr <= w[q].addr < u[k].addr;
      WithoutAt(used, j, q);
    }
  }

  lemma WithoutSize(used: seq<Block>, j: nat)
    requires j < |used|
    ensures |Without(Pages(used), j)| == |used| - 1
  {
  }

  lemma WithoutAt(used: seq<Block>, j: nat, q: nat)
    requires j < |used| && q < |used| - 1
    ensures |Without(Pages(used), j)| == |used| - 1
    ensures Without(Pages(used), j)[q].addr == used[if q < j then q else q + 1].addr
  {
  }

  // ---------------------------------------------------------------- one allocation

  lemma TakenIsSorted(u: seq<Block>, k: nat, n: nat)
    requires Sorted(u) && k < |u| && 0 < n <= u[k].size
    ensures Sorted(Taken(u, k, n))
  {
    var r := Taken(u, k, n);
    if u[k].size == n {
      forall i, j | 0 <= i < j < |r|
        ensures End(r[i]) <= r[j].addr
      {
        assert End(u[if i < k then i else i + 1]) <= u[if j < k then j else j + 1].addr;
      }
    }
  }

  lemma TakenCovers(u: seq<Block>, k: nat, n: nat, x: nat)
    requires Sorted(u) && k < |u| && 0 < n <= u[k].size
    ensures InSome(Taken(u, k, n), x) <==> InSome(u, x) && !In(Block(u[k].addr, n), x)
  {
    InSomeSplit(u, k, x);
    if In(u[k], x) {
      OthersMiss(u, k, x);
    }
    hide InSome, Sorted;
    var e := Block(u[k].addr + n, u[k].size - n);
    if u[k].size == n {
      InSomeAppend(u[..k], u[k + 1..], x);
    } else {
      assert u[k := e] == u[..k] + [e] + u[k + 1..];
      InSomeJoin(u[..k], e, u[k + 1..], x);
    }
  }

  lemma OthersMiss(u: seq<Block>, k: nat, x: nat)
    requires Sorted(u) && k < |u| && In(u[k], x)
    ensures !InSome(u[..k], x) && !InSome(u[k + 1..], x)
  {
    forall i | 0 <= i < k
      ensures !In(u[..k][i], x)
    {
      assert End(u[i]) <= u[k].addr;
    }
    var c := u[k + 1..];
    forall i | 0 <= i < |c|
      ensures !In(c[i], x)
    {
      assert c[i] == u[k + 1 + i];
    }
  }

  lemma NewIsApart(unused: seq<Block>, live: seq<Block>, total: nat, k: nat, n: nat)
    requires Tiling(unused, live, total) && k < |unused| && 0 < n <= unused[k].size
    ensures AllApart([Block(unused[k].addr, n)] + live)
  {
    hide InSome;
    forall j | 0 <= j < |live|
      ensures Apart(Block(unused[k].addr, n), live[j])
    {
      FreeIsApart(unused, live, total, k, j);
    }
  }

  lemma TakenTiles(unused: seq<Block>, live: seq<Block>, total: nat, k: nat, n: nat)
    requires Tiling(unused, live, total) && k < |unused| && 0 < n <= unused[k].size
    ensures Tiling(Taken(unused, k, n), [Block(unused[k].addr, n)] + live, total)
  {
    var b := Block(unused[k].addr, n);
    TakenIsSorted(unused, k, n);
    NewIsApart(unused, live, total, k, n);
    hide InSome, AllApart, Sorted, In, Taken;
    forall x: nat
      ensures InSome(Taken(unused, k, n), x) <==> InSome(unused, x) && !In(b, x)
      ensures InSome([b] + live, x) <==> In(b, x) || InSome(live, x)
      ensures In(b, x) ==> InSome(unused, x)
    {
      TakenCovers(unused, k, n, x);
      InSomeAppend([b], live, x);
      InSomeOne(b, x);
      InSomeSplit(unused, k, x);
      FrontIsIn(unused[k], n, x);
    }
  }

  lemma FrontIsIn(e: Block, n: nat, x: nat)
    requires n <= e.size
    ensures In(Block(e.addr, n), x) ==> In(e, x)
  {
  }

  /** Mapping any positive number of bytes keeps the tiling. */
  lemma MapTiles(vm: Vm, size: int, total: nat)
    requires Tiles(vm, total) && CanMap(vm, size) && Align(size) > 0
    ensures Tiles(Map(vm, size), total)
  {
    var n := Align(size);
    var k := FirstFit(vm.unused, n);
    hide Tiling, Taken, Pages, Align;
    TakenTiles(vm.unused, Pages(vm.used), total, k, n);
    PagesOfMapped(vm.unused[k].addr, size, vm.used);
  }

  lemma PagesOfMapped(addr: nat, size: int, used: seq<Block>)
    ensures Pages([Block(addr, U32(size))] + used) == [Block(addr, Align(size))] + Pages(used)
  {
    AlignOfStored(size);
    assert ([Block(addr, U32(size))] + used)[1..] == used;
  }

  /** Runs of mappings of at least a page in which no release has a live block between it and the lowest free one. */
  ghost predicate Clean(total: nat, es: seq<Event>)
    decreases |es|
  {
    es == [] ||
    var vm := Run(total, es[..|es| - 1]);
    Clean(total, es[..|es| - 1])
    && match es[|es| - 1]
       case Mapped(_) => true
       case Unmapped(j) => j < |vm.used| ==> NothingBelow(vm, j)
  }

  /** The space is tiled at every moment of a run. */
  ghost predicate AlwaysTiled(total: nat, es: seq<Event>) {
    forall k :: 0 <= k <= |es| ==> Tiles(Run(total, es[..k]), total)
  }

  lemma AlwaysTiledNext(total: nat, es: seq<Event>)
    requires es != []
    ensures AlwaysTiled(total, es) <==> AlwaysTiled(total, es[..|es| - 1]) && Tiles(Run(total, es), total)
  {
    hide Tiles, Run;
    var front := es[..|es| - 1];
    assert es[..|es|] == es;
    assert forall k :: 0 <= k <= |front| ==> front[..k] == es[..k];
    if AlwaysTiled(total, es) {
      assert forall k :: 0 <= k <= |front| ==> Tiles(Run(total, es[..k]), total);
    }
    if AlwaysTiled(total, front) && Tiles(Run(total, es), total) {
      forall k | 0 <= k <= |es| ensures Tiles(Run(total, es[..k]), total) {
        if k < |es| {
          assert Tiles(Run(total, front[..k]), total);
        }
      }
    }
  }

  lemma CreatedTiles(total: nat)
    requires total > 0
    ensures Tiles(Created(total), total)
  {
    forall x: nat ensures InSome([Block(0, total)], x) <==> x < total {
      InSomeOne(Block(0, total), x);
    }
  }

  /**
   * Over a whole run of mappings, the address space is tiled at every moment, that is, no address is lost and
   * none is given to two buffers, exactly if every release meets the condition when it comes.
   */
  lemma {:induction false} EveryRunTilesIff(total: nat, es: seq<Event>)
    requires total > 0 && forall i :: 0 <= i < |es| && es[i].Mapped? ==> Align(es[i].size) > 0
    ensures AlwaysTiled(total, es) <==> Clean(total, es)
    decreases |es|
  {
    hide Tiles, NothingBelow, CanMap, Map, Unmap, Align, AlwaysTiled;
    if es == [] {
      NothingRunTiles(total);
    } else {
      var front := es[..|es| - 1];
      AlwaysTiledNext(total, es);
      EveryRunTilesIff(total, front);
      if AlwaysTiled(total, front) {
        TiledNow(total, front);
        var vm := Run(total, front);
        match es[|es| - 1]
        case Mapped(size) => if CanMap(vm, size) { MapTiles(vm, size, total); }
        case Unmapped(j) => if j < |vm.used| { UnmapTilesIff(vm, j, total); }
      }
    }
  }

  lemma NothingRunTiles(total: nat)
    requires total > 0
    ensures AlwaysTiled(total, [])
  {
    CreatedTiles(total);
    hide Tiles;
  }

  lemma TiledNow(total: nat, es: seq<Event>)
    requires AlwaysTiled(total, es)
    ensures Tiles(Run(total, es), total)
  {
    assert es[..|es|] == es;
  }

  lemma FirstFitExample(b: Block, size: nat)
    requires b.size >= size
    ensures FirstFit([b], size) == 0
  {
  }

  lemma MapExample(vm: Vm, size: int, b: Block)
    requires vm.unused == [b] && vm.size == b.size && Align(size) < b.size
    ensures CanMap(vm, size)
    ensures Map(vm, size) == Vm(vm.size - Align(size), [Block(b.addr + Align(size), b.size - Align(size))],
            [Block(b.addr, U32(size))] + vm.used)
  {
    FirstFitExample(b, Align(size));
  }

  lemma FirstFromExample(b: Block, addr: nat)
    requires b.addr >= addr
    ensures FirstFrom([b], addr) == 0
  {
  }

  lemma UnmapBelowExample(vm: Vm, j: nat, b: Block)
    requires j < |vm.used| && vm.unused == [b] && End(Aligned(vm.used[j])) < b.addr
    ensures Unmap(vm, j) == Vm(vm.size + Align(vm.used[j].size), [Aligned(vm.used[j]), b],
            vm.used[..j] + vm.used[j + 1..])
  {
    FirstFromExample(b, End(Aligned(vm.used[j])));
  }

  lemma UnmapBetweenExample(vm: Vm, a: Block, c: Block)
    requires |vm.used| == 2 && vm.unused == [a, c]
    requires a.addr < End(a) < vm.used[0].addr && End(Aligned(vm.used[0])) == c.addr
    ensures Unmap(vm, 0) == Vm(vm.size + Align(vm.used[0].size),
            [Block(a.addr, a.size + c.size + Align(vm.used[0].size))], [vm.used[1]])
  {
    var b := Aligned(vm.used[0]);
    assert [a, c][1..] == [c];
    FirstFromExample(c, End(b));
    assert FirstFrom([a, c], End(b)) == 1;
    var m := Block(b.addr, c.size + b.size);
    assert Inserted([a, c], 1, b) == [a, m];
    assert [a, m][..0] + [Block(a.addr, a.size + m.size)] + [a, m][2..] == [Block(a.addr, a.size + m.size)];
  }

  /** After three pages were mapped in turn. */
  function ThreeMapped(t: nat): (vm: Vm)
    requires t > 12288
  {
    Vm(t - 12288, [Block(12288, t - 12288)], [Block(8192, 4096), Block(4096, 4096), Block(0, 4096)])
  }

  lemma ThreeMappedExample(t: nat)
    requires t > 12288
    ensures Apply(Apply(Apply(Created(t), Mapped(4096)), Mapped(4096)), Mapped(4096)) == ThreeMapped(t)
  {
    MapExample(Created(t), 4096, Block(0, t));
    var vm1 := Vm(t - 4096, [Block(4096, t - 4096)], [Block(0, 4096)]);
    MapExample(vm1, 4096, Block(4096, t - 4096));
    var vm2 := Vm(t - 8192, [Block(8192, t - 8192)], [Block(4096, 4096), Block(0, 4096)]);
    MapExample(vm2, 4096, Block(8192, t - 8192));
    hide CanMap, Map;
    assert [Block(4096, 4096)] + [Block(0, 4096)] == vm2.used;
    assert [Block(8192, 4096)] + vm2.used == ThreeMapped(t).used;
    assert Apply(Created(t), Mapped(4096)) == vm1;
    assert Apply(vm1, Mapped(4096)) == vm2;
  }

  lemma FirstReleasedExample(t: nat)
    requires t > 12288
    ensures Apply(ThreeMapped(t), Unmapped(2))
         == Vm(t - 8192, [Block(0, 4096), Block(12288, t - 12288)], [Block(8192, 4096), Block(4096, 4096)])
  {
    var vm3 := ThreeMapped(t);
    UnmapBelowExample(vm3, 2, Block(12288, t - 12288));
    hide Unmap;
    assert vm3.used[..2] + vm3.used[3..] == [Block(8192, 4096), Block(4096, 4096)];
  }

  /** After the first and then the third of them were released. */
  function TwoReleased(t: nat): (vm: Vm)
    requires t > 12288
  {
    Vm(t - 4096, [Block(0, t - 4096)], [Block(4096, 4096)])
  }

  lemma ThirdReleasedExample(t: nat)
    requires t > 12288
    ensures Apply(Vm(t - 8192, [Block(0, 4096), Block(12288, t - 12288)], [Block(8192, 4096), Block(4096, 4096)]),
            Unmapped(0))
         == TwoReleased(t)
  {
    var vm4 := Vm(t - 8192, [Block(0, 4096), Block(12288, t - 12288)], [Block(8192, 4096), Block(4096, 4096)]);
    UnmapBetweenExample(vm4, Block(0, 4096), Block(12288, t - 12288));
    hide Unmap;
  }

  lemma MappedOverExample(t: nat)
    requires t > 12288
    ensures TwoReleased(t).used == [Block(4096, 4096)] && TwoReleased(t).unused == [Block(0, t - 4096)]
    ensures Apply(TwoReleased(t), Mapped(8192)).used == [Block(0, 8192), Block(4096, 4096)]
  {
    MapExample(TwoReleased(t), 8192, Block(0, t - 4096));
    hide CanMap, Map;
  }

  /**
   * Three pages mapped in turn and the first and third released: the second is still mapped, but the merged
   * free block starts below it, and the next mapping of two pages gets it again.
   */
  lemma DoubleAllocationExample(t: nat)
    requires t > 12288
    ensures var vm3 := Apply(Apply(Apply(Created(t), Mapped(4096)), Mapped(4096)), Mapped(4096));
            var vm := Apply(Apply(vm3, Unmapped(2)), Unmapped(0));
            && vm.used == [Block(4096, 4096)] && vm.unused == [Block(0, t - 4096)]
            && Apply(vm, Mapped(8192)).used == [Block(0, 8192), Block(4096, 4096)]
  {
    ThreeMappedExample(t);
    FirstReleasedExample(t);
    ThirdReleasedExample(t);
    MappedOverExample(t);
    hide Apply, Created, ThreeMapped, TwoReleased;
  }

  // ---------------------------------------------------------------- last mapped, first released

  /** Used blocks lie on top of each other, the last one mapped uppermost. */
  predicate Stacked(used: seq<Block>) {
    used == [] || (used[0].addr == TotalAligned(used[1..]) && Stacked(used[1..]))
  }

  /** Everything above the stack is one unused block. */
  predicate StackOk(vm: Vm, total: nat) {
    var m := TotalAligned(vm.used);
    && Stacked(vm.used) && m <= total && vm.size == total - m
    && vm.unused == (if m == total then [] else [Block(m, total - m)])
    && (m == total ==> vm.used != [] && Align(vm.used[0].size) > 0)
  }

  lemma StackMap(vm: Vm, size: int, total: nat)
    requires StackOk(vm, total) && CanMap(vm, size)
    ensures StackOk(Map(vm, size), total)
  {
    var n := Align(size);
    assert vm.unused != [];
    var b := vm.unused[0];
    FirstFitExample(b, n);
    AlignOfStored(size);
    assert ([Block(b.addr, U32(size))] + vm.used)[1..] == vm.used;
    assert [b][..0] + [b][1..] == [];
  }

  lemma StackUnmap(vm: Vm, total: nat)
    requires StackOk(vm, total) && vm.used != []
    ensures StackOk(Unmap(vm, 0), total)
  {
    hide Unmap, Align;
    UnmapTop(vm);
  }

  lemma UnmapTop(vm: Vm)
    requires vm.used != [] && (vm.unused == [] || (|vm.unused| == 1 && vm.unused[0].addr == End(Aligned(vm.used[0]))))
    ensures var b := Aligned(vm.used[0]);
            Unmap(vm, 0) == Vm(vm.size + b.size,
                [Block(b.addr, b.size + if vm.unused == [] then 0 else vm.unused[0].size)], vm.used[1..])
  {
    hide Align;
    var b := Aligned(vm.used[0]);
    assert vm.used[..0] + vm.used[1..] == vm.used[1..];
    if vm.unused == [] {
      assert FirstFrom(vm.unused, End(b)) == 0;
      assert Inserted(vm.unused, 0, b) == [b];
    } else {
      FirstFromExample(vm.unused[0], End(b));
      var m := Block(b.addr, vm.unused[0].size + b.size);
      assert Inserted(vm.unused, 0, b) == [m];
    }
  }

  /**
   * When blocks are released in the reverse order of their mapping, the used ones fill the space from the
   * bottom without gaps and everything else is one unused block, or none.
   */
  lemma {:induction false} StackRun(total: nat, es: seq<Event>)
    requires total > 0 && forall i :: 0 <= i < |es| && es[i].Unmapped? ==> es[i].j == 0
    ensures StackOk(Run(total, es), total)
  {
    if es != [] {
      StackRun(total, es[..|es| - 1]);
      var vm := Run(total, es[..|es| - 1]);
      match es[|es| - 1]
      case Mapped(size) => if CanMap(vm, size) { StackMap(vm, size, total); }
      case Unmapped(j) => if j < |vm.used| { StackUnmap(vm, total); }
    }
  }

  // ---------------------------------------------------------------- the driver's object

  lemma MergeOne(u: seq<Block>, k: nat)
    requires 0 < k < |u| && End(u[k - 1]) <= u[k].addr
    ensures MergedBack(u, k) == MergedBack(u[..k - 1] + [Block(u[k - 1].addr, u[k - 1].size + u[k].size)] + u[k + 1..],
            k - 1)
  {
  }

  class Space {
    var size: nat
    var unused: seq<Block>
    var used: seq<Block>

    ghost function Abs(): (vm: Vm)
      reads this
    {
      Vm(size, unused, used)
    }

    constructor (total: nat)
      ensures Abs() == Created(total)
    {
      size, unused, used := total, [Block(0, total)], [];
    }

    method FindFit(n: nat) returns (k: nat)
      ensures k == FirstFit(unused, n)
    {
      k := 0;
      while k < |unused| && unused[k].size < n
        invariant k <= |unused| && FirstFit(unused, n) == k + FirstFit(unused[k..], n)
      {
        k := k + 1;
      }
    }

    /** Finds or splits off a block of whole pages; it joins the head of the used list. */
    method GetBlock(bytes: int) returns (ok: bool)
      modifies this
      ensures ok == CanMap(old(Abs()), bytes)
      ensures !ok ==> Abs() == old(Abs())
      ensures ok ==> var n := Align(bytes); var k := FirstFit(old(unused), n);
                     Abs() == Vm(old(size) - n, Taken(old(unused), k, n), [Block(old(unused)[k].addr, n)] + old(used))
      ensures ok ==> size + Align(bytes) == old(size)
    {
      var n := Align(bytes);
      if n > size {
        return false;
      }
      hide FirstFit;
      var k := FindFit(n);
      if k == |unused| {
        return false;
      }
      var e := unused[k];
      if e.size == n {
        unused := unused[..k] + unused[k + 1..];
      } else {
        unused := unused[k := Block(e.addr + n, e.size - n)];
      }
      used := [Block(e.addr, n)] + used;
      size := size - n;
      ok := true;
    }

    /** Maps a buffer; the block remembers the size asked for. */
    method MapBuffer(bytes: int) returns (ok: bool)
      modifies this
      ensures ok == CanMap(old(Abs()), bytes)
      ensures Abs() == if ok then Map(old(Abs()), bytes) else old(Abs())
    {
      ok := GetBlock(bytes);
      if ok {
        used := [Block(used[0].addr, U32(bytes))] + used[1..];
      }
    }

    /** Releases block `j` and merges it with its neighbours. */
    method PutBlock(j: nat)
      requires j < |used|
      modifies this
      ensures Abs() == Unmap(old(Abs()), j)
    {
      var b := Block(used[j].addr, Align(used[j].size));
      used := used[..j] + used[j + 1..];
      size := size + b.size;
      var k := Place(b);
      Merge(k);
    }

    /** Merges block `start` into the one before it, and so on, until one reaches past the next one's start. */
    method Merge(start: nat)
      requires start < |unused|
      modifies this`unused
      ensures unused == MergedBack(old(unused), start)
    {
      var k: nat := start;
      while k > 0
        modifies this`unused
        invariant k < |unused| && MergedBack(unused, k) == MergedBack(old(unused), start)
      {
        var entry, pre := unused[k], unused[k - 1];
        if pre.addr + pre.size > entry.addr {
          return;
        }
        MergeOne(unused, k);
        unused := unused[..k - 1] + [Block(pre.addr, pre.size + entry.size)] + unused[k + 1..];
        k := k - 1;
      }
    }

    /** Puts a block into the unused list, or makes it the front of the block it touches. */
    method Place(b: Block) returns (k: nat)
      modifies this`unused
      ensures k == FirstFrom(old(unused), End(b)) && unused == Inserted(old(unused), k, b)
    {
      k := 0;
      while k < |unused| && unused[k].addr < b.addr + b.size
        invariant k <= |unused| && FirstFrom(unused, End(b)) == k + FirstFrom(unused[k..], End(b))
      {
        k := k + 1;
      }
      if k == |unused| {
        unused := unused + [b];
      } else if b.addr + b.size == unused[k].addr {
        unused := unused[k := Block(b.addr, unused[k].size + b.size)];
      } else {
        unused := unused[..k] + [b] + unused[k..];
      }
    }
  }
}
