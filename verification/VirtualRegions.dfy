/** The allocator of virtual address regions in kernel/mmu.c: a bitmap with one bit per page, bit 0
    standing for the highest page, and aligned allocation by asking for more and giving back
    what is too much at either end. */
module VirtualRegions {

  datatype Option<+T> = None | Some(value: T)

  const PAGE := 4096
  const EINVAL := 22
  const EFAULT := 14
  const ENOSPC := 28

  // ---------------------------------------------------------------- bits

  ghost predicate AllAre(b: seq<bool>, off: nat, n: nat, v: bool) {
    off + n <= |b| && forall i | off <= i < off + n :: b[i] == v
  }

  ghost function SetRange(b: seq<bool>, off: nat, n: nat, v: bool): (r: seq<bool>)
    requires off + n <= |b|
    ensures |r| == |b| && forall i | 0 <= i < |b| :: r[i] == if off <= i < off + n then v else b[i]
  {
    seq(|b|, i requires 0 <= i < |b| => if off <= i < off + n then v else b[i])
  }

  function Count(b: seq<bool>): nat {
    if b == [] then 0 else (if b[0] then 1 else 0) + Count(b[1..])
  }

  lemma {:induction false} CountConcat(a: seq<bool>, b: seq<bool>)
    ensures Count(a + b) == Count(a) + Count(b)
    decreases a
  {
    if a == [] {
      assert a + b == b;
    } else {
      assert (a + b)[0] == a[0] && (a + b)[1..] == a[1..] + b;
      CountConcat(a[1..], b);
    }
  }

  lemma {:induction false} CountAll(b: seq<bool>, v: bool)
    requires forall i | 0 <= i < |b| :: b[i] == v
    ensures Count(b) == if v then |b| else 0
    decreases b
  {
    if b != [] { CountAll(b[1..], v); }
  }

  /** Setting a clear range sets exactly that many bits more, and clearing it again restores the
      bitmap. */
  lemma {:induction false} SetRangeBack(b: seq<bool>, off: nat, n: nat)
    requires AllAre(b, off, n, false)
    ensures Count(SetRange(b, off, n, true)) == Count(b) + n
    ensures AllAre(SetRange(b, off, n, true), off, n, true)
    ensures SetRange(SetRange(b, off, n, true), off, n, false) == b
  {
    var r := SetRange(b, off, n, true);
    var x, y := b[..off], b[off + n..];
    assert b == x + b[off..off + n] + y && r == x + r[off..off + n] + y;
    CountConcat(x + b[off..off + n], y);
    CountConcat(x, b[off..off + n]);
    CountConcat(x + r[off..off + n], y);
    CountConcat(x, r[off..off + n]);
    CountAll(b[off..off + n], false);
    CountAll(r[off..off + n], true);
  }

  /** Allocating too much and giving back both ends is allocating the middle. */
  lemma {:induction false} Trimmed(b: seq<bool>, off: nat, n: nat, front: nat, back: nat)
    requires AllAre(b, off, n, false) && front + back <= n
    ensures
      var r := SetRange(b, off, n, true);
      var r1 := SetRange(r, off + n - front, front, false);
      && AllAre(r, off + n - front, front, true)
      && AllAre(r1, off, back, true)
      && SetRange(r1, off, back, false) == SetRange(b, off + back, n - front - back, true)
      && AllAre(b, off + back, n - front - back, false)
  {
  }

  // ---------------------------------------------------------------- addresses

  /** The layout: all of it page-aligned. */
  datatype Layout = Layout(ramStart: nat, freeStart: nat, ramEnd: nat, reserved: nat)

  ghost predicate Sound(l: Layout) {
    && l.ramStart <= l.freeStart && l.freeStart + l.reserved <= l.ramEnd && l.ramStart < l.ramEnd
    && l.ramStart % PAGE == 0 && l.freeStart % PAGE == 0 && l.ramEnd % PAGE == 0 && l.reserved % PAGE == 0
  }

  function Bits(l: Layout): nat
    requires l.ramStart <= l.ramEnd
  {
    (l.ramEnd - l.ramStart) / PAGE
  }

  function RegionEnd(l: Layout): nat
    requires l.reserved <= l.ramEnd
  {
    l.ramEnd - l.reserved
  }

  /** virt_from_bitmap_offset() */
  function FromOffset(l: Layout, offset: nat, size: nat): nat
    requires offset * PAGE + size <= l.ramEnd
  {
    l.ramEnd - offset * PAGE - size
  }

  /** virt_to_bitmap_offset() */
  function ToOffset(l: Layout, addr: nat, size: nat): nat
    requires addr + size <= l.ramEnd
  {
    (l.ramEnd - addr - size) / PAGE
  }

  /** The pages below the free region are the last bits. */
  lemma {:induction false} LowOffset(l: Layout)
    requires Sound(l)
    ensures
      var low := l.freeStart - l.ramStart;
      && low / PAGE <= Bits(l) && l.reserved / PAGE <= Bits(l)
      && ToOffset(l, l.ramStart, low) == Bits(l) - low / PAGE
  {
  }

  /** The two conversions undo each other. */
  lemma {:induction false} OffsetsInvert(l: Layout, offset: nat, size: nat, addr: nat)
    requires Sound(l)
    ensures offset * PAGE + size <= l.ramEnd ==> ToOffset(l, FromOffset(l, offset, size), size) == offset
    ensures addr + size <= l.ramEnd && addr % PAGE == 0 && size % PAGE == 0 ==>
      ToOffset(l, addr, size) * PAGE + size <= l.ramEnd && FromOffset(l, ToOffset(l, addr, size), size) == addr
  {
  }

  /** ROUND_UP(), as arithmetic. */
  function RoundUp(x: nat, align: nat): nat
    requires align > 0
  {
    (x + (align - 1)) / align * align
  }

  lemma {:induction false} RoundUpFits(x: nat, align: nat)
    requires align > 0 && align % PAGE == 0 && x % PAGE == 0
    ensures var r := RoundUp(x, align); x <= r && r % align == 0 && r % PAGE == 0 && r - x <= align - PAGE
  {
    var k := (x + (align - 1)) / align;
    var c := align / PAGE;
    var r := k * align;
    assert x + (align - 1) == k * align + (x + (align - 1)) % align;
    ModMultiple(k, align);
    assert align == c * PAGE;
    assert r == k * (c * PAGE) == k * c * PAGE;
    ModMultiple(k * c, PAGE);
  }

  lemma {:induction false} ModMultiple(k: nat, m: nat)
    requires m > 0
    ensures k * m % m == 0
    decreases k
  {
    if k > 0 {
      ModMultiple(k - 1, m);
      assert k * m == (k - 1) * m + m;
      ModPlus((k - 1) * m, m);
    }
  }

  lemma {:induction false} MulMonotone(m: nat, x: nat, y: nat)
    requires x <= y
    ensures m * x <= m * y
  {
  }

  lemma {:induction false} ModPlus(x: nat, m: nat)
    requires m > 0 && x % m == 0
    ensures (x + m) % m == 0
  {
    var q := x / m;
    assert x == m * q;
    assert x + m == m * (q + 1);
    var d := (x + m) / m;
    assert x + m == m * d + (x + m) % m;
    if d > q + 1 { MulMonotone(m, q + 2, d); }
    if d < q + 1 { MulMonotone(m, d + 1, q + 1); }
  }

  // ---------------------------------------------------------------- live regions

  /** Address and size. */
  type Region = (nat, nat)

  datatype Step = Alloc(size: nat, align: nat) | Free(i: nat)

  ghost predicate Good(l: Layout, x: Region) {
    && x.1 > 0 && x.0 % PAGE == 0 && x.1 % PAGE == 0
    && l.reserved <= l.ramEnd && l.freeStart <= x.0 && x.0 + x.1 <= RegionEnd(l)
  }

  ghost predicate Apart(x: Region, y: Region) {
    x.0 + x.1 <= y.0 || y.0 + y.1 <= x.0
  }

  /** The bit stands for a page of the region. */
  ghost predicate Covers(l: Layout, x: Region, i: nat) {
    x.0 + x.1 <= l.ramEnd && ToOffset(l, x.0, x.1) <= i < ToOffset(l, x.0, x.1) + x.1 / PAGE
  }

  ghost predicate Covered(l: Layout, live: set<Region>, i: nat) {
    exists x :: x in live && Covers(l, x, i)
  }

  /** The bit stands for a page that is never handed out. */
  ghost predicate Fence(l: Layout, bits: nat, i: nat)
    requires l.ramStart <= l.freeStart
  {
    i < l.reserved / PAGE || bits - (l.freeStart - l.ramStart) / PAGE <= i
  }

  ghost predicate Tallies(l: Layout, b: seq<bool>, live: set<Region>)
    requires l.ramStart <= l.freeStart
  {
    forall i | 0 <= i < |b| :: b[i] <==> Fence(l, |b|, i) || Covered(l, live, i)
  }

  ghost predicate AllApart(live: set<Region>) {
    forall x, y | x in live && y in live && x != y :: Apart(x, y)
  }

  ghost predicate Ledger(l: Layout, b: seq<bool>, live: set<Region>) {
    && Sound(l) && |b| == Bits(l)
    && (forall x | x in live :: Good(l, x))
    && AllApart(live)
    && Tallies(l, b, live)
  }

  lemma {:induction false} LedgerStart(l: Layout, b: seq<bool>)
    requires Sound(l) && |b| == Bits(l) && forall i | 0 <= i < |b| :: b[i] <==> Fence(l, |b|, i)
    ensures Ledger(l, b, {})
  {
  }

  /** The bits of a good region are within the bitmap and not fences. */
  lemma {:induction false} GoodBits(l: Layout, x: Region, bits: nat)
    requires Sound(l) && Good(l, x) && bits == Bits(l)
    ensures var off, n := ToOffset(l, x.0, x.1), x.1 / PAGE;
      n > 0 && l.reserved / PAGE <= off && off + n <= bits - (l.freeStart - l.ramStart) / PAGE
  {
  }

  /** Two regions share a bit if and only if they overlap. */
  lemma {:induction false} SharedBit(l: Layout, x: Region, y: Region, i: nat)
    requires Sound(l) && Good(l, x) && Good(l, y) && Covers(l, x, i) && Covers(l, y, i)
    ensures !Apart(x, y)
  {
  }

  /** An aligned stretch of clear bits may become a live region: it is apart from all others. */
  lemma {:induction false} LedgerAlloc(l: Layout, b: seq<bool>, live: set<Region>, x: Region)
    requires Ledger(l, b, live) && Good(l, x) && AllAre(b, ToOffset(l, x.0, x.1), x.1 / PAGE, false)
    ensures Ledger(l, SetRange(b, ToOffset(l, x.0, x.1), x.1 / PAGE, true), live + {x})
    ensures forall y | y in live :: Apart(y, x)
  {
    hide Fence, Bits;
    var off, n := ToOffset(l, x.0, x.1), x.1 / PAGE;
    forall y | y in live ensures Apart(y, x) {
      LiveSet(l, b, live, y);
      RegionsDisjoint(l, b, y.0, y.1, x.0, x.1);
    }
    var b', live' := SetRange(b, off, n, true), live + {x};
    forall i | 0 <= i < |b'| ensures b'[i] <==> Fence(l, |b'|, i) || Covered(l, live', i) {
      CoveredMore(l, live, x, i);
      assert b[i] <==> Fence(l, |b|, i) || Covered(l, live, i);
    }
  }

  lemma {:induction false} CoveredMore(l: Layout, live: set<Region>, x: Region, i: nat)
    ensures Covered(l, live + {x}, i) <==> Covered(l, live, i) || Covers(l, x, i)
  {
    if Covered(l, live, i) {
      var y :| y in live && Covers(l, y, i);
      assert y in live + {x};
    }
    if Covers(l, x, i) { assert x in live + {x}; }
  }

  lemma {:induction false} LiveSet(l: Layout, b: seq<bool>, live: set<Region>, x: Region)
    requires Ledger(l, b, live) && x in live
    ensures Good(l, x) && AllAre(b, ToOffset(l, x.0, x.1), x.1 / PAGE, true)
  {
    assert Good(l, x);
    GoodBits(l, x, |b|);
    var off, n := ToOffset(l, x.0, x.1), x.1 / PAGE;
    hide Fence, Bits, Sound;
    forall i | off <= i < off + n ensures b[i] {
      assert Covers(l, x, i);
      assert Covered(l, live, i);
    }
  }

  /** A live region's bits are set, are its own, and clearing them removes it from the ledger. */
  lemma {:induction false} LedgerFree(l: Layout, b: seq<bool>, live: set<Region>, x: Region)
    requires Ledger(l, b, live) && x in live
    ensures Good(l, x) && AllAre(b, ToOffset(l, x.0, x.1), x.1 / PAGE, true)
    ensures Ledger(l, SetRange(b, ToOffset(l, x.0, x.1), x.1 / PAGE, false), live - {x})
  {
    LiveSet(l, b, live, x);
    var off, n := ToOffset(l, x.0, x.1), x.1 / PAGE;
    var b', live' := SetRange(b, off, n, false), live - {x};
    GoodBits(l, x, |b|);
    forall i | 0 <= i < |b'| ensures b'[i] <==> Fence(l, |b'|, i) || Covered(l, live', i) {
      CoveredLess(l, live, x, i);
      assert b[i] <==> Fence(l, |b|, i) || Covered(l, live, i);
    }
  }

  lemma {:induction false} CoveredLess(l: Layout, live: set<Region>, x: Region, i: nat)
    requires Sound(l) && x in live && AllApart(live) && forall y | y in live :: Good(l, y)
    ensures Covered(l, live - {x}, i) <==> Covered(l, live, i) && !Covers(l, x, i)
  {
    if Covered(l, live, i) && !Covers(l, x, i) {
      var y :| y in live && Covers(l, y, i);
      assert y in live - {x};
    }
    if Covered(l, live - {x}, i) {
      var y :| y in live - {x} && Covers(l, y, i);
      assert y in live && Apart(x, y);
      if Covers(l, x, i) { SharedBit(l, x, y, i); }
    }
  }

  /** The region at `addr` was clear, is aligned and inside the free region, and is what has been set. */
  ghost predicate Allotted(l: Layout, b: seq<bool>, b': seq<bool>, addr: nat, size: nat, align: nat)
    requires align > 0
  {
    && l.reserved <= l.ramEnd && l.freeStart <= addr && addr + size <= RegionEnd(l)
    && addr % align == 0 && addr % PAGE == 0
    && AllAre(b, ToOffset(l, addr, size), size / PAGE, false)
    && b' == SetRange(b, ToOffset(l, addr, size), size / PAGE, true)
  }

  /** No run of clear pages is as long as the enlarged request. */
  ghost predicate NoRoom(b: seq<bool>, size: nat, align: nat) {
    var n := (size + align - PAGE) / PAGE;
    n <= 0 || forall j: nat :: !AllAre(b, j, n, false)
  }

  /** The region lies in the first such run, as low in address as alignment allows. */
  ghost predicate FirstFit(l: Layout, b: seq<bool>, addr: nat, size: nat, align: nat, off: nat)
    requires align > 0
  {
    var n := (size + align - PAGE) / PAGE;
    && n > 0 && AllAre(b, off, n, false) && (forall j | 0 <= j < off :: !AllAre(b, j, n, false))
    && off * PAGE + n * PAGE <= l.ramEnd && addr == RoundUp(FromOffset(l, off, n * PAGE), align)
  }

  lemma {:induction false} LedgerAllotted(
    l: Layout, b: seq<bool>, b': seq<bool>, live: set<Region>, addr: nat, size: nat, align: nat)
    requires align > 0 && size % PAGE == 0 && Ledger(l, b, live) && Allotted(l, b, b', addr, size, align)
    ensures if size > 0 then Ledger(l, b', live + {(addr, size)}) else Ledger(l, b', live)
    ensures size > 0 ==> forall x | x in live :: Apart(x, (addr, size))
  {
    hide Ledger;
    if size > 0 {
      LedgerAlloc(l, b, live, (addr, size));
    } else {
      NothingSet(b, ToOffset(l, addr, size));
    }
  }

  /** The regions the callers hold are the live ones, each once. */
  ghost predicate Holdings(held: seq<Region>, live: set<Region>) {
    && (forall x :: x in held <==> x in live)
    && (forall i, j | 0 <= i < j < |held| :: held[i] != held[j])
  }

  lemma {:induction false} NotOwn(live: set<Region>, x: Region)
    requires x.1 > 0 && forall y | y in live :: Apart(y, x)
    ensures x !in live
  {
  }

  lemma {:induction false} DropHolding(held: seq<Region>, live: set<Region>, i: nat)
    requires Holdings(held, live) && i < |held|
    ensures Holdings(held[..i] + held[i + 1..], live - {held[i]})
  {
    var rest := held[..i] + held[i + 1..];
    forall x ensures x in rest <==> x in live - {held[i]} {
      if x in held && x != held[i] {
        var j :| 0 <= j < |held| && held[j] == x;
        assert rest[if j < i then j else j - 1] == x;
      }
      if x in rest {
        var j :| 0 <= j < |rest| && rest[j] == x;
        assert held[if j < i then j else j + 1] == x;
      }
    }
  }

  lemma {:induction false} HeldApart(l: Layout, b: seq<bool>, live: set<Region>, held: seq<Region>)
    requires (Ledger(l, b, live) || live == {}) && Holdings(held, live)
    ensures forall i, j | 0 <= i < j < |held| :: Apart(held[i], held[j])
    ensures forall i | 0 <= i < |held| :: Good(l, held[i])
  {
    assert forall i | 0 <= i < |held| :: held[i] in held;
  }

  // ---------------------------------------------------------------- the allocator

  class Regions {
    const layout: Layout
    var bitmap: seq<bool>
    var inited: bool
    ghost var live: set<Region>

    /** The pages that are never handed out: those reserved at the top and those below the free
        region. */
    ghost predicate Fenced(b: seq<bool>)
      requires Sound(layout)
    {
      var low := (layout.freeStart - layout.ramStart) / PAGE;
      && |b| == Bits(layout)
      && AllAre(b, 0, layout.reserved / PAGE, true)
      && low <= |b| && AllAre(b, |b| - low, low, true)
    }

    ghost predicate Shape()
      reads this
    {
      && Sound(layout) && |bitmap| == Bits(layout)
      && (inited ==> Fenced(bitmap))
      && (!inited ==> AllAre(bitmap, 0, |bitmap|, false))
    }

    /** Besides, the set bits are the fences and the live regions, no two of which overlap. */
    ghost predicate Valid()
      reads this
    {
      && Shape()
      && (inited ==> Ledger(layout, bitmap, live))
      && (!inited ==> live == {})
    }

    /** The bitmap as virt_region_init() leaves it if it has not run yet. */
    ghost function Ready(): (b: seq<bool>)
      requires Shape()
      reads this
    {
      if inited then bitmap
      else
        var low := (layout.freeStart - layout.ramStart) / PAGE;
        SetRange(SetRange(bitmap, 0, layout.reserved / PAGE, true), |bitmap| - low, low, true)
    }

    constructor (layout: Layout)
      requires Sound(layout)
      ensures Valid() && this.layout == layout && !inited && live == {}
    {
      this.layout := layout;
      bitmap := seq((layout.ramEnd - layout.ramStart) / PAGE, _ => false);
      inited, live := false, {};
    }

    /** sys_bitarray_set_region() */
    method SetRegion(n: nat, off: nat)
      requires off + n <= |bitmap|
      modifies this`bitmap
      ensures bitmap == SetRange(old(bitmap), off, n, true)
    {
      bitmap := seq(|bitmap|, i requires 0 <= i < |bitmap| reads this => if off <= i < off + n then true else bitmap[i]);
    }

    /** virt_region_init() */
    method Init()
      requires Shape() && !inited
      modifies this`bitmap, this`inited
      ensures Shape() && inited && bitmap == old(Ready())
    {
      hide Fenced, AllAre, ToOffset, Bits;
      LowOffset(layout);
      MarkedFenced(bitmap);
      if layout.reserved > 0 {
        SetRegion(layout.reserved / PAGE, 0);
      } else {
        NothingSet(bitmap, 0);
      }
      var low := layout.freeStart - layout.ramStart;
      var off := ToOffset(layout, layout.ramStart, low);
      SetRegion(low / PAGE, off);
      inited := true;
    }

    lemma {:induction false} MarkedFenced(b: seq<bool>)
      requires Sound(layout) && |b| == Bits(layout)
      ensures
        var low := (layout.freeStart - layout.ramStart) / PAGE;
        && layout.reserved / PAGE <= |b| && low <= |b|
        && Fenced(SetRange(SetRange(b, 0, layout.reserved / PAGE, true), |b| - low, low, true))
    {
      LowOffset(layout);
    }

    /** sys_bitarray_alloc(): the first run of clear bits that is long enough. */
    method BitAlloc(n: nat) returns (code: int, off: nat)
      modifies this`bitmap
      ensures code == 0 || code == -EINVAL || code == -ENOSPC
      ensures code == -EINVAL <==> n == 0 || n > |old(bitmap)|
      ensures code == 0 ==> AllAre(old(bitmap), off, n, false) && bitmap == SetRange(old(bitmap), off, n, true)
      ensures code == 0 ==> forall j | 0 <= j < off :: !AllAre(old(bitmap), j, n, false)
      ensures code == -ENOSPC ==> forall j :: !AllAre(old(bitmap), j, n, false)
      ensures code != 0 ==> bitmap == old(bitmap)
    {
      off := 0;
      if n == 0 || n > |bitmap| { return -EINVAL, 0; }
      while off <= |bitmap| - n
        invariant bitmap == old(bitmap) && off <= |bitmap| + 1
        invariant forall j | 0 <= j < off :: !AllAre(bitmap, j, n, false)
        decreases |bitmap| + 1 - off
      {
        var k := off;
        while k < off + n && !bitmap[k]
          invariant bitmap == old(bitmap) && off <= k <= off + n && forall i | off <= i < k :: !bitmap[i]
        {
          k := k + 1;
        }
        if k == off + n {
          SetRegion(n, off);
          return 0, off;
        }
        assert bitmap[k];
        off := k + 1;
      }
      code := -ENOSPC;
    }

    /** sys_bitarray_free(): refused unless every bit of the range is set. */
    method BitFree(n: nat, off: nat) returns (code: int)
      modifies this`bitmap
      ensures code == if n == 0 || off + n > |old(bitmap)| then -EINVAL else if AllAre(old(bitmap), off, n, true) then 0 else -EFAULT
      ensures code == 0 ==> bitmap == SetRange(old(bitmap), off, n, false)
      ensures code != 0 ==> bitmap == old(bitmap)
    {
      if n == 0 || n > |bitmap| || off >= |bitmap| || off + n - 1 >= |bitmap| { return -EINVAL; }
      var k := off;
      while k < off + n && bitmap[k]
        invariant bitmap == old(bitmap) && off <= k <= off + n && forall i | off <= i < k :: bitmap[i]
      {
        k := k + 1;
      }
      if k < off + n { return -EFAULT; }
      bitmap := seq(|bitmap|, i requires 0 <= i < |bitmap| reads this => if off <= i < off + n then false else bitmap[i]);
      code := 0;
    }

    /** virt_region_free() */
    method Free(addr: nat, size: nat)
      requires Shape()
      modifies this`bitmap, this`inited
      ensures Shape() && inited
      ensures
        var b, n := old(Ready()), size / PAGE;
        var inside := layout.freeStart <= addr && addr + size - 1 < RegionEnd(layout);
        bitmap ==
          if inside && n > 0 && AllAre(b, ToOffset(layout, addr, size), n, true) then SetRange(b, ToOffset(layout, addr, size), n, false)
          else b
    {
      if !inited { Init(); }
      ghost var b := bitmap;
      if !(addr >= layout.freeStart && addr + size - 1 < RegionEnd(layout)) { return; }
      var off := ToOffset(layout, addr, size);
      var n := size / PAGE;
      var code := BitFree(n, off);
      if code == 0 { StaysFenced(b, off, n, addr, size); }
    }

    /** Freeing within the free region never touches the fences. */
    lemma {:induction false} StaysFenced(b: seq<bool>, off: nat, n: nat, addr: nat, size: nat)
      requires Sound(layout) && Fenced(b) && n > 0 && n == size / PAGE
      requires layout.freeStart <= addr && addr + size <= RegionEnd(layout) && off == ToOffset(layout, addr, size)
      requires off + n <= |b|
      ensures Fenced(SetRange(b, off, n, false))
    {
      var low := (layout.freeStart - layout.ramStart) / PAGE;
      assert layout.reserved / PAGE <= off && off + n <= |b| - low;
    }

    /** Freeing an allocated part of the free region. */
    method FreePart(addr: nat, size: nat, ghost off: nat, ghost n: nat)
      requires Shape() && inited && layout.freeStart <= addr && addr + size <= RegionEnd(layout)
      requires n == size / PAGE && off == ToOffset(layout, addr, size) && AllAre(bitmap, off, n, true)
      modifies this`bitmap, this`inited
      ensures Shape() && inited && bitmap == SetRange(old(bitmap), off, n, false)
    {
      NoRange(bitmap, off);
      Free(addr, size);
    }

    /** The trimming in virt_region_alloc(): both ends that are not needed are freed. */
    method Trim(dest: nat, allocSize: nat, size: nat, align: nat, ghost b: seq<bool>, ghost off: nat, ghost n: nat) returns (aligned: nat)
      requires Shape() && inited && size % PAGE == 0 && align % PAGE == 0 && align > 0
      requires Fenced(b) && AllAre(b, off, n, false) && bitmap == SetRange(b, off, n, true)
      requires n * PAGE == allocSize == size + align - PAGE && n > 0
      requires off * PAGE + allocSize <= layout.ramEnd && dest == FromOffset(layout, off, allocSize)
      modifies this`bitmap, this`inited
      ensures Shape() && inited
      ensures aligned == RoundUp(dest, align) && aligned % align == 0 && dest <= aligned && aligned + size <= dest + allocSize
      ensures AllAre(b, ToOffset(layout, aligned, size), size / PAGE, false)
      ensures bitmap == SetRange(b, ToOffset(layout, aligned, size), size / PAGE, true)
    {
      hide AllAre, Fenced, SetRange, RoundUp, ToOffset;
      WithinFences(b, off, n);
      RoundUpFits(dest, align);
      aligned := RoundUp(dest, align);
      ghost var front, back := (aligned - dest) / PAGE, (dest + allocSize - (aligned + size)) / PAGE;
      TrimOffsets(layout, off, n, dest, aligned, size);
      Trimmed(b, off, n, front, back);
      FreePart(dest, aligned - dest, off + n - front, front);
      if dest + allocSize - (aligned + size) > 0 {
        FreePart(aligned + size, dest + allocSize - (aligned + size), off, back);
      } else {
        NoRange(bitmap, off);
      }
    }

    /** virt_region_alloc() for sizes and alignments in whole pages.  A region that is handed out is
        aligned, lies in the free region, was clear and is now exactly what is set besides; the check
        for stepping into the kernel never fires.  The call fails exactly if there is no run of
        clear pages of the enlarged size. */
    method AllocPages(size: nat, align: nat) returns (r: Option<nat>, ghost off: nat)
      requires Shape() && size % PAGE == 0 && align % PAGE == 0 && align > 0
      modifies this`bitmap, this`inited
      ensures Shape() && inited
      ensures if r.Some? then Allotted(layout, old(Ready()), bitmap, r.value, size, align) else bitmap == old(Ready())
      ensures NoRoom(old(Ready()), size, align) <==> r == None
      ensures r.Some? ==> FirstFit(layout, old(Ready()), r.value, size, align, off)
    {
      if !inited { Init(); }
      ghost var b := bitmap;
      var n := (size + align - PAGE) / PAGE;
      var allocSize := n * PAGE;
      var code, offset := BitAlloc(n);
      off := offset;
      if code != 0 { return None, 0; }
      WithinFences(b, off, n);
      var dest := FromOffset(layout, offset, allocSize);
      BlockFenced(b, off, n);
      if allocSize > size {
        ghost var start := dest;
        dest := Trim(dest, allocSize, size, align, b, off, n);
        RoundUpFits(start, align);
      } else {
        AlignedPage(dest, align);
      }
      if dest < layout.freeStart {
        assert false;
      }
      r := Some(dest);
    }

    /** virt_region_alloc() and the regions that are live: the new one meets none of the others. */
    method Alloc(size: nat, align: nat) returns (r: Option<nat>, ghost off: nat)
      requires Valid() && size % PAGE == 0 && align % PAGE == 0 && align > 0
      modifies this`bitmap, this`inited, this`live
      ensures Valid() && inited
      ensures live == if r.Some? && size > 0 then old(live) + {(r.value, size)} else old(live)
      ensures r.Some? && size > 0 ==> forall x | x in old(live) :: Apart(x, (r.value, size))
      ensures if r.Some? then Allotted(layout, old(Ready()), bitmap, r.value, size, align) else bitmap == old(Ready())
      ensures NoRoom(old(Ready()), size, align) <==> r == None
      ensures r.Some? ==> FirstFit(layout, old(Ready()), r.value, size, align, off)
    {
      hide Ledger, Fenced, Allotted, NoRoom, FirstFit;
      ghost var b := Ready();
      ReadyLedger();
      r, off := AllocPages(size, align);
      if r.Some? {
        LedgerAllotted(layout, b, bitmap, live, r.value, size, align);
        if size > 0 { live := live + {(r.value, size)}; }
      }
    }

    lemma {:induction false} ReadyLedger()
      requires Valid()
      ensures Ledger(layout, Ready(), live)
    {
      if !inited {
        hide Ledger;
        LedgerStart(layout, Ready());
      }
    }

    /** virt_region_free() of a live region: it is live no more, and no other bit changes. */
    method Release(addr: nat, size: nat)
      requires Valid() && (addr, size) in live
      modifies this`bitmap, this`inited, this`live
      ensures Valid() && inited && live == old(live) - {(addr, size)}
      ensures addr + size <= layout.ramEnd && ToOffset(layout, addr, size) + size / PAGE <= |old(bitmap)|
      ensures bitmap == SetRange(old(bitmap), ToOffset(layout, addr, size), size / PAGE, false)
    {
      hide Ledger, Fenced;
      LedgerFree(layout, bitmap, live, (addr, size));
      Free(addr, size);
      live := live - {(addr, size)};
    }

    /** Any run of allocations and of frees of what is held, in any order.  The regions held are apart
        from each other, inside the free region, and with the fences exactly what is marked. */
    method Run(steps: seq<Step>, start: seq<Region>) returns (held: seq<Region>)
      requires Valid() && Holdings(start, live)
      modifies this
      ensures Valid() && Holdings(held, live)
      ensures forall i, j | 0 <= i < j < |held| :: Apart(held[i], held[j])
      ensures forall i | 0 <= i < |held| :: layout.freeStart <= held[i].0 && held[i].0 + held[i].1 <= RegionEnd(layout)
    {
      hide Ledger;
      held := start;
      for k := 0 to |steps|
        invariant Valid() && Holdings(held, live)
      {
        match steps[k] {
          case Alloc(size, align) =>
            if size % PAGE == 0 && align % PAGE == 0 && align > 0 {
              ghost var before := live;
              var r, _ := Alloc(size, align);
              if r.Some? && size > 0 {
                NotOwn(before, (r.value, size));
                held := held + [(r.value, size)];
              }
            }
          case Free(i) =>
            if i < |held| {
              DropHolding(held, live, i);
              Release(held[i].0, held[i].1);
              held := held[..i] + held[i + 1..];
            }
        }
      }
      HeldApart(layout, bitmap, live, held);
    }

    /** Allocating a region and freeing it again leaves the bitmap as it was. */
    method AllocThenFree(size: nat, align: nat) returns (r: Option<nat>)
      requires Valid() && size % PAGE == 0 && align % PAGE == 0 && align > 0
      modifies this`bitmap, this`inited, this`live
      ensures Valid() && inited && bitmap == old(Ready()) && live == old(live)
    {
      hide Ledger;
      ghost var b := Ready();
      ghost var off;
      r, off := Alloc(size, align);
      if r.Some? {
        SetRangeBack(b, ToOffset(layout, r.value, size), size / PAGE);
        if size > 0 {
          NotOwn(old(live), (r.value, size));
          Release(r.value, size);
        } else {
          Free(r.value, size);
        }
      }
    }

    /** A run of clear bits lies between the fences. */
    lemma {:induction false} WithinFences(b: seq<bool>, off: nat, n: nat)
      requires Sound(layout) && Fenced(b) && AllAre(b, off, n, false) && n > 0
      ensures off >= layout.reserved / PAGE && off + n <= |b| - (layout.freeStart - layout.ramStart) / PAGE
      ensures off * PAGE + n * PAGE <= layout.ramEnd
      ensures layout.freeStart <= FromOffset(layout, off, n * PAGE)
      ensures FromOffset(layout, off, n * PAGE) + n * PAGE <= RegionEnd(layout)
      ensures FromOffset(layout, off, n * PAGE) % PAGE == 0
    {
      var low := (layout.freeStart - layout.ramStart) / PAGE;
      assert !b[off] && !b[off + n - 1];
      assert off >= layout.reserved / PAGE;
      assert off + n - 1 < |b| - low;
    }

    lemma {:induction false} BlockFenced(b: seq<bool>, off: nat, n: nat)
      requires Sound(layout) && Fenced(b) && off + n <= |b|
      ensures Fenced(SetRange(b, off, n, true))
    {
    }
  }

  lemma {:induction false} Clash(b: seq<bool>, o1: nat, n1: nat, o2: nat, n2: nat, k: nat)
    requires AllAre(b, o1, n1, true) && o1 <= k < o1 + n1 && o2 <= k < o2 + n2
    ensures !AllAre(b, o2, n2, false)
  {
    assert b[k];
  }

  /** Regions whose bits are set on the one hand and clear on the other do not overlap. */
  lemma {:induction false} RegionsDisjoint(l: Layout, b: seq<bool>, a1: nat, s1: nat, a2: nat, s2: nat)
    requires Sound(l) && a1 + s1 <= l.ramEnd && a2 + s2 <= l.ramEnd
    requires a1 % PAGE == 0 && s1 % PAGE == 0 && a2 % PAGE == 0 && s2 % PAGE == 0
    requires AllAre(b, ToOffset(l, a1, s1), s1 / PAGE, true) && AllAre(b, ToOffset(l, a2, s2), s2 / PAGE, false)
    ensures a1 + s1 <= a2 || a2 + s2 <= a1 || s1 == 0 || s2 == 0
  {
    var o1, n1, o2, n2 := ToOffset(l, a1, s1), s1 / PAGE, ToOffset(l, a2, s2), s2 / PAGE;
    if !(a1 + s1 <= a2 || a2 + s2 <= a1 || s1 == 0 || s2 == 0) {
      var k := if o1 < o2 then o2 else o1;
      Clash(b, o1, n1, o2, n2, k);
      assert false;
    }
  }

  lemma {:induction false} NothingSet(b: seq<bool>, off: nat)
    requires off <= |b|
    ensures SetRange(b, off, 0, true) == b
  {
  }

  lemma {:induction false} NoRange(b: seq<bool>, off: nat)
    requires off <= |b|
    ensures SetRange(b, off, 0, false) == b
  {
  }

  /** The bits of the two ends and of the middle. */
  lemma {:induction false} TrimOffsets(l: Layout, off: nat, n: nat, dest: nat, aligned: nat, size: nat)
    requires Sound(l) && off * PAGE + n * PAGE <= l.ramEnd && dest == FromOffset(l, off, n * PAGE)
    requires dest <= aligned && aligned + size <= dest + n * PAGE && aligned % PAGE == 0 && size % PAGE == 0 && dest % PAGE == 0
    ensures
      var front, back := (aligned - dest) / PAGE, (dest + n * PAGE - (aligned + size)) / PAGE;
      && front + back + size / PAGE == n
      && ToOffset(l, dest, aligned - dest) == off + n - front
      && ToOffset(l, aligned + size, dest + n * PAGE - (aligned + size)) == off
      && ToOffset(l, aligned, size) == off + back
  {
  }

  lemma {:induction false} AlignedPage(x: nat, align: nat)
    requires align == PAGE && x % PAGE == 0
    ensures x % align == 0 && RoundUp(x, align) == x
  {
  }
}
