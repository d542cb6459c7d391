/** The x86 page table builder of arch/x86/gen_mmu.py: a tree of tables addressed by the physical
    page each one will occupy, built by mapping, reserving and changing permissions of pages. */
module PageTables {

  datatype Option<+T> = None | Some(value: T)

  datatype Flag = P | RW | US | CD | SZ | G | XD | IGNORED0 | IGNORED1 | IGNORED2

  /** A table entry: the address bits and the flag bits, which never overlap (EntryBits). */
  datatype Entry = Entry(addr: nat, flags: set<Flag>)

  const ZERO := Entry(0, {})

  const PAGE := 4096

  const INT_FLAGS := {P, RW, US}

  /** A class of tables: how many bytes of memory one entry covers, how many entries there are and
      how wide each is, the first address an entry cannot hold, and the flags it may carry. */
  datatype Level = Level(span: nat, entries: nat, width: nat, addrLimit: nat, supported: set<Flag>)

  type Levels = seq<Level>

  // ---------------------------------------------------------------- the three paging modes

  const DIR_FLAGS := INT_FLAGS + {SZ, CD}
  const LEAF_FLAGS := {P, RW, US, G, CD, IGNORED0, IGNORED1}
  const LEAF_FLAGS_XD := LEAF_FLAGS + {XD, IGNORED2}
  const TWO32 := 0x1_0000_0000
  const TWO59 := 0x0800_0000_0000_0000
  const TWO63 := 0x8000_0000_0000_0000

  const LEVELS_32BIT: Levels := [
    Level(0x40_0000, 1024, 4, TWO32, DIR_FLAGS), Level(PAGE, 1024, 4, TWO32, LEAF_FLAGS)]

  const LEVELS_PAE: Levels := [
    Level(0x4000_0000, 4, 8, TWO63, DIR_FLAGS), Level(0x20_0000, 512, 8, TWO63, DIR_FLAGS),
    Level(PAGE, 512, 8, TWO59, LEAF_FLAGS_XD)]

  const LEVELS_IA32E: Levels := [
    Level(0x80_0000_0000, 512, 8, TWO63, INT_FLAGS), Level(0x4000_0000, 512, 8, TWO63, DIR_FLAGS),
    Level(0x20_0000, 512, 8, TWO63, DIR_FLAGS), Level(PAGE, 512, 8, TWO59, LEAF_FLAGS_XD)]

  /** What the builder relies on: each level splits one entry of the level above, and every
      intermediate level can mark an entry present and hold a table address. */
  ghost predicate Sound(levels: Levels) {
    && |levels| >= 2
    && (forall d | 0 <= d < |levels| :: levels[d].entries > 0 && levels[d].span > 0)
    && (forall d | 0 <= d < |levels| - 1 :: levels[d].span == levels[d + 1].entries * levels[d + 1].span)
    && levels[|levels| - 1].span == PAGE
    && (forall d | 0 <= d < |levels| - 1 :: P in levels[d].supported && levels[d].addrLimit == levels[0].addrLimit)
    && (forall d | 0 <= d < |levels| :: levels[d].addrLimit > 0)
    && (forall d | 1 <= d < |levels| :: levels[d].entries * levels[d].width == PAGE)
  }

  lemma {:induction false} ModesSound()
    ensures Sound(LEVELS_32BIT) && Sound(LEVELS_PAE) && Sound(LEVELS_IA32E)
  {
  }

  lemma {:induction false} AndOverOr(a: bv64, b: bv64, m: bv64)
    ensures (a | b) & m == (a & m) | (b & m)
  {
  }

  lemma {:induction false} AndRegroup(a: bv64, b: bv64, c: bv64)
    ensures a & b & c == a & (b & c) && a & b & c == a & (c & b) && a & b & b == a & b
  {
  }

  lemma {:induction false} AndNothing(a: bv64)
    ensures a & 0 == 0 && a | 0 == a && 0 | a == a
  {
  }

  /** The word an entry is packed into: with a mask for the address and a disjoint set of supported
      flags, both parts come back unchanged. */
  lemma {:induction false} EntryBits(addr: bv64, flags: bv64, mask: bv64, supported: bv64)
    requires mask & supported == 0
    ensures ((addr & mask) | (flags & supported)) & mask == addr & mask
    ensures ((addr & mask) | (flags & supported)) & supported == flags & supported
  {
    var a, f := addr & mask, flags & supported;
    AndOverOr(a, f, mask);
    AndOverOr(a, f, supported);
    AndRegroup(addr, mask, mask);
    AndRegroup(flags, supported, supported);
    AndRegroup(flags, supported, mask);
    AndRegroup(addr, mask, supported);
    AndNothing(flags);
    AndNothing(addr);
    AndNothing(a);
    AndNothing(f);
  }

  /** The masks of all table classes are disjoint from the flags they support. */
  lemma {:induction false} MasksDisjoint()
    ensures 0x7FFF_FFFF_FFFF_F000 as bv64 & 0x97 == 0
    ensures 0xFFFF_F000 as bv64 & 0x97 == 0 && 0xFFFF_F000 as bv64 & 0x717 == 0
    ensures 0x07FF_FFFF_FFFF_F000 as bv64 & 0x8000_0000_0000_0F17 == 0
  {
  }

  // ---------------------------------------------------------------- indices

  /** entry_index() */
  function Index(levels: Levels, d: nat, v: nat): (i: nat)
    requires d < |levels| && levels[d].span > 0 && levels[d].entries > 0
    ensures i < levels[d].entries
  {
    v / levels[d].span % levels[d].entries
  }

  /** The indices that lead to a page, from the top. */
  function Path(levels: Levels, v: nat, d: nat): (p: seq<nat>)
    requires d <= |levels| && forall k | 0 <= k < d :: levels[k].entries > 0 && levels[k].span > 0
    ensures |p| == d && forall k | 0 <= k < d :: p[k] == Index(levels, k, v)
  {
    if d == 0 then [] else Path(levels, v, d - 1) + [Index(levels, d - 1, v)]
  }

  /** The address bits that an entry of this level keeps. */
  function Masked(addr: nat, limit: nat): nat
    requires limit > 0
  {
    addr % limit / PAGE * PAGE
  }

  lemma {:induction false} MaskedKeeps(addr: nat, limit: nat)
    requires addr < limit && addr % PAGE == 0
    ensures Masked(addr, limit) == addr
  {
  }

  /** The size of the virtual address space. */
  function Total(levels: Levels): nat
    requires levels != []
  {
    levels[0].entries * levels[0].span
  }

  lemma {:induction false} MulMonotone(m: nat, x: nat, y: nat)
    requires x <= y
    ensures m * x <= m * y
  {
  }

  lemma {:induction false} MulRegroup(a: nat, b: nat, x: nat, y: nat)
    ensures b * (a * x + y) == a * b * x + b * y
  {
    assert b * (a * x + y) == b * (a * x) + b * y;
    assert b * (a * x) == a * b * x;
  }

  lemma {:induction false} DivUnique(u: nat, m: nat, q: nat, w: nat)
    requires m > 0 && u == m * q + w && w < m
    ensures u / m == q
  {
    var d := u / m;
    assert u == m * d + u % m;
    if d > q { MulMonotone(m, q + 1, d); }
    if d < q { MulMonotone(m, d + 1, q); }
  }

  lemma {:induction false} DivMod(u: nat, m: nat)
    requires m > 0
    ensures u == m * (u / m) + u % m
  {
  }

  lemma {:induction false} DivTwice(u: nat, a: nat, b: nat, q: nat, r: nat, q2: nat, r2: nat)
    requires u == b * q + r && r < b && q == a * q2 + r2 && r2 < a && a * b > 0
    ensures u / (a * b) == q2
  {
    MulRegroup(a, b, q2, r2);
    MulMonotone(b, r2, a - 1);
    assert b * (a - 1) == a * b - b;
    DivUnique(u, a * b, q2, b * r2 + r);
  }

  lemma {:induction false} DivDiv(u: nat, a: nat, b: nat)
    requires a > 0 && b > 0 && a * b > 0
    ensures u / (a * b) == u / b / a
  {
    DivMod(u, b);
    DivMod(u / b, a);
    DivTwice(u, a, b, u / b, u % b, u / b / a, u / b % a);
  }

  lemma {:induction false} SplitsAbove(levels: Levels, d: nat)
    requires Sound(levels) && d + 1 < |levels|
    ensures levels[d].span == levels[d + 1].entries * levels[d + 1].span
  {
  }

  lemma {:induction false} UnderSpan(levels: Levels, d: nat, u: nat)
    requires Sound(levels) && d + 1 < |levels|
    ensures u / levels[d].span == u / levels[d + 1].span / levels[d + 1].entries
  {
    hide Sound;
    Positive(levels);
    SplitsAbove(levels, d);
    DivDiv(u, levels[d + 1].entries, levels[d + 1].span);
  }

  /** Addresses under the same entry of a level are under the same entries of all levels above. */
  lemma {:induction false} SameAbove(levels: Levels, d: nat, u: nat, v: nat)
    requires Sound(levels) && d < |levels| && u / levels[d].span == v / levels[d].span
    ensures Path(levels, u, d + 1) == Path(levels, v, d + 1)
    decreases d
  {
    if d > 0 {
      UnderSpan(levels, d - 1, u);
      UnderSpan(levels, d - 1, v);
      SameAbove(levels, d - 1, u, v);
    }
  }

  /** The number that the first digits of a path spell. */
  function Number(levels: Levels, q: seq<nat>, d: nat): nat
    requires d < |q| <= |levels|
  {
    if d == 0 then q[0] else Number(levels, q, d - 1) * levels[d].entries + q[d]
  }

  lemma {:induction false} PathSpells(levels: Levels, d: nat, u: nat)
    requires Sound(levels) && d < |levels| && u < Total(levels)
    ensures u / levels[d].span == Number(levels, Path(levels, u, |levels|), d)
    decreases d
  {
    hide Total, Sound;
    Positive(levels);
    if d == 0 {
      FirstDigit(levels, u);
    } else {
      PathSpells(levels, d - 1, u);
      UnderSpan(levels, d - 1, u);
      DivMod(u / levels[d].span, levels[d].entries);
    }
  }

  lemma {:induction false} Positive(levels: Levels)
    requires Sound(levels)
    ensures |levels| >= 2
    ensures forall d | 0 <= d < |levels| ::
      levels[d].span > 0 && levels[d].entries > 0 && levels[d].entries * levels[d].span > 0 && levels[d].addrLimit > 0
  {
  }

  lemma {:induction false} FirstDigit(levels: Levels, u: nat)
    requires Sound(levels) && u < Total(levels)
    ensures Index(levels, 0, u) == u / levels[0].span
  {
    Positive(levels);
    DivDiv(u, levels[0].entries, levels[0].span);
    DivUnique(u, Total(levels), 0, u);
    SmallDigit(u / levels[0].span, levels[0].entries);
  }

  lemma {:induction false} SmallDigit(x: nat, m: nat)
    requires m > 0 && x / m == 0
    ensures x % m == x
  {
  }

  /** Two addresses share a path exactly when they lie in the same page. */
  lemma {:induction false} PathIsPage(levels: Levels, u: nat, v: nat)
    requires Sound(levels) && u < Total(levels) && v < Total(levels)
    ensures Path(levels, u, |levels|) == Path(levels, v, |levels|) <==> u / PAGE == v / PAGE
  {
    var n := |levels| - 1;
    if u / PAGE == v / PAGE { SameAbove(levels, n, u, v); }
    PathSpells(levels, n, u);
    PathSpells(levels, n, v);
  }

  // ---------------------------------------------------------------- the tree of tables

  type Table = seq<Entry>

  /** A table: the top-level one, or the one at a physical page. */
  datatype Ref = Root | At(addr: nat)

  predicate Live(tables: map<nat, Table>, r: Ref) {
    r.At? ==> r.addr in tables
  }

  function Deref(top: Table, tables: map<nat, Table>, r: Ref): Table
    requires Live(tables, r)
  {
    match r case Root => top case At(a) => tables[a]
  }

  /** Following present entries down from the top. */
  ghost function Walk(top: Table, tables: map<nat, Table>, q: seq<nat>): (r: Option<Ref>)
    ensures r.Some? ==> Live(tables, r.value)
    decreases |q|
  {
    if q == [] then Some(Root)
    else
      var n := |q| - 1;
      match Walk(top, tables, q[..n])
      case None => None
      case Some(r) =>
        var t := Deref(top, tables, r);
        if q[n] < |t| && P in t[q[n]].flags && t[q[n]].addr in tables then Some(At(t[q[n]].addr)) else None
  }

  /** What the tables say about a page: its leaf entry, or nothing if there is no leaf table. */
  ghost function Leaf(top: Table, tables: map<nat, Table>, q: seq<nat>): Entry
    requires q != []
  {
    var n := |q| - 1;
    match Walk(top, tables, q[..n])
    case None => ZERO
    case Some(r) =>
      var t := Deref(top, tables, r);
      if q[n] < |t| then t[q[n]] else ZERO
  }

  /** Where in the tree a table hangs. */
  ghost function Home(home: map<nat, seq<nat>>, r: Ref): seq<nat> {
    match r case Root => [] case At(a) => if a in home then home[a] else []
  }

  ghost predicate Slot(tables: map<nat, Table>, home: map<nat, seq<nat>>, q: seq<nat>, e: Entry) {
    if P in e.flags then e.addr in tables && e.addr in home && home[e.addr] == q else e == ZERO
  }

  /** Each table has the size of its level; a present entry of an intermediate table leads to the
      table that hangs there, any other is blank; and every table is reached, along the one path
      it hangs on: no table is shared or lost. */
  ghost predicate Tree(levels: Levels, top: Table, tables: map<nat, Table>, home: map<nat, seq<nat>>) {
    && Sound(levels)
    && Sized(levels, top, tables, home)
    && (forall a | a in tables :: Walk(top, tables, home[a]) == Some(At(a)))
    && Slotted(levels, top, tables, home)
  }

  ghost predicate Sized(levels: Levels, top: Table, tables: map<nat, Table>, home: map<nat, seq<nat>>)
    requires |levels| >= 2
  {
    && tables.Keys == home.Keys
    && |top| == levels[0].entries
    && (forall a | a in tables :: 1 <= |home[a]| < |levels| && |tables[a]| == levels[|home[a]|].entries)
  }

  ghost predicate Slotted(levels: Levels, top: Table, tables: map<nat, Table>, home: map<nat, seq<nat>>)
    requires tables.Keys == home.Keys
  {
    && (forall i | 0 <= i < |top| :: Slot(tables, home, [i], top[i]))
    && (forall a, i | a in tables && |home[a]| < |levels| - 1 && 0 <= i < |tables[a]| ::
          Slot(tables, home, home[a] + [i], tables[a][i]))
  }

  /** Whatever a walk reaches hangs where the walk went. */
  lemma {:induction false} WalkHome(levels: Levels, top: Table, tables: map<nat, Table>, home: map<nat, seq<nat>>, q: seq<nat>)
    requires Tree(levels, top, tables, home) && |q| < |levels|
    ensures
      var w := Walk(top, tables, q);
      w.Some? ==> Home(home, w.value) == q && |Deref(top, tables, w.value)| == levels[|q|].entries
    decreases |q|
  {
    if q != [] {
      var n := |q| - 1;
      WalkHome(levels, top, tables, home, q[..n]);
      assert q == q[..n] + [q[n]];
      var w := Walk(top, tables, q[..n]);
      if w.Some? {
        var t := Deref(top, tables, w.value);
        if q[n] < |t| && w.value.Root? {
          assert Slot(tables, home, [q[n]], t[q[n]]);
          assert q[..n] == [];
        } else if q[n] < |t| {
          assert Slot(tables, home, home[w.value.addr] + [q[n]], t[q[n]]);
        }
      }
    }
  }

  /** No table is shared: two paths never lead to the same table; and none is lost. */
  lemma {:induction false} Unshared(levels: Levels, top: Table, tables: map<nat, Table>, home: map<nat, seq<nat>>, p: seq<nat>, q: seq<nat>)
    requires Tree(levels, top, tables, home) && |p| < |levels| && |q| < |levels|
    ensures Walk(top, tables, p).Some? && Walk(top, tables, p) == Walk(top, tables, q) ==> p == q
    ensures forall a | a in tables :: exists r :: |r| < |levels| && Walk(top, tables, r) == Some(At(a))
  {
    WalkHome(levels, top, tables, home, p);
    WalkHome(levels, top, tables, home, q);
    forall a | a in tables ensures exists r :: |r| < |levels| && Walk(top, tables, r) == Some(At(a)) {
      assert Walk(top, tables, home[a]) == Some(At(a));
    }
  }

  /** Writing one entry of one table. */
  function SetTop(top: Table, r: Ref, i: nat, e: Entry): Table
    requires r.Root? ==> i < |top|
  {
    if r.Root? then top[i := e] else top
  }

  function SetTables(tables: map<nat, Table>, r: Ref, i: nat, e: Entry): map<nat, Table>
    requires Live(tables, r) && (r.At? ==> i < |tables[r.addr]|)
  {
    if r.At? then tables[r.addr := tables[r.addr][i := e]] else tables
  }

  function Blank(n: nat): Table {
    seq(n, _ => ZERO)
  }

  /** The state of the tree, for the lemmas below. */
  ghost predicate Growing(
    levels: Levels, top: Table, tables: map<nat, Table>, home: map<nat, seq<nat>>, r: Ref, p: seq<nat>, i: nat, a: nat, e: Entry)
  {
    && Tree(levels, top, tables, home) && |p| + 1 < |levels|
    && Walk(top, tables, p) == Some(r) && i < |Deref(top, tables, r)|
    && Deref(top, tables, r)[i] == ZERO
    && a !in tables && P in e.flags && e.addr == a
  }

  function Grown(tables: map<nat, Table>, r: Ref, i: nat, a: nat, e: Entry, entries: nat): map<nat, Table>
    requires Live(tables, r) && (r.At? ==> i < |tables[r.addr]|)
  {
    SetTables(tables, r, i, e)[a := Blank(entries)]
  }

  ghost function Next(tables: map<nat, Table>, t: Table, k: nat): Option<Ref> {
    if k < |t| && P in t[k].flags && t[k].addr in tables then Some(At(t[k].addr)) else None
  }

  lemma {:induction false} WalkStep(top: Table, tables: map<nat, Table>, q: seq<nat>, k: nat)
    ensures
      Walk(top, tables, q + [k]) ==
      match Walk(top, tables, q) case None => None case Some(r) => Next(tables, Deref(top, tables, r), k)
  {
    assert (q + [k])[..|q|] == q;
  }

  lemma {:induction false} SlotAt(
    levels: Levels, top: Table, tables: map<nat, Table>, home: map<nat, seq<nat>>, q: seq<nat>, u: Ref, k: nat)
    requires Tree(levels, top, tables, home) && |q| + 1 < |levels| && Walk(top, tables, q) == Some(u)
    ensures Home(home, u) == q && |Deref(top, tables, u)| == levels[|q|].entries
    ensures k < |Deref(top, tables, u)| ==> Slot(tables, home, q + [k], Deref(top, tables, u)[k])
  {
    hide Walk, Sound;
    WalkHome(levels, top, tables, home, q);
    if k < |Deref(top, tables, u)| {
      match u {
        case Root => assert Slot(tables, home, [k], top[k]) && [] + [k] == [k];
        case At(a) => assert Slot(tables, home, home[a] + [k], tables[a][k]);
      }
    }
  }

  /** One more step of a walk that had got somewhere before. */
  lemma {:induction false} GrowStep(
    levels: Levels, top: Table, tables: map<nat, Table>, home: map<nat, seq<nat>>, r: Ref, p: seq<nat>, i: nat, a: nat, e: Entry,
    q: seq<nat>, k: nat, u: Ref)
    requires Growing(levels, top, tables, home, r, p, i, a, e) && |q| + 1 < |levels|
    requires Walk(top, tables, q) == Some(u)
    ensures
      var tables' := Grown(tables, r, i, a, e, levels[|p| + 1].entries);
      var t, t' := Deref(top, tables, u), Deref(SetTop(top, r, i, e), tables', u);
      Next(tables', t', k) == if q == p && k == i then Some(At(a)) else Next(tables, t, k)
  {
    hide Tree, Walk, Sound;
    SlotAt(levels, top, tables, home, q, u, k);
    SlotAt(levels, top, tables, home, p, r, i);
    assert q == p <==> u == r by { WalkOne(top, tables, home, q, u, p, r); }
  }

  lemma {:induction false} WalkOne(
    top: Table, tables: map<nat, Table>, home: map<nat, seq<nat>>, q: seq<nat>, u: Ref, p: seq<nat>, r: Ref)
    requires Walk(top, tables, q) == Some(u) && Walk(top, tables, p) == Some(r)
    requires Home(home, u) == q && Home(home, r) == p
    ensures q == p <==> u == r
  {
  }

  /** Hanging a blank table into an empty slot adds one path and disturbs no other. */
  lemma {:induction false} GrowWalk(
    levels: Levels, top: Table, tables: map<nat, Table>, home: map<nat, seq<nat>>, r: Ref, p: seq<nat>, i: nat, a: nat, e: Entry, q: seq<nat>)
    requires Growing(levels, top, tables, home, r, p, i, a, e) && |q| < |levels|
    ensures
      Walk(SetTop(top, r, i, e), Grown(tables, r, i, a, e, levels[|p| + 1].entries), q) ==
      if q == p + [i] then Some(At(a)) else Walk(top, tables, q)
    decreases |q|
  {
    hide Tree, Walk;
    var top', tables' := SetTop(top, r, i, e), Grown(tables, r, i, a, e, levels[|p| + 1].entries);
    if q == [] {
      WalkNowhere(top, tables);
      WalkNowhere(top', tables');
    } else {
      var n := |q| - 1;
      assert q == q[..n] + [q[n]];
      GrowWalk(levels, top, tables, home, r, p, i, a, e, q[..n]);
      WalkStep(top, tables, q[..n], q[n]);
      WalkStep(top', tables', q[..n], q[n]);
      WalkStep(top, tables, p, i);
      assert q == p + [i] <==> q[..n] == p && q[n] == i;
      var w := Walk(top, tables, q[..n]);
      if q[..n] == p + [i] {
        BlankNext(tables', a, levels[|p| + 1].entries, q[n]);
      } else if w.Some? {
        GrowStep(levels, top, tables, home, r, p, i, a, e, q[..n], q[n], w.value);
      }
    }
  }

  lemma {:induction false} WalkNowhere(top: Table, tables: map<nat, Table>)
    ensures Walk(top, tables, []) == Some(Root)
  {
  }

  lemma {:induction false} BlankNext(tables: map<nat, Table>, a: nat, entries: nat, k: nat)
    requires a in tables && tables[a] == Blank(entries)
    ensures forall top :: Next(tables, Deref(top, tables, At(a)), k) == None
  {
  }

  lemma {:induction false} SlotMore(
    tables: map<nat, Table>, home: map<nat, seq<nat>>, tables': map<nat, Table>, home': map<nat, seq<nat>>, q: seq<nat>, f: Entry)
    requires Slot(tables, home, q, f) && tables.Keys <= tables'.Keys
    requires forall b | b in home && b in tables :: b in home' && home'[b] == home[b]
    ensures Slot(tables', home', q, f)
  {
  }

  ghost function Nth(t: Table, k: nat): Entry {
    if k < |t| then t[k] else ZERO
  }

  /** What hanging in a table makes of any one table's slots. */
  lemma {:induction false} GrowSlot(
    levels: Levels, top: Table, tables: map<nat, Table>, home: map<nat, seq<nat>>, r: Ref, p: seq<nat>, i: nat, a: nat, e: Entry,
    u: Ref, k: nat)
    requires Growing(levels, top, tables, home, r, p, i, a, e) && Live(tables, u)
    requires |Home(home, u)| < |levels| - 1 && k < |Deref(top, tables, u)|
    ensures
      var top', tables', home' := SetTop(top, r, i, e), Grown(tables, r, i, a, e, levels[|p| + 1].entries), home[a := p + [i]];
      Slot(tables', home', Home(home, u) + [k], Nth(Deref(top', tables', u), k))
  {
    hide Walk, Sound, Slot;
    var top', tables', home' := SetTop(top, r, i, e), Grown(tables, r, i, a, e, levels[|p| + 1].entries), home[a := p + [i]];
    SlotAt(levels, top, tables, home, p, r, i);
    if u == r && k == i {
      SlotNew(tables', home', p + [i], e);
    } else {
      match u {
        case Root => assert Slot(tables, home, [k], top[k]) && [] + [k] == [k];
        case At(b) => assert Slot(tables, home, home[b] + [k], tables[b][k]);
      }
      SlotMore(tables, home, tables', home', Home(home, u) + [k], Deref(top, tables, u)[k]);
    }
  }

  lemma {:induction false} SlotNew(tables: map<nat, Table>, home: map<nat, seq<nat>>, q: seq<nat>, e: Entry)
    requires P in e.flags && e.addr in tables && e.addr in home && home[e.addr] == q
    ensures Slot(tables, home, q, e)
  {
  }

  lemma {:induction false} GrowSlotted(
    levels: Levels, top: Table, tables: map<nat, Table>, home: map<nat, seq<nat>>, r: Ref, p: seq<nat>, i: nat, a: nat, e: Entry)
    requires Growing(levels, top, tables, home, r, p, i, a, e)
    ensures
      var top', tables', home' := SetTop(top, r, i, e), Grown(tables, r, i, a, e, levels[|p| + 1].entries), home[a := p + [i]];
      Sized(levels, top', tables', home') && Slotted(levels, top', tables', home')
  {
    hide Walk, Sound, Slotted;
    var top', tables', home' := SetTop(top, r, i, e), Grown(tables, r, i, a, e, levels[|p| + 1].entries), home[a := p + [i]];
    SlotAt(levels, top, tables, home, p, r, i);
    assert Sized(levels, top', tables', home');
    forall k | 0 <= k < |top'| ensures Slot(tables', home', [k], top'[k]) {
      GrowSlot(levels, top, tables, home, r, p, i, a, e, Root, k);
      assert [] + [k] == [k];
    }
    forall b, k | b in tables' && |home'[b]| < |levels| - 1 && 0 <= k < |tables'[b]|
      ensures Slot(tables', home', home'[b] + [k], tables'[b][k])
    {
      if b != a { GrowSlot(levels, top, tables, home, r, p, i, a, e, At(b), k); }
    }
    SlottedBy(levels, top', tables', home');
  }

  lemma {:induction false} SlottedBy(levels: Levels, top: Table, tables: map<nat, Table>, home: map<nat, seq<nat>>)
    requires tables.Keys == home.Keys
    requires forall i | 0 <= i < |top| :: Slot(tables, home, [i], top[i])
    requires forall a, i | a in tables && |home[a]| < |levels| - 1 && 0 <= i < |tables[a]| ::
          Slot(tables, home, home[a] + [i], tables[a][i])
    ensures Slotted(levels, top, tables, home)
  {
  }

  lemma {:induction false} GrowTree(
    levels: Levels, top: Table, tables: map<nat, Table>, home: map<nat, seq<nat>>, r: Ref, p: seq<nat>, i: nat, a: nat, e: Entry)
    requires Growing(levels, top, tables, home, r, p, i, a, e)
    ensures Tree(levels, SetTop(top, r, i, e), Grown(tables, r, i, a, e, levels[|p| + 1].entries), home[a := p + [i]])
  {
    hide Walk, Sound, Slotted;
    var top', tables', home' := SetTop(top, r, i, e), Grown(tables, r, i, a, e, levels[|p| + 1].entries), home[a := p + [i]];
    GrowSlotted(levels, top, tables, home, r, p, i, a, e);
    forall b | b in tables' ensures Walk(top', tables', home'[b]) == Some(At(b)) {
      GrowWalk(levels, top, tables, home, r, p, i, a, e, home'[b]);
      if b != a { NotYetThere(levels, top, tables, home, r, p, i, a, e, b); }
    }
  }

  lemma {:induction false} NotYetThere(
    levels: Levels, top: Table, tables: map<nat, Table>, home: map<nat, seq<nat>>, r: Ref, p: seq<nat>, i: nat, a: nat, e: Entry, b: nat)
    requires Growing(levels, top, tables, home, r, p, i, a, e) && b in tables
    ensures b in home && home[b] != p + [i] && Walk(top, tables, home[b]) == Some(At(b))
  {
    hide Walk, Sound;
    WalkStep(top, tables, p, i);
  }

  lemma {:induction false} GrowLeaf(
    levels: Levels, top: Table, tables: map<nat, Table>, home: map<nat, seq<nat>>, r: Ref, p: seq<nat>, i: nat, a: nat, e: Entry, q: seq<nat>)
    requires Growing(levels, top, tables, home, r, p, i, a, e) && |q| == |levels|
    ensures Leaf(SetTop(top, r, i, e), Grown(tables, r, i, a, e, levels[|p| + 1].entries), q) == Leaf(top, tables, q)
  {
    hide Walk, Tree;
    var n := |q| - 1;
    GrowWalk(levels, top, tables, home, r, p, i, a, e, q[..n]);
    WalkStep(top, tables, p, i);
    SlotAt(levels, top, tables, home, p, r, i);
    var w := Walk(top, tables, q[..n]);
    if w.Some? { WalkHome(levels, top, tables, home, q[..n]); }
  }

  /** Writing an entry of a leaf table changes that page and nothing else. */
  ghost predicate AtLeaf(
    levels: Levels, top: Table, tables: map<nat, Table>, home: map<nat, seq<nat>>, r: Ref, p: seq<nat>, i: nat)
  {
    && Tree(levels, top, tables, home) && |p| == |levels| - 1
    && Walk(top, tables, p) == Some(r) && i < levels[|p|].entries
  }

  lemma {:induction false} LeafRef(
    levels: Levels, top: Table, tables: map<nat, Table>, home: map<nat, seq<nat>>, r: Ref, p: seq<nat>, i: nat)
    requires AtLeaf(levels, top, tables, home, r, p, i)
    ensures r.At? && r.addr in tables && r.addr in home && home[r.addr] == p && i < |tables[r.addr]|
  {
    hide Walk;
    WalkHome(levels, top, tables, home, p);
  }

  lemma {:induction false} LeafWalk(
    levels: Levels, top: Table, tables: map<nat, Table>, home: map<nat, seq<nat>>, r: Ref, p: seq<nat>, i: nat, e: Entry, q: seq<nat>)
    requires AtLeaf(levels, top, tables, home, r, p, i) && |q| < |levels|
    ensures Live(tables, r) && (r.At? ==> i < |tables[r.addr]|)
    ensures Walk(top, SetTables(tables, r, i, e), q) == Walk(top, tables, q)
    decreases |q|
  {
    hide Walk, Tree;
    LeafRef(levels, top, tables, home, r, p, i);
    var tables' := SetTables(tables, r, i, e);
    if q == [] {
      WalkNowhere(top, tables);
      WalkNowhere(top, tables');
    } else {
      var n := |q| - 1;
      assert q == q[..n] + [q[n]];
      LeafWalk(levels, top, tables, home, r, p, i, e, q[..n]);
      WalkStep(top, tables, q[..n], q[n]);
      WalkStep(top, tables', q[..n], q[n]);
      var w := Walk(top, tables, q[..n]);
      if w.Some? {
        SlotAt(levels, top, tables, home, q[..n], w.value, q[n]);
        assert w.value != r;
      }
    }
  }

  lemma {:induction false} LeafTree(
    levels: Levels, top: Table, tables: map<nat, Table>, home: map<nat, seq<nat>>, r: Ref, p: seq<nat>, i: nat, e: Entry)
    requires AtLeaf(levels, top, tables, home, r, p, i)
    ensures r.At? && Live(tables, r) && i < |tables[r.addr]|
    ensures Tree(levels, top, SetTables(tables, r, i, e), home)
  {
    hide Walk, Sound;
    LeafRef(levels, top, tables, home, r, p, i);
    var tables' := SetTables(tables, r, i, e);
    forall b | b in tables' ensures Walk(top, tables', home[b]) == Some(At(b)) {
      LeafWalk(levels, top, tables, home, r, p, i, e, home[b]);
    }
    forall k | 0 <= k < |top| ensures Slot(tables', home, [k], top[k]) {
      assert Slot(tables, home, [k], top[k]);
    }
    forall b, k | b in tables' && |home[b]| < |levels| - 1 && 0 <= k < |tables'[b]|
      ensures Slot(tables', home, home[b] + [k], tables'[b][k])
    {
      assert Slot(tables, home, home[b] + [k], tables[b][k]);
    }
  }

  lemma {:induction false} LeafLeaf(
    levels: Levels, top: Table, tables: map<nat, Table>, home: map<nat, seq<nat>>, r: Ref, p: seq<nat>, i: nat, e: Entry, q: seq<nat>)
    requires AtLeaf(levels, top, tables, home, r, p, i) && |q| == |levels|
    ensures r.At? && Live(tables, r) && i < |tables[r.addr]|
    ensures Leaf(top, SetTables(tables, r, i, e), q) == if q == p + [i] then e else Leaf(top, tables, q)
  {
    hide Walk, Tree;
    LeafRef(levels, top, tables, home, r, p, i);
    var n := |q| - 1;
    assert q == q[..n] + [q[n]];
    LeafWalk(levels, top, tables, home, r, p, i, e, q[..n]);
    var w := Walk(top, tables, q[..n]);
    if w.Some? {
      WalkHome(levels, top, tables, home, q[..n]);
      WalkOne(top, tables, home, q[..n], w.value, p, r);
    }
    assert q == p + [i] <==> q[..n] == p && q[n] == i;
  }

  // ---------------------------------------------------------------- what has been written

  /** A page, by its path, and the leaf entry it was given. */
  datatype Write = Write(page: seq<nat>, entry: Entry)

  /** The last entry a page was given. */
  function Final(log: seq<Write>, q: seq<nat>): Entry {
    if log == [] then ZERO
    else if log[|log| - 1].page == q then log[|log| - 1].entry
    else Final(log[..|log| - 1], q)
  }

  lemma {:induction false} FinalAppend(log: seq<Write>, w: Write, q: seq<nat>)
    ensures Final(log + [w], q) == if q == w.page then w.entry else Final(log, q)
  {
    assert (log + [w])[..|log|] == log;
  }

  /** Walking the tables gives, for every page, the last entry it was given. */
  ghost predicate Agrees(levels: Levels, top: Table, tables: map<nat, Table>, log: seq<Write>) {
    forall q {:trigger Leaf(top, tables, q)} | |q| == |levels| && q != [] :: Leaf(top, tables, q) == Final(log, q)
  }

  lemma {:induction false} GrowAgrees(
    levels: Levels, top: Table, tables: map<nat, Table>, home: map<nat, seq<nat>>, r: Ref, p: seq<nat>, i: nat, a: nat, e: Entry, log: seq<Write>)
    requires Growing(levels, top, tables, home, r, p, i, a, e) && Agrees(levels, top, tables, log)
    ensures Agrees(levels, SetTop(top, r, i, e), Grown(tables, r, i, a, e, levels[|p| + 1].entries), log)
  {
    hide Leaf, Final, Walk, Tree;
    var top', tables' := SetTop(top, r, i, e), Grown(tables, r, i, a, e, levels[|p| + 1].entries);
    forall q | |q| == |levels| && q != [] ensures Leaf(top', tables', q) == Final(log, q) {
      GrowLeaf(levels, top, tables, home, r, p, i, a, e, q);
    }
  }

  lemma {:induction false} LeafAgrees(
    levels: Levels, top: Table, tables: map<nat, Table>, home: map<nat, seq<nat>>, r: Ref, p: seq<nat>, i: nat, e: Entry, log: seq<Write>)
    requires AtLeaf(levels, top, tables, home, r, p, i) && Agrees(levels, top, tables, log)
    ensures r.At? && Live(tables, r) && i < |tables[r.addr]|
    ensures Agrees(levels, top, SetTables(tables, r, i, e), log + [Write(p + [i], e)])
    ensures tables[r.addr][i] == Final(log, p + [i])
  {
    hide Final, Walk, Tree;
    LeafRef(levels, top, tables, home, r, p, i);
    var tables' := SetTables(tables, r, i, e);
    forall q | |q| == |levels| && q != [] ensures Leaf(top, tables', q) == Final(log + [Write(p + [i], e)], q) {
      LeafLeaf(levels, top, tables, home, r, p, i, e, q);
      FinalAppend(log, Write(p + [i], e), q);
    }
    assert (p + [i])[..|p|] == p;
    assert Leaf(top, tables, p + [i]) == Final(log, p + [i]);
  }

  /** The tables fill consecutive pages from the start of the image, in the order of creation. */
  ghost predicate Packed(pages: set<nat>, start: nat, pos: nat) {
    && start % PAGE == 0
    && pos == start + PAGE * |pages|
    && (forall a | a in pages :: start <= a < pos && (a - start) % PAGE == 0)
    && (forall k | 0 <= k < |pages| :: PageAt(pages, start, k))
  }

  ghost predicate PageAt(pages: set<nat>, start: nat, k: nat) {
    start + PAGE * k in pages
  }

  lemma {:induction false} PackedMore(pages: set<nat>, start: nat, pos: nat)
    requires Packed(pages, start, pos)
    ensures pos % PAGE == 0 && pos !in pages
    ensures Packed(pages + {pos}, start, pos + PAGE)
  {
    var more := pages + {pos};
    assert |more| == |pages| + 1;
    forall k | 0 <= k < |more| ensures PageAt(more, start, k) {
      assert k < |pages| ==> PageAt(pages, start, k);
    }
  }

  /** The object that stands for a table knows the level it was made for. */
  ghost predicate Kinds(kinds: map<nat, nat>, home: map<nat, seq<nat>>) {
    kinds.Keys == home.Keys && forall a | a in kinds :: kinds[a] == |home[a]|
  }

  function Kind(kinds: map<nat, nat>, r: Ref): nat
    requires r.At? ==> r.addr in kinds
  {
    match r case Root => 0 case At(a) => kinds[a]
  }

  datatype State = State(
    top: Table, tables: map<nat, Table>, kinds: map<nat, nat>, home: map<nat, seq<nat>>, pos: nat, log: seq<Write>)

  ghost predicate Built(levels: Levels, s: State, start: nat) {
    && Tree(levels, s.top, s.tables, s.home)
    && Agrees(levels, s.top, s.tables, s.log)
    && Packed(s.tables.Keys, start, s.pos)
    && Kinds(s.kinds, s.home)
    && (start in s.kinds ==> s.kinds[start] == 1)
  }

  /** Nothing that could be reached before has moved. */
  ghost predicate Extends(levels: Levels, s: State, s': State) {
    forall q | |q| < |levels| && Walk(s.top, s.tables, q).Some? ::
      Walk(s'.top, s'.tables, q) == Walk(s.top, s.tables, q)
  }

  /** The tables with a new one hung at entry `i` of table `at`, which is of level `d`. */
  ghost function Child(levels: Levels, s: State, at: Ref, p: seq<nat>, i: nat): State
    requires |p| + 1 < |levels| && levels[|p|].addrLimit > 0
    requires Live(s.tables, at) && i < |Deref(s.top, s.tables, at)|
  {
    var e := Entry(Masked(s.pos, levels[|p|].addrLimit), INT_FLAGS * levels[|p|].supported);
    State(SetTop(s.top, at, i, e), Grown(s.tables, at, i, s.pos, e, levels[|p| + 1].entries),
          s.kinds[s.pos := |p| + 1], s.home[s.pos := p + [i]], s.pos + PAGE, s.log)
  }

  lemma {:induction false} WalkFacts(levels: Levels, s: State, start: nat, p: seq<nat>, at: Ref)
    requires Built(levels, s, start) && |p| < |levels| && Walk(s.top, s.tables, p) == Some(at)
    ensures Sound(levels) && (at.At? ==> at.addr in s.kinds) && Kind(s.kinds, at) == |p|
    ensures |Deref(s.top, s.tables, at)| == levels[|p|].entries
  {
    hide Walk, Agrees, Packed, Sound;
    WalkHome(levels, s.top, s.tables, s.home, p);
  }

  lemma {:induction false} ChildGrows(levels: Levels, s: State, start: nat, at: Ref, p: seq<nat>, i: nat)
    requires Built(levels, s, start) && |p| + 1 < |levels| && Walk(s.top, s.tables, p) == Some(at)
    requires i < |Deref(s.top, s.tables, at)| && P !in Deref(s.top, s.tables, at)[i].flags
    requires s.pos + PAGE <= levels[0].addrLimit
    ensures Sound(levels)
    ensures
      var e := Entry(Masked(s.pos, levels[|p|].addrLimit), INT_FLAGS * levels[|p|].supported);
      Growing(levels, s.top, s.tables, s.home, at, p, i, s.pos, e)
  {
    hide Walk, Agrees;
    SlotAt(levels, s.top, s.tables, s.home, p, at, i);
    PackedMore(s.tables.Keys, start, s.pos);
    MaskedKeeps(s.pos, levels[|p|].addrLimit);
  }

  lemma {:induction false} FirstTable(levels: Levels, s: State, start: nat, at: Ref, p: seq<nat>)
    requires Built(levels, s, start) && |p| < |levels| && Walk(s.top, s.tables, p) == Some(at)
    ensures s.pos == start ==> p == []
  {
    hide Walk, Agrees;
    WalkHome(levels, s.top, s.tables, s.home, p);
  }

  lemma {:induction false} ChildExtends(levels: Levels, s: State, at: Ref, p: seq<nat>, i: nat, e: Entry, s': State)
    requires Growing(levels, s.top, s.tables, s.home, at, p, i, s.pos, e)
    requires s'.top == SetTop(s.top, at, i, e) && s'.tables == Grown(s.tables, at, i, s.pos, e, levels[|p| + 1].entries)
    ensures Extends(levels, s, s') && Walk(s'.top, s'.tables, p + [i]) == Some(At(s.pos))
  {
    hide Walk, Tree;
    WalkStep(s.top, s.tables, p, i);
    forall q | |q| < |levels|
      ensures Walk(s'.top, s'.tables, q) == if q == p + [i] then Some(At(s.pos)) else Walk(s.top, s.tables, q)
    {
      GrowWalk(levels, s.top, s.tables, s.home, at, p, i, s.pos, e, q);
    }
  }

  lemma {:induction false} GrownKeys(tables: map<nat, Table>, r: Ref, i: nat, a: nat, e: Entry, entries: nat)
    requires Live(tables, r) && (r.At? ==> i < |tables[r.addr]|)
    ensures Grown(tables, r, i, a, e, entries).Keys == tables.Keys + {a}
  {
  }

  lemma {:induction false} KindsMore(kinds: map<nat, nat>, home: map<nat, seq<nat>>, a: nat, q: seq<nat>)
    requires Kinds(kinds, home)
    ensures Kinds(kinds[a := |q|], home[a := q])
  {
  }

  lemma {:induction false} ChildBuilt(levels: Levels, s: State, start: nat, at: Ref, p: seq<nat>, i: nat)
    requires Built(levels, s, start) && |p| + 1 < |levels| && Walk(s.top, s.tables, p) == Some(at)
    requires i < |Deref(s.top, s.tables, at)| && P !in Deref(s.top, s.tables, at)[i].flags
    requires s.pos + PAGE <= levels[0].addrLimit
    ensures Sound(levels)
    ensures
      var s' := Child(levels, s, at, p, i);
      && Built(levels, s', start)
      && Extends(levels, s, s')
      && Walk(s'.top, s'.tables, p + [i]) == Some(At(s.pos))
  {
    hide Walk, Agrees, Packed, Tree, Sound, Masked, Kinds, Growing, Grown, SetTop, Extends;
    ChildGrows(levels, s, start, at, p, i);
    Positive(levels);
    var e := Entry(Masked(s.pos, levels[|p|].addrLimit), INT_FLAGS * levels[|p|].supported);
    PackedMore(s.tables.Keys, start, s.pos);
    GrownKeys(s.tables, at, i, s.pos, e, levels[|p| + 1].entries);
    GrowTree(levels, s.top, s.tables, s.home, at, p, i, s.pos, e);
    GrowAgrees(levels, s.top, s.tables, s.home, at, p, i, s.pos, e, s.log);
    KindsMore(s.kinds, s.home, s.pos, p + [i]);
    FirstTable(levels, s, start, at, p);
    ChildExtends(levels, s, at, p, i, e, Child(levels, s, at, p, i));
  }

  /** The entry that leads to a new table is present and as permissive as its level allows; the table is
      blank. */
  ghost predicate Hung(levels: Levels, s: State, at: Ref, d: nat, i: nat, a: nat) {
    && d + 1 < |levels| && Live(s.tables, at) && i < |Deref(s.top, s.tables, at)|
    && Deref(s.top, s.tables, at)[i] == Entry(a, {P, RW, US} * levels[d].supported)
    && a in s.tables && s.tables[a] == Blank(levels[d + 1].entries)
  }

  lemma {:induction false} ChildHung(levels: Levels, s: State, start: nat, at: Ref, p: seq<nat>, i: nat)
    requires Built(levels, s, start) && |p| + 1 < |levels| && Walk(s.top, s.tables, p) == Some(at)
    requires i < |Deref(s.top, s.tables, at)| && P !in Deref(s.top, s.tables, at)[i].flags
    requires s.pos + PAGE <= levels[0].addrLimit
    ensures Sound(levels) && Hung(levels, Child(levels, s, at, p, i), at, |p|, i, s.pos)
  {
    ChildGrows(levels, s, start, at, p, i);
    hide Walk, Built, Tree, Sound, Masked, SetTop, Grown;
    Positive(levels);
    var e := Entry(Masked(s.pos, levels[|p|].addrLimit), INT_FLAGS * levels[|p|].supported);
    GrownHung(s.top, s.tables, at, i, s.pos, e, levels[|p| + 1].entries);
  }

  lemma {:induction false} GrownHung(top: Table, tables: map<nat, Table>, at: Ref, i: nat, a: nat, e: Entry, entries: nat)
    requires Live(tables, at) && i < |Deref(top, tables, at)| && a !in tables
    ensures var top', tables' := SetTop(top, at, i, e), Grown(tables, at, i, a, e, entries);
      && Live(tables', at) && i < |Deref(top', tables', at)| && Deref(top', tables', at)[i] == e
      && a in tables' && tables'[a] == Blank(entries)
  {
  }

  /** The tables with one leaf entry written. */
  ghost function Written(s: State, at: Ref, p: seq<nat>, i: nat, e: Entry): State
    requires Live(s.tables, at) && (at.At? ==> i < |s.tables[at.addr]|)
  {
    s.(tables := SetTables(s.tables, at, i, e), log := s.log + [Write(p + [i], e)])
  }

  lemma {:induction false} WrittenBuilt(levels: Levels, s: State, start: nat, at: Ref, p: seq<nat>, i: nat, e: Entry)
    requires Built(levels, s, start) && |p| + 1 == |levels| && Walk(s.top, s.tables, p) == Some(at)
    requires i < levels[|p|].entries
    ensures at.At? && Live(s.tables, at) && i < |s.tables[at.addr]|
    ensures s.tables[at.addr][i] == Final(s.log, p + [i])
    ensures Built(levels, Written(s, at, p, i, e), start) && Extends(levels, s, Written(s, at, p, i, e))
  {
    hide Walk, Agrees, Packed, Tree, Final;
    assert AtLeaf(levels, s.top, s.tables, s.home, at, p, i);
    LeafTree(levels, s.top, s.tables, s.home, at, p, i, e);
    LeafAgrees(levels, s.top, s.tables, s.home, at, p, i, e, s.log);
    assert SetTables(s.tables, at, i, e).Keys == s.tables.Keys;
    forall q | |q| < |levels| ensures Walk(s.top, SetTables(s.tables, at, i, e), q) == Walk(s.top, s.tables, q) {
      LeafWalk(levels, s.top, s.tables, s.home, at, p, i, e, q);
    }
  }

  lemma {:induction false} LeafTablesStay(levels: Levels, s: State, start: nat, at: Ref, p: seq<nat>, i: nat, e: Entry)
    requires Built(levels, s, start) && |p| + 1 == |levels| && Walk(s.top, s.tables, p) == Some(at)
    requires i < levels[|p|].entries
    ensures Sound(levels) && at.At? && Live(s.tables, at) && i < |s.tables[at.addr]|
    ensures forall v ::
      HasLeafTable(levels, s.top, SetTables(s.tables, at, i, e), v) <==> HasLeafTable(levels, s.top, s.tables, v)
  {
    hide Walk, Agrees, Packed, Path;
    LeafRef(levels, s.top, s.tables, s.home, at, p, i);
    forall v ensures HasLeafTable(levels, s.top, SetTables(s.tables, at, i, e), v) <==> HasLeafTable(levels, s.top, s.tables, v) {
      LeafWalk(levels, s.top, s.tables, s.home, at, p, i, e, Path(levels, v, |levels| - 1));
    }
  }

  lemma {:induction false} ExtendsTwice(levels: Levels, s0: State, s1: State, s2: State)
    requires Extends(levels, s0, s1) && Extends(levels, s1, s2)
    ensures Extends(levels, s0, s2)
  {
  }

  /** One step of a walk along present entries. */
  lemma {:induction false} PresentStep(levels: Levels, s: State, start: nat, at: Ref, p: seq<nat>, i: nat)
    requires Built(levels, s, start) && |p| + 1 < |levels| && Walk(s.top, s.tables, p) == Some(at)
    requires i < |Deref(s.top, s.tables, at)|
    ensures
      var e := Deref(s.top, s.tables, at)[i];
      if P in e.flags then e.addr in s.tables && Walk(s.top, s.tables, p + [i]) == Some(At(e.addr))
      else e == ZERO && Walk(s.top, s.tables, p + [i]) == None
  {
    hide Walk, Agrees, Packed, Tree;
    SlotAt(levels, s.top, s.tables, s.home, p, at, i);
    WalkStep(s.top, s.tables, p, i);
  }

  /** At most so many bytes of new tables for so many pages. */
  ghost function Growth(levels: Levels, pages: nat): nat
    requires levels != []
  {
    if pages == 0 then 0 else Growth(levels, pages - 1) + PAGE * (|levels| - 1)
  }

  lemma {:induction false} GrowthMore(levels: Levels, j: nat, k: nat)
    requires levels != [] && j <= k
    ensures Growth(levels, j) <= Growth(levels, k)
    decreases k
  {
    if j < k { GrowthMore(levels, j, k - 1); }
  }

  lemma {:induction false} GrowthStep(levels: Levels, k: nat)
    requires levels != []
    ensures Growth(levels, k + 1) == Growth(levels, k) + PAGE * (|levels| - 1)
  {
  }

  lemma {:induction false} GrowthNone(levels: Levels)
    requires levels != []
    ensures Growth(levels, 0) == 0
  {
  }

  lemma {:induction false} MapLogNone(levels: Levels, log: seq<Write>, phys: nat, virt: nat, flags: set<Flag>, identity: bool)
    requires Sound(levels)
    ensures MapLog(levels, log, phys, virt, 0, flags, identity) == log
  {
  }

  lemma {:induction false} MapLogStep(levels: Levels, log: seq<Write>, phys: nat, virt: nat, k: nat, flags: set<Flag>, identity: bool)
    requires Sound(levels)
    ensures
      var rest, off := MapLog(levels, log, phys, virt, k, flags, identity), PAGE * k;
      MapLog(levels, log, phys, virt, k + 1, flags, identity) ==
      if identity && phys + off == 0 then rest
      else rest + [Write(Path(levels, virt + off, |levels|),
                         Entry(Masked(phys + off, Leafmost(levels).addrLimit), flags * Leafmost(levels).supported))]
  {
  }

  function Leafmost(levels: Levels): Level
    requires levels != []
  {
    levels[|levels| - 1]
  }

  /** The record after mapping the first pages of a region: the page at address zero is left out of
      an identity mapping. */
  ghost function MapLog(levels: Levels, log: seq<Write>, phys: nat, virt: nat, pages: nat, flags: set<Flag>, identity: bool): seq<Write>
    requires Sound(levels)
  {
    if pages == 0 then log
    else
      var rest := MapLog(levels, log, phys, virt, pages - 1, flags, identity);
      var off := PAGE * (pages - 1);
      if identity && phys + off == 0 then rest
      else rest + [Write(Path(levels, virt + off, |levels|),
                         Entry(Masked(phys + off, Leafmost(levels).addrLimit), flags * Leafmost(levels).supported))]
  }

  /** The record after changing the permissions of the first pages of a region: the frame stays. */
  ghost function PermLog(levels: Levels, log: seq<Write>, base: nat, pages: nat, flags: set<Flag>): seq<Write>
    requires Sound(levels)
  {
    if pages == 0 then log
    else
      var rest := PermLog(levels, log, base, pages - 1, flags);
      var addr := base + PAGE * (pages - 1);
      var q := Path(levels, addr, |levels|);
      if addr == 0 then rest
      else rest + [Write(q, Entry(Final(rest, q).addr, flags * Leafmost(levels).supported))]
  }

  /** The pages of a region, one by one. */
  lemma {:induction false} OnePageMore(base: nat, pages: nat, v: nat)
    requires base % PAGE == 0 && pages > 0
    ensures
      var last := base + PAGE * (pages - 1);
      && (base <= v < base + PAGE * pages <==> base <= v < last || last / PAGE == v / PAGE)
      && (last / PAGE == v / PAGE ==> v / PAGE * PAGE == last && v >= last)
      && (base <= v < last ==> last / PAGE != v / PAGE)
  {
  }

  /** What mapping a region means for any one address: inside the region the frame at the same
      offset with the supported flags, outside whatever there was. */
  lemma {:induction false} MapMeaning(
    levels: Levels, log: seq<Write>, phys: nat, virt: nat, pages: nat, flags: set<Flag>, identity: bool, v: nat)
    requires Sound(levels) && virt % PAGE == 0 && phys % PAGE == 0 && virt + PAGE * pages <= Total(levels) && v < Total(levels)
    ensures
      var off := v / PAGE * PAGE - virt;
      Final(MapLog(levels, log, phys, virt, pages, flags, identity), Path(levels, v, |levels|)) ==
      if virt <= v < virt + PAGE * pages && !(identity && phys + off == 0)
      then Entry(Masked(phys + off, Leafmost(levels).addrLimit), flags * Leafmost(levels).supported)
      else Final(log, Path(levels, v, |levels|))
    decreases pages
  {
    hide Sound, Path, Final, Masked, Total;
    Positive(levels);
    if pages > 0 {
      MapMeaning(levels, log, phys, virt, pages - 1, flags, identity, v);
      var off := PAGE * (pages - 1);
      var rest := MapLog(levels, log, phys, virt, pages - 1, flags, identity);
      var e := Entry(Masked(phys + off, Leafmost(levels).addrLimit), flags * Leafmost(levels).supported);
      PathIsPage(levels, virt + off, v);
      OnePageMore(virt, pages, v);
      FinalAppend(rest, Write(Path(levels, virt + off, |levels|), e), Path(levels, v, |levels|));
    }
  }

  /** What changing the permissions of a region means: the frame of each page stays, its flags are the
      supported ones of the new flags; the page at address zero and all others are left alone. */
  lemma {:induction false} PermMeaning(levels: Levels, log: seq<Write>, base: nat, pages: nat, flags: set<Flag>, v: nat)
    requires Sound(levels) && base % PAGE == 0 && base + PAGE * pages <= Total(levels) && v < Total(levels)
    ensures
      var was := Final(log, Path(levels, v, |levels|));
      Final(PermLog(levels, log, base, pages, flags), Path(levels, v, |levels|)) ==
      if base <= v < base + PAGE * pages && v >= PAGE then Entry(was.addr, flags * Leafmost(levels).supported) else was
    decreases pages
  {
    hide Sound, Path, Final, Total;
    Positive(levels);
    if pages > 0 {
      PermMeaning(levels, log, base, pages - 1, flags, v);
      var addr := base + PAGE * (pages - 1);
      var q := Path(levels, addr, |levels|);
      var rest := PermLog(levels, log, base, pages - 1, flags);
      PathIsPage(levels, addr, v);
      OnePageMore(base, pages, v);
      FinalAppend(rest, Write(q, Entry(Final(rest, q).addr, flags * Leafmost(levels).supported)), Path(levels, v, |levels|));
    }
  }

  // ---------------------------------------------------------------- what a sequence of operations means

  datatype Op =
    | Map(phys: nat, virt: Option<nat>, size: nat, flags: set<Flag>)
    | Reserve(base: nat, size: nat)
    | Perms(base: nat, size: nat, flags: set<Flag>)

  /** Where a region lies in the virtual address space. */
  function Base(op: Op): nat {
    match op
    case Map(phys, virt, _, _) => if virt == None then phys else virt.value
    case Reserve(base, _) => base
    case Perms(base, _, _) => base
  }

  /** What one operation makes of the entry of an address, and the sequence of them one after the other. */
  function Effect(levels: Levels, was: Entry, op: Op, v: nat): Entry
    requires Sound(levels)
  {
    var leaf := Leafmost(levels);
    var inside := Base(op) <= v < Base(op) + op.size;
    match op
    case Map(phys, _, _, flags) =>
      var frame := phys + v / PAGE * PAGE - Base(op);
      if inside && frame >= 0 && !(Base(op) == phys && frame == 0) then Entry(Masked(frame, leaf.addrLimit), flags * leaf.supported)
      else was
    case Reserve(_, _) => was
    case Perms(_, _, flags) => if inside && v >= PAGE then Entry(was.addr, flags * leaf.supported) else was
  }

  function After(levels: Levels, was: Entry, ops: seq<Op>, v: nat): Entry
    requires Sound(levels)
    decreases |ops|
  {
    if ops == [] then was
    else Effect(levels, After(levels, was, ops[..|ops| - 1], v), ops[|ops| - 1], v)
  }

  /** The region lies within the virtual address space. */
  predicate InSpace(levels: Levels, op: Op)
    requires levels != []
  {
    Base(op) + op.size <= Total(levels)
  }

  predicate Aligned(levels: Levels, op: Op)
    requires |levels| >= 2 && levels[|levels| - 2].span > 0
  {
    match op
    case Map(phys, _, size, _) => phys % PAGE == 0 && size % PAGE == 0 && Base(op) % PAGE == 0
    case Reserve(base, size) => base % PAGE == 0 && size % PAGE == 0 && base % levels[|levels| - 2].span == 0
    case Perms(base, size, _) => size == 0 || (base % PAGE == 0 && size % PAGE == 0)
  }

  /** At most so many bytes of new tables. */
  ghost function Need(levels: Levels, ops: seq<Op>): nat
    requires |levels| >= 2 && levels[|levels| - 2].span > 0
    decreases |ops|
  {
    if ops == [] then 0
    else
      var op := ops[|ops| - 1];
      Need(levels, ops[..|ops| - 1]) +
      match op
      case Map(_, _, size, _) => Growth(levels, size / PAGE)
      case Reserve(_, size) => Growth(levels, size / levels[|levels| - 2].span + 1)
      case Perms(_, _, _) => 0
  }

  lemma {:induction false} NeedMore(levels: Levels, ops: seq<Op>, k: nat)
    requires |levels| >= 2 && levels[|levels| - 2].span > 0 && k <= |ops|
    ensures Need(levels, ops[..k]) <= Need(levels, ops)
    decreases |ops|
  {
    hide Growth;
    if k < |ops| {
      NeedMore(levels, ops[..|ops| - 1], k);
      assert ops[..|ops| - 1][..k] == ops[..k];
    } else {
      assert ops[..k] == ops;
    }
  }

  /** The record says of every address what the operations made of it. */
  ghost predicate Means(levels: Levels, old_: seq<Write>, log: seq<Write>, ops: seq<Op>)
    requires Sound(levels)
  {
    forall v {:trigger After(levels, Final(old_, Path(levels, v, |levels|)), ops, v)} | 0 <= v < Total(levels) ::
      Final(log, Path(levels, v, |levels|)) == After(levels, Final(old_, Path(levels, v, |levels|)), ops, v)
  }

  lemma {:induction false} MapEffect(levels: Levels, log: seq<Write>, op: Op, v: nat)
    requires Sound(levels) && op.Map? && Aligned(levels, op) && InSpace(levels, op) && v < Total(levels)
    ensures
      var log' := MapLog(levels, log, op.phys, Base(op), op.size / PAGE, op.flags, Base(op) == op.phys);
      Final(log', Path(levels, v, |levels|)) == Effect(levels, Final(log, Path(levels, v, |levels|)), op, v)
  {
    hide Sound, Path, Final, Masked, Total, MapLog;
    Positive(levels);
    MapMeaning(levels, log, op.phys, Base(op), op.size / PAGE, op.flags, Base(op) == op.phys, v);
    assert PAGE * (op.size / PAGE) == op.size;
    if Base(op) <= v { PageAbove(Base(op), v); }
  }

  lemma {:induction false} PageAbove(base: nat, v: nat)
    requires base % PAGE == 0 && base <= v
    ensures base <= v / PAGE * PAGE
  {
  }

  lemma {:induction false} PermEffect(levels: Levels, log: seq<Write>, op: Op, v: nat)
    requires Sound(levels) && op.Perms? && Aligned(levels, op) && InSpace(levels, op) && v < Total(levels)
    ensures
      var log' := PermLog(levels, log, op.base, op.size / PAGE, op.flags);
      Final(log', Path(levels, v, |levels|)) == Effect(levels, Final(log, Path(levels, v, |levels|)), op, v)
  {
    hide Sound, Path, Final, Masked, Total;
    Positive(levels);
    if op.size == 0 {
      assert op.size / PAGE == 0;
    } else {
      hide PermLog;
      PermMeaning(levels, log, op.base, op.size / PAGE, op.flags, v);
      assert PAGE * (op.size / PAGE) == op.size;
    }
  }

  /** One operation more. */
  lemma {:induction false} MeansMore(levels: Levels, old_: seq<Write>, log: seq<Write>, log': seq<Write>, ops: seq<Op>, k: nat)
    requires Sound(levels) && k < |ops| && Means(levels, old_, log, ops[..k])
    requires Aligned(levels, ops[k]) && InSpace(levels, ops[k])
    requires log' == match ops[k]
      case Map(phys, _, size, flags) => MapLog(levels, log, phys, Base(ops[k]), size / PAGE, flags, Base(ops[k]) == phys)
      case Reserve(_, _) => log
      case Perms(base, size, flags) => PermLog(levels, log, base, size / PAGE, flags)
    ensures Means(levels, old_, log', ops[..k + 1])
  {
    hide Sound, Path, Final, Total, MapLog, PermLog, Effect, Aligned, InSpace;
    Positive(levels);
    forall v | 0 <= v < Total(levels)
      ensures Final(log', Path(levels, v, |levels|)) == After(levels, Final(old_, Path(levels, v, |levels|)), ops[..k + 1], v)
    {
      var was := Final(old_, Path(levels, v, |levels|));
      assert ops[..k + 1][..k] == ops[..k] && ops[..k + 1][k] == ops[k];
      assert Final(log, Path(levels, v, |levels|)) == After(levels, was, ops[..k], v);
      match ops[k]
      case Map(_, _, _, _) => MapEffect(levels, log, ops[k], v);
      case Reserve(_, _) => ReserveEffect(levels, was, ops, k, v);
      case Perms(_, _, _) => PermEffect(levels, log, ops[k], v);
    }
  }

  lemma {:induction false} ReserveEffect(levels: Levels, was: Entry, ops: seq<Op>, k: nat, v: nat)
    requires Sound(levels) && k < |ops| && ops[k].Reserve?
    ensures After(levels, was, ops[..k + 1], v) == After(levels, was, ops[..k], v)
  {
    assert ops[..k + 1][..k] == ops[..k] && ops[..k + 1][k] == ops[k];
  }

  lemma {:induction false} MeansLeaf(levels: Levels, s: State, start: nat, old_: seq<Write>, ops: seq<Op>)
    requires Built(levels, s, start) && Sound(levels) && Means(levels, old_, s.log, ops)
    ensures forall v | 0 <= v < Total(levels) ::
      Leaf(s.top, s.tables, Path(levels, v, |levels|)) == After(levels, Final(old_, Path(levels, v, |levels|)), ops, v)
  {
    hide Tree, Packed, Kinds, Leaf, Final, After, Total, Sound;
    Positive(levels);
    forall v | 0 <= v < Total(levels)
      ensures Leaf(s.top, s.tables, Path(levels, v, |levels|)) == After(levels, Final(old_, Path(levels, v, |levels|)), ops, v)
    {
      var q := Path(levels, v, |levels|);
      assert Leaf(s.top, s.tables, q) == Final(s.log, q);
    }
  }

  // ---------------------------------------------------------------- lookups that ignore the present bit

  /** One lookup() and the dictionary access after it: a missing key ends the program. */
  function Follow(levels: Levels, top: Table, tables: map<nat, Table>, kinds: map<nat, nat>, r: Ref, v: nat): (n: Option<Ref>)
    requires Live(tables, r)
    ensures n.Some? ==> Live(tables, n.value)
  {
    if r.At? && r.addr !in kinds then None
    else
      var k, t := Kind(kinds, r), Deref(top, tables, r);
      if k < |levels| && levels[k].span > 0 && levels[k].entries > 0 && Index(levels, k, v) < |t| &&
         t[Index(levels, k, v)].addr in tables
      then Some(At(t[Index(levels, k, v)].addr)) else None
  }

  /** The walk of set_region_perms(): it takes the address of each entry, present or not. */
  function Chase(levels: Levels, top: Table, tables: map<nat, Table>, kinds: map<nat, nat>, v: nat, d: nat): (r: Option<Ref>)
    ensures r.Some? ==> Live(tables, r.value)
  {
    if d == 0 then Some(Root)
    else
      match Chase(levels, top, tables, kinds, v, d - 1)
      case None => None
      case Some(r) => Follow(levels, top, tables, kinds, r, v)
  }

  /** There is a leaf table for the page. */
  ghost predicate HasLeafTable(levels: Levels, top: Table, tables: map<nat, Table>, v: nat)
    requires Sound(levels)
  {
    Walk(top, tables, Path(levels, v, |levels| - 1)).Some?
  }

  /** As long as no table sits at physical address zero, a missing table is noticed: the walk finds
      what a walk along present entries finds. */
  lemma {:induction false} ChaseRight(levels: Levels, s: State, start: nat, v: nat, d: nat)
    requires Built(levels, s, start) && Sound(levels) && d < |levels|
    requires 0 !in s.tables || Walk(s.top, s.tables, Path(levels, v, d)).Some?
    ensures Chase(levels, s.top, s.tables, s.kinds, v, d) == Walk(s.top, s.tables, Path(levels, v, d))
    decreases d
  {
    hide Built, Walk;
    if d == 0 {
      WalkNowhere(s.top, s.tables);
    } else {
      var p, i := Path(levels, v, d - 1), Index(levels, d - 1, v);
      assert Path(levels, v, d) == p + [i];
      WalkStep(s.top, s.tables, p, i);
      ChaseRight(levels, s, start, v, d - 1);
      var w := Walk(s.top, s.tables, p);
      if w.Some? {
        WalkFacts(levels, s, start, p, w.value);
        PresentStep(levels, s, start, w.value, p, i);
      }
    }
  }

  lemma {:induction false} FollowZero(levels: Levels, s: State, start: nat, r: Ref, v: nat)
    requires Built(levels, s, start) && Live(s.tables, r) && 0 in s.tables && |Home(s.home, r)| + 1 < |levels|
    ensures start == 0
    ensures
      var n := Follow(levels, s.top, s.tables, s.kinds, r, v);
      n.Some? && |Home(s.home, n.value)| <= |Home(s.home, r)| + 1
  {
    hide Walk, Agrees, Sound;
    Positive(levels);
    var k := |Home(s.home, r)|;
    var i := Index(levels, k, v);
    match r {
      case Root => assert Slot(s.tables, s.home, [i], s.top[i]);
      case At(a) => assert Slot(s.tables, s.home, s.home[a] + [i], s.tables[a][i]);
    }
  }

  /** With a table at address zero the walk never fails, so it goes astray for exactly the pages that
      have no leaf table. */
  lemma {:induction false} ChaseAstray(levels: Levels, s: State, start: nat, v: nat, d: nat)
    requires Built(levels, s, start) && Sound(levels) && d < |levels| && 0 in s.tables
    ensures
      var r := Chase(levels, s.top, s.tables, s.kinds, v, d);
      r.Some? && |Home(s.home, r.value)| <= d
    decreases d
  {
    hide Built, Follow;
    if d > 0 {
      ChaseAstray(levels, s, start, v, d - 1);
      FollowZero(levels, s, start, Chase(levels, s.top, s.tables, s.kinds, v, d - 1).value, v);
    }
  }

  /** The lookup is right, that is finds the page's leaf table or notices that there is none, if and
      only if there is one or no table sits at address zero. */
  lemma {:induction false} LookupExact(levels: Levels, s: State, start: nat, v: nat)
    requires Built(levels, s, start) && Sound(levels)
    ensures
      var n := |levels| - 1;
      Chase(levels, s.top, s.tables, s.kinds, v, n) == Walk(s.top, s.tables, Path(levels, v, n)) <==>
        HasLeafTable(levels, s.top, s.tables, v) || 0 !in s.tables
  {
    hide Built, Walk, Chase;
    if HasLeafTable(levels, s.top, s.tables, v) || 0 !in s.tables {
      ChaseRight(levels, s, start, v, |levels| - 1);
    } else {
      ChaseAstray(levels, s, start, v, |levels| - 1);
    }
  }

  class PtableSet {
    const levels: Levels
    const pagesStart: nat
    var top: Table
    var tables: map<nat, Table>
    var kinds: map<nat, nat>
    var pagePos: nat
    ghost var home: map<nat, seq<nat>>
    ghost var log: seq<Write>

    ghost function View(): State
      reads this
    {
      State(top, tables, kinds, home, pagePos, log)
    }

    ghost predicate Valid()
      reads this
    {
      Built(levels, View(), pagesStart)
    }

    constructor (levels: Levels, start: nat)
      requires Sound(levels) && start % PAGE == 0
      ensures Valid() && this.levels == levels && pagesStart == start == pagePos && tables == map[] && log == []
    {
      this.levels, pagesStart := levels, start;
      top, tables, kinds, pagePos := Blank(levels[0].entries), map[], map[], start;
      home, log := map[], [];
      new;
      forall q | |q| == |levels| && q != [] ensures Leaf(top, tables, q) == Final(log, q) {
        StartLeaf(levels, top, q);
      }
    }

    /** new_child_table(), for the table that hangs on path `p`. */
    method NewChild(at: Ref, i: nat, ghost p: seq<nat>) returns (child: Ref)
      requires Valid() && |p| + 1 < |levels| && Walk(top, tables, p) == Some(at)
      requires i < |Deref(top, tables, at)| && P !in Deref(top, tables, at)[i].flags
      requires pagePos + PAGE <= levels[0].addrLimit
      modifies this`top, this`tables, this`kinds, this`pagePos, this`home
      ensures Valid() && pagePos == old(pagePos) + PAGE && Extends(levels, old(View()), View())
      ensures child == At(old(pagePos)) && Walk(top, tables, p + [i]) == Some(child)
      ensures Hung(levels, View(), at, |p|, i, old(pagePos))
    {
      hide Built, Walk, Extends;
      WalkFacts(levels, View(), pagesStart, p, at);
      ChildBuilt(levels, View(), pagesStart, at, p, i);
      ChildHung(levels, View(), pagesStart, at, p, i);
      hide Hung;
      ghost var s' := Child(levels, View(), at, p, i);
      var d := Kind(kinds, at);
      var a := pagePos;
      var e := Entry(Masked(a, levels[d].addrLimit), INT_FLAGS * levels[d].supported);
      pagePos := pagePos + PAGE;
      top, tables := SetTop(top, at, i, e), Grown(tables, at, i, a, e, levels[d + 1].entries);
      kinds := kinds[a := d + 1];
      home := home[a := p + [i]];
      child := At(a);
      assert View() == s';
      hide *;
    }

    /** map_page() at the leaf level: tables on the way are created where they are missing; then the
        page's entry is written, unless only the tables were wanted. */
    method MapPage(v: nat, phys: nat, flags: set<Flag>, reserve: bool)
      requires Valid() && Sound(levels) && pagePos + PAGE * (|levels| - 1) <= levels[0].addrLimit
      modifies this`top, this`tables, this`kinds, this`pagePos, this`home, this`log
      ensures Valid() && pagePos <= old(pagePos) + PAGE * (|levels| - 1) && Extends(levels, old(View()), View())
      ensures Walk(top, tables, Path(levels, v, |levels| - 1)).Some?
      ensures
        var leaf := levels[|levels| - 1];
        log == if reserve then old(log)
               else old(log) + [Write(Path(levels, v, |levels|), Entry(Masked(phys, leaf.addrLimit), flags * leaf.supported))]
    {
      hide Built, Walk, Extends;
      var at := Root;
      WalkNowhere(top, tables);
      SameExtends(levels, View());
      for depth := 1 to |levels|
        invariant Valid() && log == old(log) && Extends(levels, old(View()), View())
        invariant Walk(top, tables, Path(levels, v, depth - 1)) == Some(at)
        invariant pagePos <= old(pagePos) + PAGE * (depth - 1)
      {
        ghost var p := Path(levels, v, depth - 1);
        WalkFacts(levels, View(), pagesStart, p, at);
        var i := Index(levels, Kind(kinds, at), v);
        PresentStep(levels, View(), pagesStart, at, p, i);
        assert p + [i] == Path(levels, v, depth);
        var e := Deref(top, tables, at)[i];
        ghost var before := View();
        if P !in e.flags {
          at := NewChild(at, i, p);
          ExtendsTwice(levels, old(View()), before, View());
        } else {
          at := At(e.addr);
        }
      }
      if !reserve {
        ghost var p, before := Path(levels, v, |levels| - 1), View();
        WalkFacts(levels, View(), pagesStart, p, at);
        var leaf := levels[Kind(kinds, at)];
        var i := Index(levels, Kind(kinds, at), v);
        var e := Entry(Masked(phys, leaf.addrLimit), flags * leaf.supported);
        WrittenBuilt(levels, View(), pagesStart, at, p, i, e);
        assert p + [i] == Path(levels, v, |levels|);
        tables := SetTables(tables, at, i, e);
        log := log + [Write(p + [i], e)];
        assert View() == Written(before, at, p, i, e);
        ExtendsTwice(levels, old(View()), before, View());
        ExtendsAt(levels, before, View(), p);
      }
    }

    /** map(): an identity mapping never maps the page at address zero.  False stands for the exit
        with an error on a misaligned region. */
    method Map(phys: nat, virt: Option<nat>, size: nat, flags: set<Flag>) returns (ok: bool)
      requires Valid() && Sound(levels) && pagePos + Growth(levels, size / PAGE) <= levels[0].addrLimit
      modifies this`top, this`tables, this`kinds, this`pagePos, this`home, this`log
      ensures Valid() && Extends(levels, old(View()), View()) && pagePos <= old(pagePos) + Growth(levels, size / PAGE)
      ensures var base := if virt == None then phys else virt.value;
        && (ok <==> phys % PAGE == 0 && size % PAGE == 0 && base % PAGE == 0)
        && log == if ok then MapLog(levels, old(log), phys, base, size / PAGE, flags, base == phys) else old(log)
    {
      hide Built, Walk, Extends, Path, Masked, Sound, MapLog, Growth;
      Positive(levels);
      GrowthMore(levels, 0, size / PAGE);
      var identity := virt == None || virt.value == phys;
      var base := if virt == None then phys else virt.value;
      SameExtends(levels, View());
      MapLogNone(levels, log, phys, base, flags, identity);
      GrowthNone(levels);
      if phys % PAGE != 0 || size % PAGE != 0 || base % PAGE != 0 { return false; }
      ok := true;
      for k := 0 to size / PAGE
        invariant Valid() && Extends(levels, old(View()), View())
        invariant pagePos <= old(pagePos) + Growth(levels, k)
        invariant log == MapLog(levels, old(log), phys, base, k, flags, identity)
      {
        var paddr := phys + PAGE * k;
        GrowthMore(levels, k + 1, size / PAGE);
        GrowthStep(levels, k);
        MapLogStep(levels, old(log), phys, base, k, flags, identity);
        if !(identity && paddr == 0) {
          var vaddr := base + (paddr - phys);
          ghost var before := View();
          MapPage(vaddr, paddr, flags, false);
          ExtendsTwice(levels, old(View()), before, View());
        }
      }
    }

    /** reserve(): leaf tables for a region, and no change to any translation. */
    method Reserve(virt: nat, size: nat) returns (ok: bool)
      requires Valid() && Sound(levels)
      requires pagePos + Growth(levels, size / levels[|levels| - 2].span + 1) <= levels[0].addrLimit
      modifies this`top, this`tables, this`kinds, this`pagePos, this`home, this`log
      ensures Valid() && log == old(log) && Extends(levels, old(View()), View())
      ensures pagePos <= old(pagePos) + Growth(levels, size / levels[|levels| - 2].span + 1)
      ensures ok <==> virt % PAGE == 0 && size % PAGE == 0 && virt % levels[|levels| - 2].span == 0
      ensures ok ==> forall v | virt <= v < virt + size :: HasLeafTable(levels, top, tables, v)
    {
      hide Built, Walk, Extends, Path, Sound;
      SameExtends(levels, View());
      Positive(levels);
      var scope := levels[|levels| - 2].span;
      GrowthMore(levels, 0, size / scope + 1);
      if virt % PAGE != 0 || size % PAGE != 0 { return false; }
      if virt % scope != 0 { return false; }
      ok := true;
      var addr, k := virt, 0;
      while addr < virt + size
        invariant Valid() && Extends(levels, old(View()), View()) && log == old(log)
        invariant addr == virt + scope * k && pagePos <= old(pagePos) + Growth(levels, k) <= old(pagePos) + Growth(levels, size / scope + 1)
        invariant forall v | virt <= v < addr :: HasLeafTable(levels, top, tables, v)
        decreases virt + size - addr
      {
        StepsBound(scope, k, size);
        GrowthMore(levels, k + 1, size / scope + 1);
        ghost var before := View();
        MapPage(addr, 0, {}, true);
        ExtendsTwice(levels, old(View()), before, View());
        forall v | virt <= v < addr + scope ensures HasLeafTable(levels, top, tables, v) {
          if v < addr {
            assert HasLeafTable(levels, before.top, before.tables, v);
            ExtendsAt(levels, before, View(), Path(levels, v, |levels| - 1));
          } else {
            SameBlock(virt, scope, k, addr, v);
            SameAbove(levels, |levels| - 2, addr, v);
          }
        }
        addr, k := addr + scope, k + 1;
        assert scope * k == scope * (k - 1) + scope;
      }
    }

    /** set_region_perms() on a region given by its bounds.  With a table at physical address zero a
        missing leaf table goes unnoticed (LookupExact); otherwise false stands for the exit with an error, which comes exactly when the region is
        misaligned or some page of it, address zero aside, has no leaf table. */
    method SetRegionPerms(base: nat, size: nat, flags: set<Flag>) returns (ok: bool)
      requires Valid() && Sound(levels) && (0 !in tables || Covered(View(), base, size / PAGE))
      modifies this`tables, this`log
      ensures Valid() && Extends(levels, old(View()), View())
      ensures ok <==> size == 0 || (base % PAGE == 0 && size % PAGE == 0 && Covered(old(View()), base, size / PAGE))
      ensures ok ==> log == PermLog(levels, old(log), base, size / PAGE, flags)
    {
      hide Built, Walk, Extends, Path, Chase, Final, HasLeafTable;
      SameExtends(levels, View());
      if size == 0 { return true; }
      if base % PAGE != 0 || size % PAGE != 0 { return false; }
      ok := true;
      for k := 0 to size / PAGE
        invariant Valid() && Extends(levels, old(View()), View()) && tables.Keys == old(tables).Keys
        invariant forall v :: HasLeafTable(levels, top, tables, v) <==> HasLeafTable(levels, old(top), old(tables), v)
        invariant log == PermLog(levels, old(log), base, k, flags)
        invariant Covered(old(View()), base, k)
      {
        var addr := base + PAGE * k;
        if addr != 0 {
          ghost var before := View();
          ok := SetPagePerms(addr, flags);
          ExtendsTwice(levels, old(View()), before, View());
          if !ok { return false; }
        }
      }
    }

    /** Every one of the first pages of the region, address zero aside, has a leaf table. */
    ghost predicate Covered(s: State, base: nat, pages: nat)
      requires Sound(levels)
    {
      forall k | 0 <= k < pages && base + PAGE * k != 0 :: HasLeafTable(levels, s.top, s.tables, base + PAGE * k)
    }

    method SetPagePerms(addr: nat, flags: set<Flag>) returns (ok: bool)
      requires Valid() && Sound(levels) && (0 !in tables || HasLeafTable(levels, top, tables, addr))
      modifies this`tables, this`log
      ensures Valid() && Extends(levels, old(View()), View()) && tables.Keys == old(tables).Keys
      ensures ok <==> HasLeafTable(levels, old(top), old(tables), addr)
      ensures forall v :: HasLeafTable(levels, top, tables, v) <==> HasLeafTable(levels, old(top), old(tables), v)
      ensures
        var q := Path(levels, addr, |levels|);
        log == if ok then old(log) + [Write(q, Entry(Final(old(log), q).addr, flags * Leafmost(levels).supported))] else old(log)
    {
      hide Built, Walk, Path, Final, Extends;
      SameExtends(levels, View());
      ChaseRight(levels, View(), pagesStart, addr, |levels| - 1);
      var r := Chase(levels, top, tables, kinds, addr, |levels| - 1);
      ok := r.Some?;
      if ok { SetPerms(r.value, addr, flags); }
    }

    /** MMUTable.set_perms() on a leaf table. */
    method SetPerms(at: Ref, addr: nat, flags: set<Flag>)
      requires Valid() && Sound(levels) && Walk(top, tables, Path(levels, addr, |levels| - 1)) == Some(at)
      modifies this`tables, this`log
      ensures Valid() && Extends(levels, old(View()), View()) && tables.Keys == old(tables).Keys
      ensures forall v :: HasLeafTable(levels, top, tables, v) <==> HasLeafTable(levels, old(top), old(tables), v)
      ensures
        var q := Path(levels, addr, |levels|);
        log == old(log) + [Write(q, Entry(Final(old(log), q).addr, flags * Leafmost(levels).supported))]
    {
      hide Built, Walk, Extends;
      ghost var p := Path(levels, addr, |levels| - 1);
      WalkFacts(levels, View(), pagesStart, p, at);
      var i := Index(levels, Kind(kinds, at), addr);
      var e := Entry(Deref(top, tables, at)[i].addr, flags * levels[Kind(kinds, at)].supported);
      WrittenBuilt(levels, View(), pagesStart, at, p, i, e);
      assert p + [i] == Path(levels, addr, |levels|);
      LeafTablesStay(levels, View(), pagesStart, at, p, i, e);
      tables := SetTables(tables, at, i, e);
      log := log + [Write(p + [i], e)];
    }

    /** Any sequence of operations on regions of the address space, up to an error exit: walking the
        tables from the top gives, for every address, what the operations made of what was there. */
    method Run(ops: seq<Op>) returns (ok: bool, done: nat)
      requires Valid() && Sound(levels) && pagePos + Need(levels, ops) <= levels[0].addrLimit
      requires forall k | 0 <= k < |ops| :: InSpace(levels, ops[k]) && (ops[k].Perms? ==> pagesStart > 0)
      modifies this
      ensures Valid() && done <= |ops| && (ok <==> done == |ops|)
      ensures forall k | 0 <= k < done :: Aligned(levels, ops[k])
      ensures !ok ==> ops[done].Perms? || !Aligned(levels, ops[done])
      ensures ok ==> forall v | 0 <= v < Total(levels) ::
        Leaf(top, tables, Path(levels, v, |levels|)) == After(levels, old(Final(log, Path(levels, v, |levels|))), ops, v)
    {
      hide Built, Walk, Extends, Path, Final, Leaf, After, Total, Sound, Means, MapLog, PermLog, InSpace, Need;
      Positive(levels);
      done := 0;
      MeansNothing(levels, log, ops);
      NeedMore(levels, ops, 0);
      NeedNothing(levels, ops);
      while done < |ops|
        invariant Valid() && done <= |ops| && pagePos <= old(pagePos) + Need(levels, ops[..done])
        invariant forall k | 0 <= k < done :: Aligned(levels, ops[k])
        invariant Means(levels, old(log), log, ops[..done])
      {
        ghost var before := log;
        NeedMore(levels, ops, done + 1);
        NeedOne(levels, ops, done);
        match ops[done] {
          case Map(phys, virt, size, flags) => ok := Map(phys, virt, size, flags);
          case Reserve(base, size) => ok := Reserve(base, size);
          case Perms(base, size, flags) =>
            NoTableZero();
            ok := SetRegionPerms(base, size, flags);
        }
        if !ok { return; }
        MeansMore(levels, old(log), before, log, ops, done);
        done := done + 1;
      }
      ok := true;
      assert ops[..done] == ops;
      MeansLeaf(levels, View(), pagesStart, old(log), ops);
    }

    lemma {:induction false} NoTableZero()
      requires Valid() && pagesStart > 0
      ensures 0 !in tables
    {
      hide Tree, Agrees, Walk;
    }

    /** write_output(): the tables in the order of their addresses, then the top-level table.  Every
        table lands at the offset its address has from the start of the image, and the top-level
        one right behind them, at the next free page. */
    method WriteOutput() returns (layout: seq<nat>, offsets: seq<nat>, topOffset: nat)
      requires Valid()
      ensures |layout| == |offsets| == |tables|
      ensures forall k | 0 <= k < |layout| :: layout[k] in tables && offsets[k] == layout[k] - pagesStart
      ensures forall a | a in tables :: a in layout
      ensures topOffset == pagePos - pagesStart
    {
      hide Tree, Agrees, Walk;
      layout, offsets, topOffset := [], [], 0;
      var rest := tables.Keys;
      while rest != {}
        invariant |layout| == |offsets| <= |tables| && topOffset == PAGE * |layout|
        invariant forall a :: a in rest <==> a in tables && a >= pagesStart + topOffset
        invariant forall k | 0 <= k < |layout| :: layout[k] in tables && offsets[k] == layout[k] - pagesStart
        invariant forall a | a in tables && a < pagesStart + topOffset :: a in layout
        decreases rest
      {
        var a := Least(rest);
        NextPage(View(), pagesStart, rest, a, |layout|);
        TableSize(levels, View(), pagesStart, a);
        layout, offsets := layout + [a], offsets + [topOffset];
        topOffset := topOffset + levels[kinds[a]].entries * levels[kinds[a]].width;
        rest := rest - {a};
      }
      AllOut(View(), pagesStart, |layout|);
    }
  }

  method Least(s: set<nat>) returns (a: nat)
    requires s != {}
    ensures a in s && forall b | b in s :: a <= b
  {
    a :| a in s;
    var rest := s - {a};
    while rest != {}
      invariant a in s && rest <= s && forall b | b in s && b !in rest :: a <= b
      decreases rest
    {
      var b :| b in rest;
      if b < a { a := b; }
      rest := rest - {b};
    }
  }

  lemma {:induction false} NextPage(s: State, start: nat, rest: set<nat>, a: nat, k: nat)
    requires Packed(s.tables.Keys, start, s.pos) && a in rest && (forall b | b in rest :: a <= b)
    requires forall b :: b in rest <==> b in s.tables && b >= start + PAGE * k
    ensures a == start + PAGE * k && k < |s.tables|
    ensures forall b | b in s.tables && b < start + PAGE * (k + 1) :: b == a || b < start + PAGE * k
  {
    assert |s.tables| == |s.tables.Keys|;
    assert PageAt(s.tables.Keys, start, k);
    forall b | b in s.tables && start + PAGE * k <= b < start + PAGE * (k + 1) ensures b == a {
      assert (b - start) % PAGE == 0;
    }
  }

  lemma {:induction false} TableSize(levels: Levels, s: State, start: nat, a: nat)
    requires Built(levels, s, start) && a in s.tables
    ensures a in s.kinds && s.kinds[a] < |levels| && levels[s.kinds[a]].entries * levels[s.kinds[a]].width == PAGE
  {
    hide Walk, Agrees, Packed;
  }

  lemma {:induction false} AllOut(s: State, start: nat, k: nat)
    requires Packed(s.tables.Keys, start, s.pos) && k <= |s.tables|
    requires forall b | b in s.tables :: b < start + PAGE * k
    ensures k == |s.tables| && s.pos == start + PAGE * k
  {
    assert |s.tables| == |s.tables.Keys|;
    assert k < |s.tables| ==> PageAt(s.tables.Keys, start, k);
  }

  lemma {:induction false} MeansNothing(levels: Levels, log: seq<Write>, ops: seq<Op>)
    requires Sound(levels)
    ensures Means(levels, log, log, ops[..0])
  {
    hide Path, Final;
  }

  lemma {:induction false} NeedNothing(levels: Levels, ops: seq<Op>)
    requires |levels| >= 2 && levels[|levels| - 2].span > 0
    ensures Need(levels, ops[..0]) == 0
  {
  }

  lemma {:induction false} NeedOne(levels: Levels, ops: seq<Op>, k: nat)
    requires |levels| >= 2 && levels[|levels| - 2].span > 0 && k < |ops|
    ensures Need(levels, ops[..k + 1]) == Need(levels, ops[..k]) +
      match ops[k]
      case Map(_, _, size, _) => Growth(levels, size / PAGE)
      case Reserve(_, size) => Growth(levels, size / levels[|levels| - 2].span + 1)
      case Perms(_, _, _) => 0
  {
    assert ops[..k + 1][..k] == ops[..k] && ops[..k + 1][k] == ops[k];
  }

  /** With tables from address zero on and one page mapped, in 32-bit mode: the lookup for a page
      without a leaf table lands in the other page's table, on the very entry of that page. */
  method AstrayExample() returns (set_: PtableSet)
    ensures set_.Valid() && set_.levels == LEVELS_32BIT && set_.pagesStart == 0
    ensures
      var s := set_.View();
      && Chase(LEVELS_32BIT, s.top, s.tables, s.kinds, 0x40_1000, 1) == Some(At(0))
      && Walk(s.top, s.tables, Path(LEVELS_32BIT, 0x40_1000, 1)) == None
      && Walk(s.top, s.tables, Path(LEVELS_32BIT, 0x1000, 1)) == Some(At(0))
      && Index(LEVELS_32BIT, 1, 0x40_1000) == Index(LEVELS_32BIT, 1, 0x1000)
  {
    hide Built, Walk, Chase, Extends, Path;
    ModesSound();
    set_ := new PtableSet(LEVELS_32BIT, 0);
    set_.MapPage(0x1000, 0x1000, {P}, false);
    Astray(set_.View());
  }

  lemma {:induction false} Astray(s: State)
    requires Built(LEVELS_32BIT, s, 0) && Sound(LEVELS_32BIT) && s.pos <= PAGE
    requires Walk(s.top, s.tables, Path(LEVELS_32BIT, 0x1000, 1)).Some?
    ensures Chase(LEVELS_32BIT, s.top, s.tables, s.kinds, 0x40_1000, 1) == Some(At(0))
    ensures Walk(s.top, s.tables, Path(LEVELS_32BIT, 0x40_1000, 1)) == None
    ensures Walk(s.top, s.tables, Path(LEVELS_32BIT, 0x1000, 1)) == Some(At(0))
    ensures Index(LEVELS_32BIT, 1, 0x40_1000) == Index(LEVELS_32BIT, 1, 0x1000)
  {
    hide Walk, Chase, Built, Sound;
    var p, q := Path(LEVELS_32BIT, 0x1000, 1), Path(LEVELS_32BIT, 0x40_1000, 1);
    Indices();
    assert p == [] + [0] && q == [] + [1];
    WalkNowhere(s.top, s.tables);
    OnlyTable(s, p);
    OnlyTable(s, q);
    BuiltTree(LEVELS_32BIT, s, 0);
    Unshared(LEVELS_32BIT, s.top, s.tables, s.home, p, q);
    TopSize(s);
    PresentStep(LEVELS_32BIT, s, 0, Root, [], 1);
    ChaseTop(s, 0x40_1000);
  }

  lemma {:induction false} Indices()
    ensures Index(LEVELS_32BIT, 0, 0x1000) == 0 && Index(LEVELS_32BIT, 0, 0x40_1000) == 1
    ensures Index(LEVELS_32BIT, 1, 0x1000) == 1 && Index(LEVELS_32BIT, 1, 0x40_1000) == 1
  {
  }

  lemma {:induction false} BuiltTree(levels: Levels, s: State, start: nat)
    requires Built(levels, s, start)
    ensures Tree(levels, s.top, s.tables, s.home)
  {
  }

  lemma {:induction false} TopSize(s: State)
    requires Built(LEVELS_32BIT, s, 0)
    ensures |s.top| == 1024
  {
    hide Walk, Agrees, Packed;
  }

  lemma {:induction false} OnlyTable(s: State, q: seq<nat>)
    requires Built(LEVELS_32BIT, s, 0) && s.pos <= PAGE && |q| == 1
    ensures Walk(s.top, s.tables, q).Some? ==> Walk(s.top, s.tables, q) == Some(At(0)) && 0 in s.tables
  {
    hide Tree, Agrees;
    WalkStep(s.top, s.tables, [], q[0]);
    assert [] + [q[0]] == q;
  }

  lemma {:induction false} ChaseTop(s: State, v: nat)
    requires Index(LEVELS_32BIT, 0, v) < |s.top| && s.top[Index(LEVELS_32BIT, 0, v)] == ZERO && 0 in s.tables
    ensures Chase(LEVELS_32BIT, s.top, s.tables, s.kinds, v, 1) == Some(At(0))
  {
    assert Chase(LEVELS_32BIT, s.top, s.tables, s.kinds, v, 0) == Some(Root);
  }

  lemma {:induction false} SameExtends(levels: Levels, s: State)
    ensures Extends(levels, s, s)
  {
  }

  lemma {:induction false} ExtendsAt(levels: Levels, s: State, s': State, q: seq<nat>)
    requires Extends(levels, s, s') && |q| < |levels| && Walk(s.top, s.tables, q).Some?
    ensures Walk(s'.top, s'.tables, q) == Walk(s.top, s.tables, q)
  {
  }

  lemma {:induction false} StepsBound(scope: nat, k: nat, size: nat)
    requires scope > 0 && scope * k < size
    ensures k + 1 <= size / scope + 1
  {
    var q := size / scope;
    DivMod(size, scope);
    if k > q { MulMonotone(scope, q + 1, k); }
  }

  lemma {:induction false} SameBlock(virt: nat, scope: nat, k: nat, addr: nat, v: nat)
    requires scope > 0 && virt % scope == 0 && addr == virt + scope * k && addr <= v < addr + scope
    ensures addr / scope == v / scope
  {
    DivMod(virt, scope);
    var q := virt / scope + k;
    assert scope * q == scope * (virt / scope) + scope * k;
    DivUnique(addr, scope, q, 0);
    DivUnique(v, scope, q, v - addr);
  }

  lemma {:induction false} StartLeaf(levels: Levels, top: Table, q: seq<nat>)
    requires top == Blank(|top|) && q != []
    ensures Leaf(top, map[], q) == ZERO
    decreases |q|
  {
    if |q| > 1 { StartWalk(top, q[..|q| - 1]); }
  }

  lemma {:induction false} StartWalk(top: Table, q: seq<nat>)
    requires top == Blank(|top|) && q != []
    ensures Walk(top, map[], q) == None
  {
  }
}
