/** kernel/mem/virtual.c: copying a page table and an address space, working
    through temporary mappings in the kernel page table. */
module PageClone {
  import opened Frames
  import opened KernelMap

  const WORDS: nat := 0x400
  const KERNEL_BEGIN: nat := 0x300
  const KERNEL_STACK: nat := 0x3FE

  /** The frame number that a failed allocation stands for, behind all memory. */
  const NOWHERE: nat := 0xFFFFF

  type Page = seq<nat>

  // ----- entries of page tables and directories

  predicate Present(e: nat) { e % 2 == 1 }

  predicate BigPage(e: nat) { (e / 128) % 2 == 1 }

  function Flags(e: nat): nat { e % 0x1000 }

  function FrameOf(e: nat): nat { e / 0x1000 }

  function Entry(flags: nat, frame: nat): nat { frame * 0x1000 + flags }

  lemma EntryParts(flags: nat, frame: nat)
    requires flags < 0x1000
    ensures Flags(Entry(flags, frame)) == flags && FrameOf(Entry(flags, frame)) == frame
    ensures Present(Entry(flags, frame)) <==> Present(flags)
  {
  }

  lemma FlagsPresent(e: nat)
    ensures Flags(e) < 0x1000 && (Present(Flags(e)) <==> Present(e))
  {
  }

  /** What a kernel mapping of a frame holds: its address with flag bits 3. */
  function Mapping(frame: nat): (e: nat)
    ensures e != 0 && FrameOf(e) == frame
  { Entry(3, frame) }

  function Zeros(): (p: Page)
    ensures |p| == WORDS && forall k :: 0 <= k < WORDS ==> p[k] == 0
  { seq(WORDS, _ => 0) }

  // ----- free frames, the kernel page table and the contents of frames

  datatype Memory = Memory(free: set<nat>, kmap: seq<nat>, mem: seq<Page>)

  ghost predicate Shape(m: Memory) {
    && |m.kmap| == ENTRIES && |m.mem| <= NOWHERE
    && (forall x :: 0 <= x < |m.mem| ==> |m.mem[x]| == WORDS)
    && (forall x :: x in m.free ==> x < |m.mem|)
  }

  /** Only frames in own differ. */
  ghost predicate Same(m0: seq<Page>, m1: seq<Page>, own: set<nat>) {
    |m0| == |m1| && forall x: nat :: x < |m0| && x !in own ==> m1[x] == m0[x]
  }

  // ----- copies

  /** Entry e' maps a copy of the page that e maps, in a frame of own. */
  ghost predicate PageCopied(m0: seq<Page>, m1: seq<Page>, e: nat, e': nat, own: set<nat>) {
    if !Present(e) then e' == 0
    else
      && Flags(e') == Flags(e) && FrameOf(e') in own
      && FrameOf(e) < |m0| && FrameOf(e') < |m1| && m1[FrameOf(e')] == m0[FrameOf(e)]
  }

  /** Present entries among the first n. */
  function CountPresent(p: Page, n: nat): nat
    requires n <= |p|
  {
    if n == 0 then 0 else CountPresent(p, n - 1) + if Present(p[n - 1]) then 1 else 0
  }

  /** Entry k of the copy of p, in table t1: the frames of own pay for as many
      pages; what comes after leads nowhere. */
  ghost predicate Carried(m0: seq<Page>, m1: seq<Page>, p: Page, k: nat, e': nat, own: set<nat>, t1: nat)
    requires k < |p|
  {
    if Present(p[k]) && CountPresent(p, k) >= |own| - 1 then e' == Entry(Flags(p[k]), NOWHERE)
    else PageCopied(m0, m1, p[k], e', own - {t1})
  }

  /** The first n entries of table t1 are copies of those of t0; the others are
      clear. No two share a frame, and none uses the frame of the table. */
  ghost predicate TableCopied(m0: seq<Page>, m1: seq<Page>, t0: nat, t1: nat, n: nat, own: set<nat>) {
    && t0 < |m0| && t1 < |m1| && |m0[t0]| == WORDS == |m1[t1]| && t1 in own && n <= WORDS
    && (forall k: nat :: k < n ==> Carried(m0, m1, m0[t0], k, m1[t1][k], own, t1))
    && (forall j: nat, k: nat ::
          j < k < n && Present(m0[t0][j]) && Present(m0[t0][k]) && CountPresent(m0[t0], k) < |own| - 1 ==>
            FrameOf(m1[t1][j]) != FrameOf(m1[t1][k]))
    && (forall k :: n <= k < WORDS ==> m1[t1][k] == 0)
  }

  /** The table and the pages it maps are in use. */
  ghost predicate InUse(m: Memory, t: nat) {
    && t < |m.mem| && t !in m.free && |m.mem[t]| == WORDS
    && forall k :: 0 <= k < WORDS && Present(m.mem[t][k]) ==>
         FrameOf(m.mem[t][k]) < |m.mem| && FrameOf(m.mem[t][k]) !in m.free
  }

  lemma {:induction false} CountGrows(p: Page, i: nat, j: nat)
    requires i <= j <= |p|
    ensures CountPresent(p, i) <= CountPresent(p, j)
    decreases j
  {
    if i < j {
      CountGrows(p, i, j - 1);
    }
  }

  /** A present entry counts for all that come after it. */
  lemma CountBefore(p: Page, k: nat, n: nat)
    requires k < n <= |p| && Present(p[k])
    ensures CountPresent(p, k) < CountPresent(p, n)
  {
    CountGrows(p, k + 1, n);
  }

  /** A copied entry stays one when the frames it uses do, and the number of
      frames allows it. */
  lemma CarriedOn(m0: seq<Page>, m: seq<Page>, m': seq<Page>, p: Page, k: nat, e': nat, own: set<nat>,
                  own': set<nat>, t1: nat)
    requires k < |p| && Carried(m0, m, p, k, e', own, t1) && own <= own' && |m'| == |m|
    requires Present(p[k]) ==> (CountPresent(p, k) < |own| - 1 <==> CountPresent(p, k) < |own'| - 1)
    requires forall x :: x in own - {t1} && x < |m| ==> m'[x] == m[x]
    ensures Carried(m0, m', p, k, e', own', t1)
  {
    hide Flags, FrameOf, Entry, Present, CountPresent;
  }

  /** Copying one page into frame f and entering it at n. */
  lemma TableStep(m0: seq<Page>, m: seq<Page>, t0: nat, t1: nat, n: nat, own: set<nat>, f: nat)
    requires TableCopied(m0, m, t0, t1, n, own) && Same(m0, m, own) && n < WORDS && Present(m0[t0][n])
    requires t0 !in own && FrameOf(m0[t0][n]) < |m0| && FrameOf(m0[t0][n]) !in own
    requires f !in own && f < |m| && f != t0 && |own| == CountPresent(m0[t0], n) + 1
    ensures var m1 := m[f := m[FrameOf(m0[t0][n])]];
            var m2 := m1[t1 := m1[t1][n := Entry(Flags(m0[t0][n]), f)]];
            TableCopied(m0, m2, t0, t1, n + 1, own + {f}) && Same(m0, m2, own + {f})
  {
    var p, e := m0[t0], m0[t0][n];
    var m1 := m[f := m[FrameOf(e)]];
    var m2 := m1[t1 := m1[t1][n := Entry(Flags(e), f)]];
    var own' := own + {f};
    FlagsPresent(e);
    EntryParts(Flags(e), f);
    hide Flags, FrameOf, Entry, Present, CountPresent;
    assert |own'| == |own| + 1;
    forall k: nat | k < n + 1
      ensures Carried(m0, m2, p, k, m2[t1][k], own', t1)
    {
      if k < n {
        if Present(p[k]) { CountBefore(p, k, n); }
        CarriedOn(m0, m, m2, p, k, m[t1][k], own, own', t1);
      }
    }
    forall j: nat, k: nat | j < k < n + 1 && Present(p[j]) && Present(p[k]) && CountPresent(p, k) < |own'| - 1
      ensures FrameOf(m2[t1][j]) != FrameOf(m2[t1][k])
    {
      CountBefore(p, j, n);
      assert Carried(m0, m, p, j, m[t1][j], own, t1);
      if k < n { CountBefore(p, k, n); }
    }
  }

  /** Entering a page for which there was no frame. */
  lemma TableShort(m0: seq<Page>, m: seq<Page>, t0: nat, t1: nat, n: nat, own: set<nat>)
    requires TableCopied(m0, m, t0, t1, n, own) && Same(m0, m, own) && n < WORDS && Present(m0[t0][n])
    requires |own| <= CountPresent(m0[t0], n) + 1
    ensures var m2 := Put(m, t1, n, Entry(Flags(m0[t0][n]), NOWHERE));
            TableCopied(m0, m2, t0, t1, n + 1, own) && Same(m0, m2, own)
  {
    var p, e := m0[t0], m0[t0][n];
    var m2 := Put(m, t1, n, Entry(Flags(e), NOWHERE));
    hide Flags, FrameOf, Entry, Present, CountPresent;
    forall k: nat | k < n + 1
      ensures Carried(m0, m2, p, k, m2[t1][k], own, t1)
    {
      if k < n { CarriedOn(m0, m, m2, p, k, m[t1][k], own, own, t1); }
    }
  }

  lemma TableSkip(m0: seq<Page>, m: seq<Page>, t0: nat, t1: nat, n: nat, own: set<nat>)
    requires TableCopied(m0, m, t0, t1, n, own) && n < WORDS && !Present(m0[t0][n])
    ensures TableCopied(m0, m, t0, t1, n + 1, own)
  {
    hide Flags, FrameOf, Present, CountPresent, Entry;
  }

  /** A copy does not change when other frames do. */
  lemma TableStays(m0: seq<Page>, m: seq<Page>, m': seq<Page>, t0: nat, t1: nat, own: set<nat>, other: set<nat>)
    requires TableCopied(m0, m, t0, t1, WORDS, own) && Same(m, m', other) && own !! other
    ensures TableCopied(m0, m', t0, t1, WORDS, own)
  {
    hide Flags, FrameOf, Present, CountPresent, Entry;
    assert m'[t1] == m[t1];
    forall k: nat | k < WORDS
      ensures Carried(m0, m', m0[t0], k, m'[t1][k], own, t1)
    {
      CarriedOn(m0, m, m', m0[t0], k, m[t1][k], own, own, t1);
    }
  }

  // ----- resources

  ghost function Below(f: set<nat>, limit: nat): set<nat> { set x | x in f && x < limit }

  lemma UnusedLess(t: seq<nat>, s: nat, v: nat)
    requires s < |t| && t[s] == 0 && v != 0
    ensures Unused(t[s := v]) == Unused(t) - {s} && |Unused(t[s := v])| == |Unused(t)| - 1
  {
    assert s in Unused(t);
  }

  /** Where a copy of a table stands: the frames in own came from the free
      ones, and the new table is mapped at slot. */
  ghost predicate Copying(m0: Memory, m: Memory, t0: nat, t1: nat, slot: nat, n: nat, own: set<nat>) {
    && slot < |m0.kmap| && m0.kmap[slot] == 0 && m.kmap == m0.kmap[slot := Mapping(t1)]
    && Shape(m) && own <= m0.free && m.free == m0.free - own
    && TableCopied(m0.mem, m.mem, t0, t1, n, own) && Same(m0.mem, m.mem, own)
    && |own| == Min(CountPresent(m0.mem[t0], n) + 1, |m0.free|)
  }

  function Min(a: nat, b: nat): nat { if a <= b then a else b }

  function Filled(m: Memory, e: nat, t1: nat, n: nat, f: nat): Memory
    requires f < |m.mem| && FrameOf(e) < |m.mem| && t1 < |m.mem| && |m.mem[t1]| == WORDS && n < WORDS && f != t1
  {
    var m1 := m.mem[f := m.mem[FrameOf(e)]];
    Memory(m.free - {f}, m.kmap, m1[t1 := m1[t1][n := Entry(Flags(e), f)]])
  }

  lemma CopyingStep(m0: Memory, m: Memory, t0: nat, t1: nat, slot: nat, n: nat, own: set<nat>, f: nat)
    requires Shape(m0) && Copying(m0, m, t0, t1, slot, n, own) && InUse(m0, t0) && n < WORDS
    requires Present(m0.mem[t0][n]) && f in m.free
    ensures f != t1 && f < |m.mem| && FrameOf(m0.mem[t0][n]) < |m.mem|
    ensures Copying(m0, Filled(m, m0.mem[t0][n], t1, n, f), t0, t1, slot, n + 1, own + {f})
  {
    hide Carried, Flags, FrameOf, Entry, Mapping;
    Rest(m0.free, own);
    assert |m0.free - own| > 0 by { assert f in m0.free - own; }
    TableStep(m0.mem, m.mem, t0, t1, n, own, f);
    hide TableCopied, Same;
    assert |own + {f}| == |own| + 1;
  }

  /** The same when no frame is left. */
  function Unfilled(m: Memory, e: nat, t1: nat, n: nat): Memory
    requires t1 < |m.mem| && |m.mem[t1]| == WORDS && n < WORDS
  {
    m.(mem := Put(m.mem, t1, n, Entry(Flags(e), NOWHERE)))
  }

  lemma CopyingShort(m0: Memory, m: Memory, t0: nat, t1: nat, slot: nat, n: nat, own: set<nat>)
    requires Shape(m0) && Copying(m0, m, t0, t1, slot, n, own) && n < WORDS && Present(m0.mem[t0][n]) && m.free == {}
    ensures t1 < |m.mem| && |m.mem[t1]| == WORDS
    ensures Copying(m0, Unfilled(m, m0.mem[t0][n], t1, n), t0, t1, slot, n + 1, own)
  {
    hide Carried, Same, Flags, FrameOf, Entry, Mapping;
    forall x | x in m0.free ensures x in own { assert x !in m.free; }
    assert own == m0.free;
    TableShort(m0.mem, m.mem, t0, t1, n, own);
    hide TableCopied;
  }

  /** The table being copied still reads as it did. */
  lemma CopyingReads(m0: Memory, m: Memory, t0: nat, t1: nat, slot1: nat, n: nat, own: set<nat>, slot: nat)
    requires Copying(m0, m, t0, t1, slot1, n, own) && InUse(m0, t0) && n < WORDS
    requires slot < |m0.kmap| && m0.kmap[slot] != 0 && FrameOf(m0.kmap[slot]) == t0
    ensures slot < |m.kmap| && FrameOf(m.kmap[slot]) == t0 && t0 < |m.mem| && m.mem[t0] == m0.mem[t0]
    ensures m.kmap[slot1] != 0 && FrameOf(m.kmap[slot1]) == t1 && t1 < |m.mem| && t1 !in m.free && |m.mem[t1]| == WORDS
    ensures Present(m0.mem[t0][n]) ==> FrameOf(m0.mem[t0][n]) < |m.mem|
  {
    hide FrameOf;
  }

  lemma CopyingSkip(m0: Memory, m: Memory, t0: nat, t1: nat, slot: nat, n: nat, own: set<nat>)
    requires Copying(m0, m, t0, t1, slot, n, own) && n < WORDS && !Present(m0.mem[t0][n])
    ensures Copying(m0, m, t0, t1, slot, n + 1, own)
  {
    TableSkip(m0.mem, m.mem, t0, t1, n, own);
    hide TableCopied, Same, Flags, FrameOf, Present, Mapping;
  }

  lemma CopyingStarts(m0: Memory, t0: nat, t1: nat, slot: nat)
    requires Shape(m0) && InUse(m0, t0) && t1 in m0.free && slot < ENTRIES && m0.kmap[slot] == 0
    ensures var m := Memory(m0.free - {t1}, m0.kmap[slot := Mapping(t1)], m0.mem[t1 := Zeros()]);
            Copying(m0, m, t0, t1, slot, 0, {t1})
  {
  }

  lemma Rest(a: set<nat>, b: set<nat>)
    requires b <= a
    ensures |a - b| == |a| - |b|
  {
    assert a == (a - b) + b;
  }

  lemma OneFits(f: set<nat>, limit: nat)
    ensures Below(f, limit) == {} <==> NoWindow(f, limit, 1)
  {
    if NoWindow(f, limit, 1) {
      forall x | x in Below(f, limit) ensures false {
        assert Window(f, x, 1);
      }
    } else {
      var k: nat :| k + 1 <= limit && Window(f, k, 1);
      assert k in Below(f, limit);
    }
  }

  /** After a failed copy: the frames of `lost` are gone from the free ones, and
      nothing else has changed but the contents of free frames. */
  ghost predicate Lost(m0: Memory, m: Memory, lost: set<nat>) {
    && m.kmap == m0.kmap && lost <= m0.free && m.free == m0.free - lost
    && Same(m0.mem, m.mem, m0.free)
  }

  /** A copy of a table given up at its first page. */
  lemma TableLost(m0: Memory, m: Memory, m': Memory, t0: nat, t1: nat, slot: nat, n: nat, own: set<nat>, got: set<nat>)
    requires Copying(m0, m, t0, t1, slot, n, own) && CountPresent(m0.mem[t0], n) == 0 && m0.free != {}
    requires got <= m.free && m'.free == m.free - got + {t1} && m'.kmap == m.kmap[slot := 0] && m'.mem == m.mem
    ensures Lost(m0, m', got) && (m.free == {} <==> |m0.free| < 2)
  {
    hide Carried, FrameOf, Mapping, CountPresent;
    assert |own| == 1 && t1 in own;
    assert own == {t1} by { Singleton(own, t1); }
    Rest(m0.free, own);
    assert m'.free == m0.free - got;
    assert m'.kmap == m0.kmap;
    assert m.free == {} ==> |m0.free - own| == 0;
  }

  lemma Singleton(s: set<nat>, x: nat)
    requires |s| == 1 && x in s
    ensures s == {x}
  {
    Rest(s, {x});
  }

  /** What a table's copy needs: a frame for the table itself, and three unused
      kernel mappings, or one if there is no page to copy. */
  ghost predicate Affordable(frames: int, slots: int, pages: nat) {
    frames > 0 && (slots >= 3 || (slots >= 1 && pages == 0))
  }

  lemma NoneUnused(t: seq<nat>)
    ensures Unused(t) == {} <==> |Unused(t)| == 0
  {
  }

  lemma SpareFits(t: seq<nat>)
    requires |t| == ENTRIES
    ensures Unused(t) == {} <==> NoWindow(Unused(t), ENTRIES, 1)
  {
    OneFits(Unused(t), ENTRIES);
    assert Below(Unused(t), ENTRIES) == Unused(t);
  }

  lemma CountNext(p: Page, i: nat)
    requires i < |p|
    ensures CountPresent(p, i + 1) == CountPresent(p, i) + if Present(p[i]) then 1 else 0
  {
  }

  lemma CountNone(p: Page)
    ensures CountPresent(p, 0) == 0
  {
  }

  lemma LostNone(m: Memory)
    ensures Lost(m, m, {})
  {
  }

  /** A table being copied has taken one mapping. */
  lemma CopyingSlots(m0: Memory, m: Memory, t0: nat, t1: nat, slot: nat, n: nat, own: set<nat>)
    requires Copying(m0, m, t0, t1, slot, n, own)
    ensures |Unused(m.kmap)| == |Unused(m0.kmap)| - 1 && slot < |m.kmap|
  {
    UnusedLess(m0.kmap, slot, Mapping(t1));
  }

  // ----- the machine

  predicate Distinct(a: object, b: object, c: object) { a != b && b != c && a != c }

  class Machine {
    const phys: PhysicalMemory
    const kernel: PageTable
    const mem: array<Page>

    constructor (phys: PhysicalMemory, kernel: PageTable, mem: array<Page>)
      requires phys.Valid() && kernel.Valid() && phys.limit <= mem.Length <= NOWHERE
      requires Distinct(phys.mmTable, kernel.entries, mem)
      requires forall x :: 0 <= x < mem.Length ==> |mem[x]| == WORDS
      ensures Valid() && this.phys == phys && this.kernel == kernel && this.mem == mem
    {
      this.phys, this.kernel, this.mem := phys, kernel, mem;
    }

    ghost function Abs(): Memory
      reads this, phys, phys.mmTable, kernel, kernel.entries, mem
    { Memory(Below(phys.Frees(), phys.limit), kernel.entries[..], mem[..]) }

    ghost predicate Valid()
      reads this, phys, phys.mmTable, kernel, kernel.entries, mem
    {
      && phys.Valid() && kernel.Valid() && phys.limit <= mem.Length
      && Distinct(phys.mmTable, kernel.entries, mem) && Shape(Abs())
    }

    /** alloc_phys_frame; NOWHERE is its failure, -1, as a frame number. */
    method Alloc() returns (f: nat)
      requires Valid()
      modifies phys.mmTable
      ensures Valid()
      ensures old(Abs()).free == {} ==> f == NOWHERE && Abs() == old(Abs())
      ensures old(Abs()).free != {} ==>
                && f in old(Abs()).free && f < phys.limit && f < NOWHERE
                && Abs() == old(Abs()).(free := old(Abs()).free - {f})
    {
      hide FreeSet;
      ghost var frees := phys.Frees();
      var r := phys.AllocFrame();
      OneFits(frees, phys.limit);
      if r == -1 { return NOWHERE; }
      assert Window(frees, r, 1);
      f := r;
    }

    /** free_phys_frame */
    method Release(f: nat)
      requires Valid() && f < phys.limit
      modifies phys.mmTable
      ensures Valid() && Abs() == old(Abs()).(free := old(Abs()).free + {f})
    {
      hide FreeSet;
      phys.FreeFrames(f, 1);
      assert Abs().free == old(Abs()).free + {f};
    }

    method Map(e: nat) returns (s: int)
      requires Valid() && e != 0
      modifies kernel.entries
      ensures Valid() && -1 <= s < ENTRIES && (s == -1 <==> Unused(old(kernel.entries[..])) == {})
      ensures s == -1 ==> Abs() == old(Abs())
      ensures s >= 0 ==> old(kernel.entries[..])[s] == 0
      ensures s >= 0 ==> Abs() == old(Abs()).(kmap := old(kernel.entries[..])[s := e])
    {
      hide FreeSet, FrameOf;
      ghost var spare := kernel.Spare();
      s := kernel.MapPage(e);
      SpareFits(old(kernel.entries[..]));
      if s >= 0 {
        assert Window(spare, s, 1);
        assert s in spare;
      }
    }

    /** The frame that a kernel mapping leads to. */
    function Target(s: nat): nat
      requires kernel.Valid() && s < ENTRIES
      reads kernel, kernel.entries
    { FrameOf(kernel.entries[s]) }

    /** memset of a mapped page */
    method Clear(s: nat)
      requires Valid() && s < ENTRIES && Target(s) < mem.Length
      modifies mem
      ensures Valid() && Abs() == old(Abs()).(mem := old(mem[..])[Target(s) := Zeros()])
    {
      hide FreeSet, FrameOf;
      mem[Target(s)] := Zeros();
    }

    /** memcpy between two mapped pages; there is nothing to write to behind
        memory. */
    method CopyPage(dst: nat, src: nat)
      requires Valid() && dst < ENTRIES && src < ENTRIES && Target(src) < mem.Length
      modifies mem
      ensures Valid()
      ensures Abs() == if Target(dst) < mem.Length
                       then old(Abs()).(mem := old(mem[..])[Target(dst) := old(mem[..])[Target(src)]]) else old(Abs())
    {
      hide FreeSet, FrameOf;
      if Target(dst) < mem.Length {
        mem[Target(dst)] := mem[Target(src)];
      }
    }

    /** Setting one entry of a mapped table */
    method Store(s: nat, i: nat, e: nat)
      requires Valid() && s < ENTRIES && Target(s) < mem.Length && i < WORDS
      modifies mem
      ensures Valid()
      ensures Abs() == old(Abs()).(mem := Put(old(mem[..]), Target(s), i, e))
    {
      hide FreeSet, FrameOf;
      mem[Target(s)] := mem[Target(s)][i := e];
    }

    /** The body of the loop in clone_page_table for a present entry e. The new
        frame is not checked: without one the entry leads nowhere. With fewer
        than two unused mappings the copy is given up and the frame lost. */
    method CopyEntry(e: nat, slot: nat, i: nat) returns (ok: bool, ghost f: nat, ghost got: set<nat>)
      requires Valid() && slot < ENTRIES && i < WORDS && kernel.entries[slot] != 0
      requires Target(slot) < mem.Length && Target(slot) !in Abs().free && FrameOf(e) < mem.Length
      modifies phys.mmTable, kernel.entries, mem
      ensures Valid() && (ok <==> |Unused(old(kernel.entries[..]))| >= 2)
      ensures got == (if old(Abs()).free == {} then {} else {f})
      ensures old(Abs()).free != {} ==> f in old(Abs()).free && f < mem.Length && f != old(Target(slot))
      ensures ok && old(Abs()).free != {} ==> Abs() == Filled(old(Abs()), e, old(Target(slot)), i, f)
      ensures ok && old(Abs()).free == {} ==> Abs() == Unfilled(old(Abs()), e, old(Target(slot)), i)
      ensures !ok ==> Abs() == old(Abs()).(free := old(Abs()).free - got)
    {
      hide FreeSet, FrameOf, Flags, Entry, Mapping, Below, Unused, Present, Zeros;
      ghost var m := Abs();
      var frame := Alloc();
      f, got := frame, if m.free == {} then {} else {frame};
      NoneUnused(m.kmap);
      var os := Map(Mapping(FrameOf(e)));
      if os == -1 {
        return false, f, got;
      }
      UnusedLess(m.kmap, os, Mapping(FrameOf(e)));
      NoneUnused(kernel.entries[..]);
      var ns := Map(Mapping(frame));
      if ns == -1 {
        Unmap(os);
        assert kernel.entries[..] == m.kmap;
        return false, f, got;
      }
      FillEntry(e, frame, slot, i, os, ns, m.kmap);
      ok := true;
    }

    /** Copy the page mapped at os to the frame mapped at ns, enter it, and undo
        both mappings. */
    method FillEntry(e: nat, frame: nat, slot: nat, i: nat, os: nat, ns: nat, ghost kmap: seq<nat>)
      requires Valid() && slot < ENTRIES && os < ENTRIES && ns < ENTRIES && |kmap| == ENTRIES && i < WORDS
      requires kmap[slot] != 0 && kmap[os] == 0 && ns != os && kmap[ns] == 0
      requires kernel.entries[..] == kmap[os := Mapping(FrameOf(e))][ns := Mapping(frame)]
      requires FrameOf(kmap[slot]) < mem.Length && FrameOf(e) < mem.Length && frame != FrameOf(kmap[slot])
      modifies kernel.entries, mem
      ensures Valid() && kernel.entries[..] == kmap
      ensures var t1 := FrameOf(kmap[slot]);
              var m1 := if frame < mem.Length then old(mem[..])[frame := old(mem[FrameOf(e)])] else old(mem[..]);
              mem[..] == Put(m1, t1, i, Entry(Flags(e), frame)) && Abs().free == old(Abs()).free
    {
      hide FreeSet, FrameOf, Flags, Entry, Mapping, Below;
      MappingTarget(frame);
      MappingTarget(FrameOf(e));
      assert kernel.entries[slot] == kmap[slot] by { assert kernel.entries[slot] == kernel.entries[..][slot]; }
      assert kernel.entries[os] == Mapping(FrameOf(e)) && kernel.entries[ns] == Mapping(frame);
      CopyPage(ns, os);
      Store(slot, i, Entry(Flags(e), frame));
      Unmap(os);
      Unmap(ns);
      assert kernel.entries[..] == kmap;
    }

    /** One round of the loop in clone_page_table; false when it gives up, with
        everything undone but the frame of the page. */
    method CloneRound(slot: nat, t1: nat, slot1: nat, i: nat, ghost m0: Memory, ghost t0: nat, ghost own: set<nat>)
      returns (ok: bool, ghost own': set<nat>)
      requires Valid() && Shape(m0) && InUse(m0, t0) && m0.free != {} && i < WORDS && t1 < phys.limit
      requires slot < ENTRIES && m0.kmap[slot] != 0 && FrameOf(m0.kmap[slot]) == t0
      requires Copying(m0, Abs(), t0, t1, slot1, i, own)
      requires |Unused(m0.kmap)| < 3 ==> CountPresent(m0.mem[t0], i) == 0
      modifies phys.mmTable, kernel.entries, mem
      ensures Valid()
      ensures ok ==> Copying(m0, Abs(), t0, t1, slot1, i + 1, own')
      ensures ok ==> (|Unused(m0.kmap)| < 3 ==> CountPresent(m0.mem[t0], i + 1) == 0)
      ensures !ok ==> |Unused(m0.kmap)| < 3 && CountPresent(m0.mem[t0], WORDS) > 0
      ensures !ok ==> Lost(m0, Abs(), own') && |own'| == if |m0.free| >= 2 then 1 else 0
    {
      hide FreeSet, FrameOf, Flags, Entry, Mapping, Below, Unused, CountPresent, TableCopied, Same, Filled, Unfilled,
        Present, Lost;
      ghost var m := Abs();
      CopyingReads(m0, m, t0, t1, slot1, i, own, slot);
      CopyingSlots(m0, m, t0, t1, slot1, i, own);
      CountNext(m0.mem[t0], i);
      hide Copying;
      var e := mem[Target(slot)][i];
      if !Present(e) {
        CopyingSkip(m0, m, t0, t1, slot1, i, own);
        return true, own;
      }
      ghost var f, got;
      ok, f, got := CopyEntry(e, slot1, i);
      if !ok {
        CountBefore(m0.mem[t0], i, WORDS);
        Unmap(slot1);
        Release(t1);
        TableLost(m0, m, Abs(), t0, t1, slot1, i, own, got);
        return false, got;
      }
      own' := own + got;
      if m.free == {} {
        CopyingShort(m0, m, t0, t1, slot1, i, own);
        assert own' == own;
      } else {
        CopyingStep(m0, m, t0, t1, slot1, i, own, f);
      }
    }

    /** The start of clone_page_table and of clone_page_directory: a cleared
        frame, mapped at s; f is NOWHERE if there was no frame or no mapping. */
    method NewTable() returns (f: nat, s: nat)
      requires Valid()
      modifies phys.mmTable, kernel.entries, mem
      ensures Valid() && (f == NOWHERE <==> old(Abs()).free == {} || Unused(old(kernel.entries[..])) == {})
      ensures f == NOWHERE ==> Abs() == old(Abs())
      ensures f != NOWHERE ==>
                && f in old(Abs()).free && f < phys.limit && f < mem.Length
                && s < ENTRIES && old(kernel.entries[..])[s] == 0
                && Abs() == Memory(old(Abs()).free - {f}, old(kernel.entries[..])[s := Mapping(f)],
                                   old(mem[..])[f := Zeros()])
    {
      hide FreeSet, FrameOf, Mapping, Below, Unused, Zeros;
      ghost var m0 := Abs();
      s := 0;
      f := Alloc();
      if f == NOWHERE { return; }
      var r := Map(Mapping(f));
      if r == -1 {
        Release(f);
        assert Abs().free == m0.free;
        return NOWHERE, 0;
      }
      s := r;
      MappingTarget(f);
      Clear(s);
    }

    /** clone_page_table on the table mapped at slot: the frame of the copy and
        where that is left mapped, or -1. */
    method CloneTable(slot: nat) returns (t: int, slot1: nat, ghost own: set<nat>)
      requires Valid() && slot < ENTRIES && kernel.entries[slot] != 0 && InUse(Abs(), Target(slot))
      modifies phys.mmTable, kernel.entries, mem
      ensures Valid() && -1 <= t
      ensures t >= 0 <==> Affordable(|old(Abs()).free|, |Unused(old(kernel.entries[..]))|,
                                     CountPresent(old(mem[Target(slot)]), WORDS))
      ensures t >= 0 ==> Copying(old(Abs()), Abs(), old(Target(slot)), t, slot1, WORDS, own)
      ensures t == -1 ==> Lost(old(Abs()), Abs(), own)
      ensures t == -1 ==> |own| == if |old(Abs()).free| >= 2 && Unused(old(kernel.entries[..])) != {} then 1 else 0
    {
      hide FreeSet, FrameOf, Flags, Entry, Mapping, Below, Unused, CountPresent, Copying, Same, Present, Lost;
      ghost var m0 := Abs();
      ghost var t0 := Target(slot);
      NoneUnused(m0.kmap);
      LostNone(m0);
      var t1;
      t1, slot1 := NewTable();
      own := {};
      if t1 == NOWHERE {
        return -1, slot1, own;
      }
      own := {t1};
      CopyingStarts(m0, t0, t1, slot1);
      CountNone(m0.mem[t0]);
      var i := 0;
      while i < WORDS
        invariant i <= WORDS && Valid() && Copying(m0, Abs(), t0, t1, slot1, i, own)
        invariant |Unused(m0.kmap)| < 3 ==> CountPresent(m0.mem[t0], i) == 0
      {
        var ok;
        ok, own := CloneRound(slot, t1, slot1, i, m0, t0, own);
        if !ok {
          return -1, slot1, own;
        }
        i := i + 1;
      }
      t := t1;
    }

    /** Cloning the table of one directory entry e into entry i of the new
        directory mapped at slot1. */
    method CloneEntry(e: nat, slot1: nat, i: nat)
      returns (ok: bool, ghost t1: nat, ghost own: set<nat>, ghost mid: seq<Page>)
      requires Valid() && slot1 < ENTRIES && i < WORDS && kernel.entries[slot1] != 0
      requires Target(slot1) < mem.Length && Target(slot1) !in Abs().free && InUse(Abs(), FrameOf(e))
      modifies phys.mmTable, kernel.entries, mem
      ensures Valid()
      ensures ok <==> Affordable(|old(Abs()).free|, |Unused(old(kernel.entries[..]))| - 1,
                                 CountPresent(old(mem[FrameOf(e)]), WORDS))
      ensures ok ==> Entered(old(Abs()), Abs(), old(Target(slot1)), i, e, t1, own, mid)
      ensures !ok ==> Lost(old(Abs()), Abs(), own)
      ensures !ok ==> |own| == if |old(Abs()).free| >= 2 && |Unused(old(kernel.entries[..]))| >= 2 then 1 else 0
    {
      hide FreeSet, FrameOf, Flags, Entry, Mapping, Below, Unused, CountPresent, Present, Copying, Entered, Put, Lost;
      ghost var m := Abs();
      ghost var d1 := Target(slot1);
      t1, own, mid := 0, {}, m.mem;
      NoneUnused(m.kmap);
      LostNone(m);
      var ts := Map(Mapping(FrameOf(e)));
      if ts == -1 {
        return false, t1, own, mid;
      }
      UnusedLess(m.kmap, ts, Mapping(FrameOf(e)));
      MappingTarget(FrameOf(e));
      ghost var m1 := Abs();
      NoneUnused(m1.kmap);
      var t, ns;
      t, ns, own := CloneTable(ts);
      ghost var m2 := Abs();
      if t == -1 {
        Unmap(ts);
        LostUnmapped(m, m1, m2, Abs(), ts, own);
        return false, t1, own, mid;
      }
      t1, mid := t, m2.mem;
      CopyingLeaves(m, m1, m2, ts, ns, d1, slot1, FrameOf(e), t, own);
      Unmap(ts);
      Unmap(ns);
      Store(slot1, i, Entry(Flags(e), t));
      EnteredBy(m, m1, m2, Abs(), ns, d1, i, e, t1, own);
      ok := true;
    }

    /** One round of the loop in clone_page_directory: false when it panics or
        gives up, then with everything undone but the frames of tables and
        pages. */
    method CloneNext(slot: nat, d1: nat, slot1: nat, i: nat, ghost m0: Memory, ghost d0: nat,
                     ghost own: seq<set<nat>>, ghost all: set<nat>)
      returns (ok: bool, panic: bool, ghost own': seq<set<nat>>, ghost all': set<nat>)
      requires Valid() && Shape(m0) && DirInUse(m0, d0) && m0.free != {} && i < WORDS && d1 < phys.limit
      requires slot < ENTRIES && m0.kmap[slot] != 0 && FrameOf(m0.kmap[slot]) == d0
      requires Cloning(m0, Abs(), d0, d1, slot1, i, own, all)
      modifies phys.mmTable, kernel.entries, mem
      ensures Valid() && (panic <==> Panics(i, m0.mem[d0][i])) && (ok <==> !panic && Fits(m0, d0, i))
      ensures ok ==> Cloning(m0, Abs(), d0, d1, slot1, i + 1, own', all')
      ensures !ok && !panic ==> Lost(m0, Abs(), all') && |all'| == LostFrames(m0, d0, i)
    {
      hide FreeSet, FrameOf, Flags, Entry, Mapping, Below, Unused, Need, Cloned, Panics, Present, DirInUse, InUse,
        Entered, CountPresent, Same, Lost;
      ghost var m := Abs();
      CloningReads(m0, m, d0, d1, slot1, i, own, all, slot);
      CloningSlots(m0, m, d0, d1, slot1, i, own, all);
      hide Cloning;
      own', all' := own, all;
      var e := mem[Target(slot)][i];
      if Panics(i, e) {
        Apart(i, e);
        return false, true, own', all';
      }
      panic := false;
      if !Cloned(i, e) {
        if Present(e) {
          Store(slot1, i, e);
        }
        CloningPlain(m0, m, Abs(), d0, d1, slot1, i, own, all);
        return true, false, own + [{}], all;
      }
      CloningTables(m0, m, d0, d1, slot1, i, own, all);
      ghost var t1, o, mid;
      ok, t1, o, mid := CloneEntry(e, slot1, i);
      if !ok {
        ghost var m1 := Abs();
        Unmap(slot1);
        Release(d1);
        DirLost(m0, m, m1, Abs(), d0, d1, slot1, i, own, all, o);
        return false, false, own, all - {d1} + o;
      }
      CloningTable(m0, m, Abs(), d0, d1, slot1, i, own, all, t1, o, mid);
      return true, false, own + [o], all + o;
    }

    /** clone_page_directory on the directory mapped at slot: the frame of the
        copy and the one mapping that is left, or -1; `stop` is the first entry
        that makes it panic or give up. */
    method CloneDirectory(slot: nat)
      returns (d: int, panic: bool, slot1: nat, ghost own: seq<set<nat>>, ghost all: set<nat>, ghost stop: nat)
      requires Valid() && slot < ENTRIES && kernel.entries[slot] != 0 && DirInUse(Abs(), Target(slot))
      modifies phys.mmTable, kernel.entries, mem
      ensures Valid() && -1 <= d && stop <= WORDS
      ensures var m0, d0 := old(Abs()), old(Target(slot));
              if m0.free == {} || Unused(m0.kmap) == {} then d == -1 && !panic && Abs() == m0
              else
                && (forall i: nat :: i < stop ==> Passes(m0, d0, i))
                && (d >= 0 <==> stop == WORDS)
                && (panic <==> stop < WORDS && Panics(stop, m0.mem[d0][stop]))
                && (d == -1 && !panic ==>
                      !Fits(m0, d0, stop) && Lost(m0, Abs(), all) && |all| == LostFrames(m0, d0, stop))
                && (d >= 0 ==> Cloning(m0, Abs(), d0, d, slot1, WORDS, own, all))
    {
      hide FreeSet, FrameOf, Mapping, Below, Unused, Need, Cloning, Cloned, Panics, Fits, Present, DirInUse, InUse,
        Lost, LostFrames, Zeros;
      ghost var m0 := Abs();
      ghost var d0 := Target(slot);
      own, all, stop, panic := [], {}, 0, false;
      var d1;
      d1, slot1 := NewTable();
      if d1 == NOWHERE {
        return -1, panic, slot1, own, all, stop;
      }
      own, all := [], {d1};
      CloningStarts(m0, d0, d1, slot1);
      DirBound(m0, d0);
      var i := 0;
      while i < WORDS
        invariant i <= WORDS && Valid() && DirInUse(m0, d0) && Cloning(m0, Abs(), d0, d1, slot1, i, own, all)
        invariant stop == i && !panic && forall j: nat :: j < i ==> Passes(m0, d0, j)
      {
        var ok;
        ok, panic, own, all := CloneNext(slot, d1, slot1, i, m0, d0, own, all);
        if !ok {
          return -1, panic, slot1, own, all, stop;
        }
        i := i + 1;
        stop := i;
      }
      d := d1;
    }

    method Unmap(s: nat)
      requires Valid() && s < ENTRIES
      modifies kernel.entries
      ensures Valid() && Abs() == old(Abs()).(kmap := old(kernel.entries[..])[s := 0])
    {
      hide FreeSet;
      kernel.Unmap(s);
    }
  }

  // ----- directories

  function Put(m: seq<Page>, d: nat, n: nat, e: nat): seq<Page>
    requires d < |m| && n < |m[d]|
  {
    var p: Page := m[d];
    m[d := p[n := e]]
  }

  /** Kernel entries are shared, except the kernel stack. */
  predicate Shared(i: nat) { i >= KERNEL_BEGIN && i != KERNEL_STACK }

  predicate Cloned(i: nat, e: nat) { Present(e) && !Shared(i) && !BigPage(e) }

  /** A 4 MiB page outside the shared part. */
  predicate Panics(i: nat, e: nat) { Present(e) && !Shared(i) && BigPage(e) }

  lemma Apart(i: nat, e: nat)
    requires Panics(i, e)
    ensures !Cloned(i, e)
  {
  }

  ghost predicate EntryCopied(m0: seq<Page>, m1: seq<Page>, i: nat, e: nat, e': nat, own: set<nat>) {
    if !Cloned(i, e) then e' == (if Present(e) then e else 0) && own == {}
    else Flags(e') == Flags(e) && TableCopied(m0, m1, FrameOf(e), FrameOf(e'), WORDS, own)
  }

  /** The first n entries of directory d1 are copies of those of d0, each with
      frames of its own; all is the frame of d1 and all those frames. */
  ghost predicate DirCopied(m0: seq<Page>, m1: seq<Page>, d0: nat, d1: nat, n: nat, own: seq<set<nat>>, all: set<nat>) {
    && d0 < |m0| && d1 < |m1| && |m0[d0]| == WORDS == |m1[d1]| && n <= WORDS && |own| == n
    && (forall i: nat :: i < n ==> EntryCopied(m0, m1, i, m0[d0][i], m1[d1][i], own[i]))
    && (forall i: nat :: i < n ==> own[i] <= all - {d1})
    && (forall i: nat, j: nat :: i < j < n ==> own[i] !! own[j])
    && (forall k :: n <= k < WORDS ==> m1[d1][k] == 0)
    && d1 in all && (forall x :: x in all ==> x == d1 || exists i: nat :: i < n && x in own[i])
  }

  /** Every table that has to be cloned is in use. */
  ghost predicate DirInUse(m: Memory, d: nat) {
    && d < |m.mem| && d !in m.free && |m.mem[d]| == WORDS
    && forall i: nat :: i < WORDS && Cloned(i, m.mem[d][i]) ==> InUse(m, FrameOf(m.mem[d][i]))
  }

  lemma DirBound(m: Memory, d: nat)
    requires DirInUse(m, d)
    ensures d < |m.mem| && |m.mem[d]| == WORDS
  {
  }

  /** Pages of the table that entry i leads to, if it is to be cloned. */
  ghost function Pages(m: Memory, d: nat, i: nat): nat
    requires DirInUse(m, d) && i < WORDS
  {
    if Cloned(i, m.mem[d][i]) then CountPresent(m.mem[FrameOf(m.mem[d][i])], WORDS) else 0
  }

  /** Frames that cloning the first n entries takes. */
  ghost function Need(m: Memory, d: nat, n: nat): nat
    requires DirInUse(m, d) && n <= WORDS
  {
    if n == 0 then 1
    else Need(m, d, n - 1) + if Cloned(n - 1, m.mem[d][n - 1]) then Pages(m, d, n - 1) + 1 else 0
  }

  /** Entry i does not make the copy fail: there is a frame for its table, and
      three unused mappings besides those of the directory and of the table, or
      one if the table is empty. */
  ghost predicate Fits(m: Memory, d: nat, i: nat)
    requires DirInUse(m, d) && i < WORDS
  {
    Cloned(i, m.mem[d][i]) ==> Affordable(|m.free| - Need(m, d, i), |Unused(m.kmap)| - 2, Pages(m, d, i))
  }

  ghost predicate Passes(m: Memory, d: nat, i: nat)
    requires DirInUse(m, d) && i < WORDS
  {
    Fits(m, d, i) && !Panics(i, m.mem[d][i])
  }

  /** Frames lost when the copy is given up at entry i: all that were taken but
      the one of the directory, and one for the page at hand. */
  ghost function LostFrames(m: Memory, d: nat, i: nat): nat
    requires DirInUse(m, d) && i < WORDS && m.free != {}
  {
    NeedSome(m, d, i);
    Min(Need(m, d, i), |m.free|) - 1 + if |m.free| - Need(m, d, i) >= 2 && |Unused(m.kmap)| >= 3 then 1 else 0
  }

  lemma {:induction false} NeedSome(m: Memory, d: nat, n: nat)
    requires DirInUse(m, d) && n <= WORDS
    ensures Need(m, d, n) >= 1
    decreases n
  {
    hide Cloned, InUse, FrameOf;
    if n > 0 { NeedSome(m, d, n - 1); }
  }

  /** Every table among the first n was copied in full; or one was not. */
  ghost predicate Whole(m: Memory, d: nat, own: seq<set<nat>>, n: nat)
    requires DirInUse(m, d) && n <= WORDS && |own| == n
  {
    forall i: nat :: i < n && Cloned(i, m.mem[d][i]) ==> |own[i]| == Pages(m, d, i) + 1
  }

  ghost predicate Short(m: Memory, d: nat, own: seq<set<nat>>, n: nat)
    requires DirInUse(m, d) && n <= WORDS && |own| == n
  {
    exists i: nat :: i < n && Cloned(i, m.mem[d][i]) && |own[i]| <= Pages(m, d, i)
  }

  /** The frames taken are those needed, or all there were. */
  ghost predicate Counted(m: Memory, d: nat, own: seq<set<nat>>, all: set<nat>, n: nat)
    requires DirInUse(m, d)
  {
    && n <= WORDS && |own| == n && |all| == Min(Need(m, d, n), |m.free|)
    && (if Need(m, d, n) <= |m.free| then Whole(m, d, own, n) else Short(m, d, own, n))
  }

  ghost predicate Cloning(m0: Memory, m: Memory, d0: nat, d1: nat, slot: nat, n: nat, own: seq<set<nat>>, all: set<nat>)
    requires DirInUse(m0, d0)
  {
    && slot < |m0.kmap| && m0.kmap[slot] == 0 && m.kmap == m0.kmap[slot := Mapping(d1)]
    && Shape(m) && all <= m0.free && m.free == m0.free - all
    && DirCopied(m0.mem, m.mem, d0, d1, n, own, all) && Same(m0.mem, m.mem, all)
    && Counted(m0, d0, own, all, n)
    && (forall i: nat :: i < n ==> !Panics(i, m0.mem[d0][i]))
  }

  /** A copy made from memory that still agrees with m0 on the table and its
      pages is a copy of what m0 held. */
  lemma TableFrom(m0: Memory, m: seq<Page>, m': seq<Page>, t0: nat, t1: nat, own: set<nat>, all: set<nat>)
    requires TableCopied(m, m', t0, t1, WORDS, own) && Same(m0.mem, m, all) && all <= m0.free && InUse(m0, t0)
    ensures TableCopied(m0.mem, m', t0, t1, WORDS, own)
  {
    hide Flags, FrameOf, Present, CountPresent, Entry;
    assert m[t0] == m0.mem[t0];
    forall k: nat | k < WORDS
      ensures Carried(m0.mem, m', m0.mem[t0], k, m'[t1][k], own, t1)
    {
      assert Carried(m, m', m[t0], k, m'[t1][k], own, t1);
    }
  }

  lemma EntryStays(m0: seq<Page>, m: seq<Page>, m': seq<Page>, i: nat, e: nat, e': nat, own: set<nat>, other: set<nat>)
    requires EntryCopied(m0, m, i, e, e', own) && Same(m, m', other) && own !! other
    ensures EntryCopied(m0, m', i, e, e', own)
  {
    hide TableCopied, Flags, FrameOf, Present;
    if Cloned(i, e) {
      TableStays(m0, m, m', FrameOf(e), FrameOf(e'), own, other);
    }
  }

  /** Entering a copied table, or a shared or absent entry, at n. */
  lemma DirStep(m0: Memory, m: Memory, m': seq<Page>, d0: nat, d1: nat, n: nat, own: seq<set<nat>>, all: set<nat>,
                e': nat, o: set<nat>)
    requires DirInUse(m0, d0) && DirCopied(m0.mem, m.mem, d0, d1, n, own, all) && n < WORDS
    requires Same(m.mem, m', o) && o !! all && EntryCopied(m0.mem, m', n, m0.mem[d0][n], e', o)
    ensures d1 < |m'| && |m'[d1]| == WORDS
    ensures DirCopied(m0.mem, Put(m', d1, n, e'), d0, d1, n + 1, own + [o], all + o)
  {
    assert m'[d1] == m.mem[d1];
    var m2 := Put(m', d1, n, e');
    var own', all' := own + [o], all + o;
    hide Present, Shared, Flags, FrameOf, TableCopied;
    forall i: nat | i < n + 1
      ensures EntryCopied(m0.mem, m2, i, m0.mem[d0][i], m2[d1][i], own'[i])
    {
      if i < n {
        assert own[i] <= all - {d1};
        assert Same(m.mem, m2, o + {d1});
        EntryStays(m0.mem, m.mem, m2, i, m0.mem[d0][i], m.mem[d1][i], own[i], o + {d1});
      } else {
        assert Same(m', m2, {d1});
        EntryStays(m0.mem, m', m2, n, m0.mem[d0][n], e', o, {d1});
      }
    }
    DirOwners(own, o, d1, all, n);
  }

  lemma DirOwners(own: seq<set<nat>>, o: set<nat>, d1: nat, all: set<nat>, n: nat)
    requires |own| == n && o !! all && d1 in all
    requires forall i: nat :: i < n ==> own[i] <= all - {d1}
    requires forall i: nat, j: nat :: i < j < n ==> own[i] !! own[j]
    requires forall x :: x in all ==> x == d1 || exists i: nat :: i < n && x in own[i]
    ensures var own', all' := own + [o], all + o;
            && (forall i: nat :: i < n + 1 ==> own'[i] <= all' - {d1})
            && (forall i: nat, j: nat :: i < j < n + 1 ==> own'[i] !! own'[j])
            && (forall x :: x in all' ==> x == d1 || exists i: nat :: i < n + 1 && x in own'[i])
  {
    var own', all' := own + [o], all + o;
    forall x | x in all'
      ensures x == d1 || exists i: nat :: i < n + 1 && x in own'[i]
    {
      if x in o {
        assert x in own'[n];
      } else if x != d1 {
        var i: nat :| i < n && x in own[i];
        assert x in own'[i];
      }
    }
  }

  lemma MappingTarget(frame: nat)
    ensures FrameOf(Mapping(frame)) == frame
  {
  }

  /** The effect of CloneEntry: mid is memory when the table has been copied and
      the directory not yet changed. */
  ghost predicate Entered(m: Memory, m': Memory, d1: nat, i: nat, e: nat, t1: nat, own: set<nat>, mid: seq<Page>) {
    && own <= m.free && m'.free == m.free - own && m'.kmap == m.kmap
    && FrameOf(e) < |m.mem| && |m.mem[FrameOf(e)]| == WORDS
    && |own| == Min(CountPresent(m.mem[FrameOf(e)], WORDS) + 1, |m.free|)
    && TableCopied(m.mem, mid, FrameOf(e), t1, WORDS, own) && Same(m.mem, mid, own)
    && d1 < |mid| && |mid[d1]| == WORDS && i < WORDS && m'.mem == Put(mid, d1, i, Entry(Flags(e), t1))
  }

  /** After a table was copied: undoing the two temporary mappings leaves the
      kernel page table as it was, and the new directory is untouched. */
  lemma CopyingLeaves(m: Memory, m1: Memory, m2: Memory, ts: nat, ns: nat, d1: nat, slot1: nat, t0: nat, t1: nat,
                      own: set<nat>)
    requires ts < |m.kmap| && m.kmap[ts] == 0 && m1 == m.(kmap := m.kmap[ts := Mapping(t0)])
    requires Copying(m1, m2, t0, t1, ns, WORDS, own)
    requires d1 < |m.mem| && d1 !in m.free && |m.mem[d1]| == WORDS && slot1 < |m.kmap| && m.kmap[slot1] != 0
    ensures ts < |m2.kmap| && ns < |m2.kmap| && m2.kmap[ts := 0][ns := 0] == m.kmap
    ensures d1 < |m2.mem| && |m2.mem[d1]| == WORDS && m2.kmap[slot1] == m.kmap[slot1]
  {
    hide FrameOf, TableCopied;
    assert ns != ts;
    assert m2.kmap[ts := 0][ns := 0] == m.kmap;
  }

  lemma EnteredBy(m: Memory, m1: Memory, m2: Memory, m3: Memory, ns: nat, d1: nat, i: nat, e: nat, t1: nat,
                  own: set<nat>)
    requires m1 == m.(kmap := m1.kmap) && Copying(m1, m2, FrameOf(e), t1, ns, WORDS, own)
    requires d1 < |m2.mem| && |m2.mem[d1]| == WORDS && i < WORDS
    requires m3 == Memory(m2.free, m.kmap, Put(m2.mem, d1, i, Entry(Flags(e), t1)))
    ensures Entered(m, m3, d1, i, e, t1, own, m2.mem)
  {
    hide FrameOf, Flags, Entry, Present, CountPresent, Put;
  }

  lemma LostUnmapped(m: Memory, m1: Memory, m2: Memory, m3: Memory, ts: nat, own: set<nat>)
    requires ts < |m.kmap| && m.kmap[ts] == 0 && |m1.kmap| == |m.kmap| && m1 == m.(kmap := m.kmap[ts := m1.kmap[ts]])
    requires Lost(m1, m2, own) && m3 == m2.(kmap := m2.kmap[ts := 0])
    ensures Lost(m, m3, own)
  {
    assert m3.kmap == m.kmap;
  }

  lemma CloningStarts(m0: Memory, d0: nat, d1: nat, slot: nat)
    requires Shape(m0) && DirInUse(m0, d0) && d1 in m0.free && slot < ENTRIES && m0.kmap[slot] == 0
    ensures var m := Memory(m0.free - {d1}, m0.kmap[slot := Mapping(d1)], m0.mem[d1 := Zeros()]);
            Cloning(m0, m, d0, d1, slot, 0, [], {d1})
  {
    hide InUse, Cloned, FrameOf, EntryCopied;
    assert |m0.free| >= 1;
  }

  lemma CloningReads(m0: Memory, m: Memory, d0: nat, d1: nat, slot1: nat, n: nat, own: seq<set<nat>>, all: set<nat>,
                     slot: nat)
    requires DirInUse(m0, d0) && Cloning(m0, m, d0, d1, slot1, n, own, all) && n < WORDS
    requires slot < |m0.kmap| && m0.kmap[slot] != 0 && FrameOf(m0.kmap[slot]) == d0
    ensures slot < |m.kmap| && FrameOf(m.kmap[slot]) == d0 && d0 < |m.mem| && m.mem[d0] == m0.mem[d0]
    ensures |m.mem[d0]| == WORDS
    ensures slot1 < |m.kmap| && m.kmap[slot1] != 0 && FrameOf(m.kmap[slot1]) == d1
    ensures d1 < |m.mem| && d1 !in m.free && |m.mem[d1]| == WORDS
  {
    MappingTarget(d1);
    hide FrameOf, InUse, Cloned, EntryCopied;
  }

  /** A table that is in use stays so, and as it was, while other frames fill. */
  lemma StillInUse(m0: Memory, m: Memory, t: nat, all: set<nat>)
    requires InUse(m0, t) && all <= m0.free && m.free == m0.free - all && Same(m0.mem, m.mem, all)
    ensures InUse(m, t) && m.mem[t] == m0.mem[t]
  {
    hide FrameOf, Present;
    assert m.mem[t] == m0.mem[t];
  }

  /** A directory being copied has taken one mapping. */
  lemma CloningSlots(m0: Memory, m: Memory, d0: nat, d1: nat, slot: nat, n: nat, own: seq<set<nat>>, all: set<nat>)
    requires DirInUse(m0, d0) && Cloning(m0, m, d0, d1, slot, n, own, all)
    ensures |Unused(m.kmap)| == |Unused(m0.kmap)| - 1
  {
    hide FrameOf, InUse, Cloned, DirCopied;
    UnusedLess(m0.kmap, slot, Mapping(d1));
  }

  /** The table to be cloned next is as it was, and so many frames are left. */
  lemma CloningTables(m0: Memory, m: Memory, d0: nat, d1: nat, slot: nat, n: nat, own: seq<set<nat>>, all: set<nat>)
    requires DirInUse(m0, d0) && Cloning(m0, m, d0, d1, slot, n, own, all) && n < WORDS && Cloned(n, m0.mem[d0][n])
    ensures FrameOf(m0.mem[d0][n]) < |m.mem| && InUse(m, FrameOf(m0.mem[d0][n]))
    ensures |m.mem[FrameOf(m0.mem[d0][n])]| == WORDS
    ensures CountPresent(m.mem[FrameOf(m0.mem[d0][n])], WORDS) == Pages(m0, d0, n)
    ensures |m.free| == |m0.free| - Min(Need(m0, d0, n), |m0.free|)
  {
    var e := m0.mem[d0][n];
    hide FrameOf, Cloned, CountPresent, Need, DirCopied;
    StillInUse(m0, m, FrameOf(e), all);
    Rest(m0.free, all);
  }

  lemma EntryIsWhole(m: Memory, d: nat, n: nat)
    requires DirInUse(m, d) && n < WORDS && Cloned(n, m.mem[d][n])
    ensures Need(m, d, n + 1) == Need(m, d, n) + Pages(m, d, n) + 1
    ensures InUse(m, FrameOf(m.mem[d][n])) && FrameOf(m.mem[d][n]) < |m.mem| && |m.mem[FrameOf(m.mem[d][n])]| == WORDS
    ensures Pages(m, d, n) == CountPresent(m.mem[FrameOf(m.mem[d][n])], WORDS)
  {
    hide FrameOf, Cloned, CountPresent;
  }

  /** Counting one more table. */
  lemma CountedTable(m: Memory, d: nat, own: seq<set<nat>>, all: set<nat>, n: nat, o: set<nat>)
    requires DirInUse(m, d) && Counted(m, d, own, all, n) && n < WORDS && Cloned(n, m.mem[d][n])
    requires Need(m, d, n) < |m.free|
    requires o !! all && |o| == Min(Pages(m, d, n) + 1, |m.free| - Need(m, d, n))
    ensures Counted(m, d, own + [o], all + o, n + 1)
  {
    hide DirInUse, Cloned, Pages, Need;
    EntryIsWhole(m, d, n);
    var own' := own + [o];
    assert |all + o| == |all| + |o|;
    if Need(m, d, n + 1) > |m.free| {
      assert |own'[n]| <= Pages(m, d, n);
    }
  }

  /** Counting one more entry that has no table. */
  lemma CountedPlain(m: Memory, d: nat, own: seq<set<nat>>, all: set<nat>, n: nat)
    requires DirInUse(m, d) && Counted(m, d, own, all, n) && n < WORDS && !Cloned(n, m.mem[d][n])
    ensures Counted(m, d, own + [{}], all, n + 1)
  {
    var own' := own + [{}];
    assert Need(m, d, n + 1) == Need(m, d, n);
    hide DirInUse, Cloned, Pages, Need;
    if Need(m, d, n) > |m.free| {
      var i: nat :| i < n && Cloned(i, m.mem[d][i]) && |own[i]| <= Pages(m, d, i);
      assert |own'[i]| <= Pages(m, d, i);
    }
  }

  /** Giving up the directory: its frame goes back, the others do not. */
  lemma DirLost(m0: Memory, m: Memory, m1: Memory, m2: Memory, d0: nat, d1: nat, slot: nat, n: nat,
                own: seq<set<nat>>, all: set<nat>, o: set<nat>)
    requires DirInUse(m0, d0) && Cloning(m0, m, d0, d1, slot, n, own, all) && n < WORDS && m0.free != {}
    requires Lost(m, m1, o) && m2 == Memory(m1.free + {d1}, m1.kmap[slot := 0], m1.mem)
    requires |o| == if |m.free| >= 2 && |Unused(m.kmap)| >= 2 then 1 else 0
    ensures Lost(m0, m2, all - {d1} + o) && |all - {d1} + o| == LostFrames(m0, d0, n)
  {
    hide FrameOf, InUse, Cloned, EntryCopied, Need, Mapping, DirInUse, Unused, Whole, Short;
    assert d1 in all;
    Rest(m0.free, all);
    Rest(all, {d1});
    assert (all - {d1}) !! o;
    assert |all - {d1} + o| == |all - {d1}| + |o|;
    assert m2.kmap == m0.kmap;
    assert m2.free == m0.free - (all - {d1} + o);
    CloningSlots(m0, m, d0, d1, slot, n, own, all);
    NeedSome(m0, d0, n);
    assert Same(m0.mem, m2.mem, m0.free);
  }

  lemma EnteredCopy(m0: Memory, m: Memory, m': Memory, d1: nat, n: nat, e: nat, all: set<nat>, t1: nat, o: set<nat>,
                    mid: seq<Page>)
    requires InUse(m0, FrameOf(e)) && all <= m0.free && m.free == m0.free - all && Same(m0.mem, m.mem, all)
    requires Cloned(n, e) && Entered(m, m', d1, n, e, t1, o, mid)
    ensures EntryCopied(m0.mem, mid, n, e, Entry(Flags(e), t1), o)
    ensures |m0.mem[FrameOf(e)]| == WORDS && |o| == Min(CountPresent(m0.mem[FrameOf(e)], WORDS) + 1, |m.free|)
  {
    FlagsPresent(e);
    EntryParts(Flags(e), t1);
    hide FrameOf, Flags, Entry, InUse, TableCopied, Same, Put, Cloned, CountPresent;
    StillInUse(m0, m, FrameOf(e), all);
    TableFrom(m0, m.mem, mid, FrameOf(e), t1, o, all);
  }

  lemma SameJoin(m0: seq<Page>, m: seq<Page>, mid: seq<Page>, d1: nat, n: nat, e: nat, all: set<nat>, o: set<nat>)
    requires Same(m0, m, all) && Same(m, mid, o) && d1 in all && d1 < |mid| && n < |mid[d1]|
    ensures Same(m0, Put(mid, d1, n, e), all + o)
  {
  }

  lemma CloningTable(m0: Memory, m: Memory, m': Memory, d0: nat, d1: nat, slot: nat, n: nat, own: seq<set<nat>>,
                     all: set<nat>,
                     t1: nat, o: set<nat>, mid: seq<Page>)
    requires DirInUse(m0, d0) && Cloning(m0, m, d0, d1, slot, n, own, all) && n < WORDS && Cloned(n, m0.mem[d0][n])
    requires Shape(m') && Entered(m, m', d1, n, m0.mem[d0][n], t1, o, mid) && m.free != {}
    ensures Cloning(m0, m', d0, d1, slot, n + 1, own + [o], all + o)
  {
    var e := m0.mem[d0][n];
    NotPanics(n, e);
    hide Cloning, DirInUse, Entered, Cloned, Panics, DirCopied, Same, Counted, Put, Entry, Flags, FrameOf, Need,
      Pages, Shape;
    CloningFacts(m0, m, d0, d1, slot, n, own, all);
    EnteredFacts(m, m', d1, n, e, t1, o, mid);
    TableJoins(m0, m, m', d0, d1, n, own, all, t1, o, mid);
    TableCounts(m0, m, m', d0, d1, slot, n, own, all, t1, o, mid);
    CloningFrom(m0, m', d0, d1, slot, n, own + [o], all + o);
  }

  /** The copied table takes its place in the directory. */
  lemma TableJoins(m0: Memory, m: Memory, m': Memory, d0: nat, d1: nat, n: nat, own: seq<set<nat>>, all: set<nat>,
                   t1: nat, o: set<nat>, mid: seq<Page>)
    requires DirInUse(m0, d0) && n < WORDS && Cloned(n, m0.mem[d0][n])
    requires DirCopied(m0.mem, m.mem, d0, d1, n, own, all) && Same(m0.mem, m.mem, all)
    requires all <= m0.free && m.free == m0.free - all && d1 in all
    requires Entered(m, m', d1, n, m0.mem[d0][n], t1, o, mid)
    ensures DirCopied(m0.mem, m'.mem, d0, d1, n + 1, own + [o], all + o) && Same(m0.mem, m'.mem, all + o)
  {
    var e := m0.mem[d0][n];
    EntryIsWhole(m0, d0, n);
    EnteredFacts(m, m', d1, n, e, t1, o, mid);
    hide DirInUse, Entered, Cloned, DirCopied, Same, Put, Entry, Flags, FrameOf, EntryCopied, Need, Pages;
    EnteredCopy(m0, m, m', d1, n, e, all, t1, o, mid);
    DirStep(m0, m, mid, d0, d1, n, own, all, Entry(Flags(e), t1), o);
    SameJoin(m0.mem, m.mem, mid, d1, n, Entry(Flags(e), t1), all, o);
  }

  lemma TableCounts(m0: Memory, m: Memory, m': Memory, d0: nat, d1: nat, slot: nat, n: nat, own: seq<set<nat>>,
                    all: set<nat>, t1: nat, o: set<nat>, mid: seq<Page>)
    requires DirInUse(m0, d0) && Cloning(m0, m, d0, d1, slot, n, own, all) && n < WORDS && Cloned(n, m0.mem[d0][n])
    requires Entered(m, m', d1, n, m0.mem[d0][n], t1, o, mid) && m.free != {}
    ensures Counted(m0, d0, own + [o], all + o, n + 1)
  {
    hide Cloning, DirInUse, Entered, Cloned, Counted, DirCopied, Same, FrameOf, Need, Pages, CountPresent, InUse, Min;
    assert Need(m0, d0, n) < |m0.free| && |m.free| == |m0.free| - Need(m0, d0, n) by {
      CloningTables(m0, m, d0, d1, slot, n, own, all);
      FreeLeft(m.free, Need(m0, d0, n), |m0.free|);
    }
    assert o !! all && |o| == Min(Pages(m0, d0, n) + 1, |m.free|) by {
      CloningFacts(m0, m, d0, d1, slot, n, own, all);
      TableTakes(m0, m, m', d0, d1, n, all, t1, o, mid);
    }
    assert Counted(m0, d0, own, all, n) by { CloningFacts(m0, m, d0, d1, slot, n, own, all); }
    CountedTable(m0, d0, own, all, n, o);
  }

  lemma FreeLeft(free: set<nat>, need: nat, total: nat)
    requires free != {} && |free| == total - Min(need, total)
    ensures need < total && |free| == total - need
  {
  }

  lemma TableTakes(m0: Memory, m: Memory, m': Memory, d0: nat, d1: nat, n: nat, all: set<nat>, t1: nat, o: set<nat>,
                   mid: seq<Page>)
    requires DirInUse(m0, d0) && n < WORDS && Cloned(n, m0.mem[d0][n])
    requires Same(m0.mem, m.mem, all) && all <= m0.free && m.free == m0.free - all
    requires Entered(m, m', d1, n, m0.mem[d0][n], t1, o, mid)
    ensures o !! all && |o| == Min(Pages(m0, d0, n) + 1, |m.free|)
  {
    var e := m0.mem[d0][n];
    hide DirInUse, Entered, Cloned, FrameOf, Need, Pages, CountPresent, InUse, Same, Put, Entry, Flags, EntryCopied;
    EntryIsWhole(m0, d0, n);
    EnteredCopy(m0, m, m', d1, n, e, all, t1, o, mid);
    assert o !! all by {
      EnteredFacts(m, m', d1, n, e, t1, o, mid);
      TakenApart(m0.free, all, o);
    }
  }

  lemma TakenApart(free: set<nat>, all: set<nat>, o: set<nat>)
    requires o <= free - all
    ensures o !! all
  {
  }

  lemma CloningFacts(m0: Memory, m: Memory, d0: nat, d1: nat, slot: nat, n: nat, own: seq<set<nat>>, all: set<nat>)
    requires DirInUse(m0, d0) && Cloning(m0, m, d0, d1, slot, n, own, all)
    ensures slot < |m0.kmap| && m0.kmap[slot] == 0 && m.kmap == m0.kmap[slot := Mapping(d1)]
    ensures all <= m0.free && m.free == m0.free - all && d1 in all
    ensures DirCopied(m0.mem, m.mem, d0, d1, n, own, all) && Same(m0.mem, m.mem, all) && Counted(m0, d0, own, all, n)
    ensures n <= WORDS && forall i: nat :: i < n ==> !Panics(i, m0.mem[d0][i])
  {
    hide EntryCopied, Counted, Mapping;
  }

  lemma EnteredFacts(m: Memory, m': Memory, d1: nat, n: nat, e: nat, t1: nat, o: set<nat>, mid: seq<Page>)
    requires Entered(m, m', d1, n, e, t1, o, mid)
    ensures o <= m.free && m'.free == m.free - o && m'.kmap == m.kmap && Same(m.mem, mid, o)
    ensures d1 < |mid| && |mid[d1]| == WORDS && n < WORDS && m'.mem == Put(mid, d1, n, Entry(Flags(e), t1))
  {
    hide TableCopied, FrameOf, Flags, Entry, CountPresent;
  }

  lemma CloningFrom(m0: Memory, m: Memory, d0: nat, d1: nat, slot: nat, n: nat, own: seq<set<nat>>, all: set<nat>)
    requires DirInUse(m0, d0) && n < WORDS && Shape(m)
    requires slot < |m0.kmap| && m0.kmap[slot] == 0 && m.kmap == m0.kmap[slot := Mapping(d1)]
    requires all <= m0.free && m.free == m0.free - all
    requires DirCopied(m0.mem, m.mem, d0, d1, n + 1, own, all) && Same(m0.mem, m.mem, all)
    requires Counted(m0, d0, own, all, n + 1)
    requires (forall i: nat :: i < n ==> !Panics(i, m0.mem[d0][i])) && !Panics(n, m0.mem[d0][n])
    ensures Cloning(m0, m, d0, d1, slot, n + 1, own, all)
  {
    hide DirCopied, Same, Counted, Mapping, Panics;
  }

  lemma NotPanics(i: nat, e: nat)
    requires Cloned(i, e)
    ensures !Panics(i, e)
  {
  }

  /** An absent entry stays clear and a shared one is carried over. */
  lemma CloningPlain(m0: Memory, m: Memory, m': Memory, d0: nat, d1: nat, slot: nat, n: nat, own: seq<set<nat>>,
                     all: set<nat>)
    requires Shape(m0) && DirInUse(m0, d0) && Cloning(m0, m, d0, d1, slot, n, own, all) && n < WORDS
    requires !Cloned(n, m0.mem[d0][n]) && !Panics(n, m0.mem[d0][n])
    requires Shape(m') && m'.free == m.free && m'.kmap == m.kmap && d1 < |m.mem| && |m.mem[d1]| == WORDS
    requires m'.mem == if Present(m0.mem[d0][n]) then Put(m.mem, d1, n, m0.mem[d0][n]) else m.mem
    ensures Cloning(m0, m', d0, d1, slot, n + 1, own + [{}], all)
  {
    var e := m0.mem[d0][n];
    var e' := if Present(e) then e else 0;
    assert EntryCopied(m0.mem, m.mem, n, e, e', {});
    assert m.mem[d1][n] == 0;
    assert m.mem[d1][n := 0] == m.mem[d1];
    assert m'.mem == Put(m.mem, d1, n, e');
    hide FrameOf, Present, InUse, EntryCopied, Mapping, Cloned, Panics, Counted;
    DirStep(m0, m, m.mem, d0, d1, n, own, all, e', {});
    assert all + {} == all;
    assert Same(m0.mem, m'.mem, all);
    CountedPlain(m0, d0, own, all, n);
  }

  // ----- what the two address spaces read

  datatype Found = Nothing | Frame(frame: nat, flags: nat)

  /** The table of entry i, if any, can be read. */
  predicate Walkable(m: seq<Page>, d: nat, i: nat) {
    && d < |m| && i < |m[d]|
    && (Present(m[d][i]) ==> FrameOf(m[d][i]) < |m| && |m[FrameOf(m[d][i])]| == WORDS)
  }

  /** The walk of pgdir_get_frame for a 4 KiB page, with the entry's flags. */
  function Lookup(m: seq<Page>, d: nat, i: nat, k: nat): Found
    requires Walkable(m, d, i) && k < WORDS
  {
    if !Present(m[d][i]) then Nothing
    else if !Present(m[FrameOf(m[d][i])][k]) then Nothing
    else Frame(FrameOf(m[FrameOf(m[d][i])][k]), Flags(m[FrameOf(m[d][i])][k]))
  }

  lemma FlagsDecide(e: nat, e': nat)
    requires Flags(e) == Flags(e')
    ensures Present(e) <==> Present(e')
  {
    FlagsPresent(e);
    FlagsPresent(e');
  }

  /** What a copied directory says of one entry to be cloned. */
  lemma EntryOf(m0: Memory, m: Memory, d0: nat, d1: nat, slot: nat, own: seq<set<nat>>, all: set<nat>, i: nat)
    requires DirInUse(m0, d0) && Cloning(m0, m, d0, d1, slot, WORDS, own, all) && i < WORDS && !Shared(i)
    ensures d0 < |m0.mem| && |m0.mem[d0]| == WORDS && d1 < |m.mem| && |m.mem[d1]| == WORDS
    ensures EntryCopied(m0.mem, m.mem, i, m0.mem[d0][i], m.mem[d1][i], own[i])
    ensures Present(m0.mem[d0][i]) <==> Cloned(i, m0.mem[d0][i])
    ensures Cloned(i, m0.mem[d0][i]) && Need(m0, d0, WORDS) <= |m0.free| ==> |own[i]| == Pages(m0, d0, i) + 1
  {
    hide FrameOf, InUse, EntryCopied, Mapping, Need, Pages;
    assert !Panics(i, m0.mem[d0][i]);
  }

  /** In a table copied in full every page is a copy. */
  lemma WholeTable(m0: seq<Page>, m: seq<Page>, t0: nat, t1: nat, own: set<nat>, k: nat)
    requires TableCopied(m0, m, t0, t1, WORDS, own) && k < WORDS && |own| == CountPresent(m0[t0], WORDS) + 1
    ensures PageCopied(m0, m, m0[t0][k], m[t1][k], own - {t1})
    ensures Present(m0[t0][k]) ==> CountPresent(m0[t0], k) < |own| - 1
  {
    hide FrameOf, Flags, Entry, Present, CountPresent, PageCopied;
    assert Carried(m0, m, m0[t0], k, m[t1][k], own, t1);
    if Present(m0[t0][k]) { CountBefore(m0[t0], k, WORDS); }
  }

  /** In the copied part of the address space the clone maps the same pages,
      each to a frame that was free, with the parent's flags and contents, if
      there were as many free frames as it needs. */
  lemma CloneTranslates(m0: Memory, m: Memory, d0: nat, d1: nat, slot: nat, own: seq<set<nat>>, all: set<nat>,
                        i: nat, k: nat)
    requires DirInUse(m0, d0) && Cloning(m0, m, d0, d1, slot, WORDS, own, all) && i < WORDS && k < WORDS && !Shared(i)
    requires Need(m0, d0, WORDS) <= |m0.free|
    ensures Walkable(m0.mem, d0, i) && Walkable(m.mem, d1, i)
    ensures Flags(m.mem[d1][i]) == if Present(m0.mem[d0][i]) then Flags(m0.mem[d0][i]) else 0
    ensures var f0, f1 := Lookup(m0.mem, d0, i, k), Lookup(m.mem, d1, i, k);
            && (f0.Nothing? <==> f1.Nothing?)
            && (f1.Frame? ==> f1.flags == f0.flags && f1.frame in own[i] && f0.frame < |m0.mem| && f1.frame < |m.mem|
                              && m.mem[f1.frame] == m0.mem[f0.frame])
  {
    var e, e' := m0.mem[d0][i], m.mem[d1][i];
    EntryOf(m0, m, d0, d1, slot, own, all, i);
    ZeroFlags();
    if Present(e) {
      EntryIsWhole(m0, d0, i);
      FlagsDecide(e, e');
      var t0, t1 := FrameOf(e), FrameOf(e');
      hide DirInUse, Cloning, Cloned, Need, Pages, FrameOf, Flags, Carried, Present;
      WholeTable(m0.mem, m.mem, t0, t1, own[i], k);
      hide TableCopied;
      if Present(m0.mem[t0][k]) {
        FlagsDecide(m0.mem[t0][k], m.mem[t1][k]);
      }
    }
  }

  lemma ZeroFlags()
    ensures Flags(0) == 0 && !Present(0)
  {
  }

  /** Without that many frames a copy that does not fail maps some page to
      NOWHERE. */
  lemma ShortClone(m0: Memory, m: Memory, d0: nat, d1: nat, slot: nat, own: seq<set<nat>>, all: set<nat>)
    requires DirInUse(m0, d0) && Cloning(m0, m, d0, d1, slot, WORDS, own, all) && Need(m0, d0, WORDS) > |m0.free|
    ensures exists i: nat, k: nat :: i < WORDS && k < WORDS && Walkable(m0.mem, d0, i) && Walkable(m.mem, d1, i)
              && Lookup(m0.mem, d0, i, k).Frame?
              && Lookup(m.mem, d1, i, k).Frame? && Lookup(m.mem, d1, i, k).frame == NOWHERE
  {
    var i: nat :| i < WORDS && Cloned(i, m0.mem[d0][i]) && |own[i]| <= Pages(m0, d0, i);
    EntryOf(m0, m, d0, d1, slot, own, all, i);
    EntryIsWhole(m0, d0, i);
    var e, e' := m0.mem[d0][i], m.mem[d1][i];
    FlagsDecide(e, e');
    var t0, t1 := FrameOf(e), FrameOf(e');
    hide DirInUse, Cloning, Cloned, Need, Pages, CountPresent;
    var k := ShortPage(m0.mem, m.mem, t0, t1, own[i]);
    hide TableCopied, FrameOf, Present;
    assert Lookup(m.mem, d1, i, k).frame == NOWHERE;
  }

  lemma {:induction false} ShortPage(m0: seq<Page>, m: seq<Page>, t0: nat, t1: nat, own: set<nat>) returns (k: nat)
    requires TableCopied(m0, m, t0, t1, WORDS, own) && |own| <= CountPresent(m0[t0], WORDS)
    ensures k < WORDS && Present(m0[t0][k]) && Present(m[t1][k]) && FrameOf(m[t1][k]) == NOWHERE
  {
    hide Carried, CountPresent, FrameOf, Flags, Entry, Present;
    k := LastPresent(m0[t0], WORDS);
    var e := m0[t0][k];
    assert Carried(m0, m, m0[t0], k, m[t1][k], own, t1);
    NowhereEntry(m0, m, m0[t0], k, m[t1][k], own, t1);
  }

  lemma NowhereEntry(m0: seq<Page>, m: seq<Page>, p: Page, k: nat, e': nat, own: set<nat>, t1: nat)
    requires k < |p| && Carried(m0, m, p, k, e', own, t1) && Present(p[k]) && CountPresent(p, k) >= |own| - 1
    ensures Present(e') && FrameOf(e') == NOWHERE
  {
    FlagsPresent(p[k]);
    EntryParts(Flags(p[k]), NOWHERE);
  }

  /** The last present entry counts all others before it. */
  lemma {:induction false} LastPresent(p: Page, n: nat) returns (k: nat)
    requires n <= |p| && CountPresent(p, n) > 0
    ensures k < n && Present(p[k]) && CountPresent(p, k) == CountPresent(p, n) - 1
    decreases n
  {
    if Present(p[n - 1]) { k := n - 1; } else { k := LastPresent(p, n - 1); }
  }

  /** Two pages of the clone never share a frame, under the same condition. */
  lemma CloneDisjoint(m0: Memory, m: Memory, d0: nat, d1: nat, slot: nat, own: seq<set<nat>>, all: set<nat>,
                      i: nat, k: nat, i': nat, k': nat)
    requires DirInUse(m0, d0) && Cloning(m0, m, d0, d1, slot, WORDS, own, all) && Need(m0, d0, WORDS) <= |m0.free|
    requires i < WORDS && k < WORDS && i' < WORDS && k' < WORDS && !Shared(i) && !Shared(i') && (i != i' || k != k')
    ensures Walkable(m.mem, d1, i) && Walkable(m.mem, d1, i')
    ensures var f, f' := Lookup(m.mem, d1, i, k), Lookup(m.mem, d1, i', k');
            f.Frame? && f'.Frame? ==> f.frame != f'.frame
  {
    CloneTranslates(m0, m, d0, d1, slot, own, all, i, k);
    CloneTranslates(m0, m, d0, d1, slot, own, all, i', k');
    var f, f' := Lookup(m.mem, d1, i, k), Lookup(m.mem, d1, i', k');
    if f.Frame? && f'.Frame? {
      if i == i' {
        if k < k' {
          SameTable(m0, m, d0, d1, slot, own, all, i, k, k');
        } else {
          SameTable(m0, m, d0, d1, slot, own, all, i, k', k);
        }
      } else {
        OwnersApart(m0, m, d0, d1, slot, own, all, i, i');
      }
    }
  }

  lemma OwnersApart(m0: Memory, m: Memory, d0: nat, d1: nat, slot: nat, own: seq<set<nat>>, all: set<nat>, i: nat,
                    i': nat)
    requires DirInUse(m0, d0) && Cloning(m0, m, d0, d1, slot, WORDS, own, all) && i < WORDS && i' < WORDS && i != i'
    ensures own[i] !! own[i']
  {
    hide FrameOf, InUse, Cloned, EntryCopied, Mapping, Counted;
    if i < i' { assert own[i] !! own[i']; } else { assert own[i'] !! own[i]; }
  }

  lemma SameTable(m0: Memory, m: Memory, d0: nat, d1: nat, slot: nat, own: seq<set<nat>>, all: set<nat>, i: nat,
                  k: nat, k': nat)
    requires DirInUse(m0, d0) && Cloning(m0, m, d0, d1, slot, WORDS, own, all) && Need(m0, d0, WORDS) <= |m0.free|
    requires i < WORDS && !Shared(i) && k < k' < WORDS && Walkable(m.mem, d1, i)
    requires Lookup(m.mem, d1, i, k).Frame? && Lookup(m.mem, d1, i, k').Frame?
    ensures Lookup(m.mem, d1, i, k).frame != Lookup(m.mem, d1, i, k').frame
  {
    var e, e' := m0.mem[d0][i], m.mem[d1][i];
    EntryOf(m0, m, d0, d1, slot, own, all, i);
    ZeroFlags();
    EntryIsWhole(m0, d0, i);
    var t0, t1 := FrameOf(e), FrameOf(e');
    hide DirInUse, Cloning, Cloned, Need, Pages, FrameOf, Flags, Carried, CountPresent;
    WholeTable(m0.mem, m.mem, t0, t1, own[i], k);
    WholeTable(m0.mem, m.mem, t0, t1, own[i], k');
    hide Present;
  }

  /** Every frame that was in use keeps its contents, and the kernel page table
      gains exactly one entry, for the new directory. */
  lemma ParentUntouched(m0: Memory, m: Memory, d0: nat, d1: nat, slot: nat, own: seq<set<nat>>, all: set<nat>, x: nat)
    requires DirInUse(m0, d0) && Cloning(m0, m, d0, d1, slot, WORDS, own, all) && x < |m0.mem| && x !in m0.free
    ensures |m.mem| == |m0.mem| && m.mem[x] == m0.mem[x]
    ensures m.kmap == m0.kmap[slot := Mapping(d1)] && m0.kmap[slot] == 0
    ensures |m0.free| - |m.free| == Min(Need(m0, d0, WORDS), |m0.free|)
  {
    hide FrameOf, Mapping, DirInUse, DirCopied, Need;
    Rest(m0.free, all);
  }
}
