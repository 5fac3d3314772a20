// The simulator's global state and its operations, in place.  Every operation
// is proved equal to the function of the memory state that specifies it.
module VmsMachine {
  import opened Common
  import opened VmsState
  import opened VmsInvariant
  import opened VmsSteps
  import opened VmsForks
  import opened VmsMmu
  import opened VmsAccess
  import opened VmsWalk

  class Vms {
    const inUse: array<bool>
    const refNum: array<int>
    const tables: array<seq<Entry>>
    const data: array<seq<Byte>>
    var usedPages: int
    var rootPageTable: int

    ghost predicate Valid()
      reads this, inUse, refNum, tables, data
    {
      Ok(Abs())
    }

    ghost function Abs(): State
      reads this, inUse, refNum, tables, data
    {
      State(tables[..], data[..], inUse[..], usedPages, refNum[..], rootPageTable)
    }

    // vms_init: a pool of zero pages, none allocated, no root.
    constructor ()
      ensures Valid() && fresh(inUse) && fresh(refNum) && fresh(tables) && fresh(data)
      ensures usedPages == 0 && rootPageTable == -1
      ensures forall p | IsPage(p) :: tables[p] == ZeroTable() && data[p] == ZeroBytes() && !inUse[p] && refNum[p] == 0
    {
      inUse := new bool[MAX_PAGES](_ => false);
      refNum := new int[MAX_PAGES](_ => 0);
      tables := new seq<Entry>[MAX_PAGES](_ => ZeroTable());
      data := new seq<Byte>[MAX_PAGES](_ => ZeroBytes());
      usedPages := 0;
      rootPageTable := -1;
    }

    // ---------------------------------------------------------------- pages

    method NewPageAt() returns (page: int)
      requires Valid()
      modifies this`usedPages, inUse
      ensures Valid() && rootPageTable == old(rootPageTable)
      ensures match NewPage(old(Abs()))
        case OutOfPages => page == -1 && Abs() == old(Abs())
        case Got(d, s1) => page == d && Abs() == s1
    {
      var i := 0;
      while i < MAX_PAGES
        invariant 0 <= i <= MAX_PAGES
        invariant Abs() == old(Abs())
        invariant LowestFree(old(Abs()).alloc, i) == LowestFree(old(Abs()).alloc, 0)
      {
        if !inUse[i] {
          inUse[i] := true;
          usedPages := usedPages + 1;
          assert inUse[..] == old(inUse[..])[i := true];
          return i;
        }
        i := i + 1;
      }
      return -1;
    }

    method FreePageAt(p: int)
      requires Valid() && IsPage(p) && inUse[p]
      modifies this`usedPages, inUse, tables, data
      ensures Valid() && Abs() == FreePage(old(Abs()), p)
    {
      inUse[p] := false;
      tables[p] := ZeroTable();
      data[p] := ZeroBytes();
      usedPages := usedPages - 1;
      assert inUse[..] == old(inUse[..])[p := false];
      assert tables[..] == old(tables[..])[p := ZeroTable()];
      assert data[..] == old(data[..])[p := ZeroBytes()];
    }

    // ---------------------------------------------------------------- entries

    method PutEntry(p: int, k: int, e: Entry)
      requires Valid() && IsPage(p) && IsIndex(k) && (e.valid ==> IsPage(e.page))
      modifies tables
      ensures Valid() && Abs() == SetEntry(old(Abs()), p, k, e)
    {
      tables[p] := tables[p][k := e];
      assert tables[..] == old(tables[..])[p := old(tables[p])[k := e]];
    }

    method AddRef(p: int, n: int)
      requires Valid() && IsPage(p)
      modifies refNum
      ensures Valid() && Abs() == SetRef(old(Abs()), p, old(Abs()).ref[p] + n)
    {
      refNum[p] := refNum[p] + n;
      assert refNum[..] == old(refNum[..])[p := old(refNum[p]) + n];
    }

    // memcpy of one page to another.
    method CopyPageTo(dst: int, src: int)
      requires Valid() && IsPage(dst) && IsPage(src)
      modifies tables, data
      ensures Valid() && Abs() == CopyPage(old(Abs()), dst, src)
    {
      tables[dst] := tables[src];
      data[dst] := data[src];
      assert tables[..] == old(tables[..])[dst := old(tables[src])];
      assert data[..] == old(data[..])[dst := old(data[src])];
    }

    method EntryAt(p: int, k: int) returns (e: Entry)
      requires Valid() && IsPage(p) && IsIndex(k)
      ensures e == At(Abs(), p, k) && (e.valid ==> IsPage(e.page))
    {
      e := tables[p][k];
    }

    // ---------------------------------------------------------------- forks

    // A new table page, linked from entry k of table p: vms_new_page and
    // entry_copy, as at both inner levels of a fork.
    method LinkTable(p: int, k: int, e: Entry) returns (page: int)
      requires Valid() && IsPage(p) && IsIndex(k) && e.valid
      modifies this`usedPages, inUse, tables
      ensures Valid()
      ensures match LinkNew(old(Abs()), p, k, e)
        case OutOfPages => page == -1
        case Got(d, s1) => page == d && IsPage(d) && Abs() == s1
    {
      page := NewPageAt();
      if page != -1 {
        PutEntry(p, k, e.(page := page));
      }
    }

    // The body of the innermost loop of vms_fork_copy.
    method CopyEntry(src0: int, dst0: int, k: int) returns (ok: bool)
      requires Valid() && IsPage(src0) && IsPage(dst0) && IsIndex(k)
      modifies this`usedPages, inUse, tables, data
      ensures Valid()
      ensures ok <==> ForkLeaf(Eager, old(Abs()), src0, dst0, k).Some?
      ensures ok ==> Abs() == ForkLeaf(Eager, old(Abs()), src0, dst0, k).value
    {
      var e := EntryAt(src0, k);
      if !e.valid { return true; }
      var dst := NewPageAt();
      if dst == -1 { return false; }
      PutEntry(dst0, k, e.(page := dst));
      CopyPageTo(dst, e.page);
      ok := true;
    }

    // The body of the innermost loop of vms_fork_copy_on_write.
    method ShareEntry(src0: int, dst0: int, k: int)
      requires Valid() && IsPage(src0) && IsPage(dst0) && IsIndex(k)
      modifies tables, refNum
      ensures Valid()
      ensures ForkLeaf(Lazy, old(Abs()), src0, dst0, k) == Some(Abs())
    {
      hide Abs, Closed;
      var e := EntryAt(src0, k);
      if !e.valid { return; }
      PutEntry(dst0, k, e);
      if e.write {
        PutEntry(dst0, k, e.(write := false));
        PutEntry(dst0, k, Marked(e));
        PutEntry(src0, k, e.(write := false));
        PutEntry(src0, k, Marked(e));
      }
      SharedRows(old(Abs()), src0, dst0, k, Abs());
      AddRef(e.page, 2);
    }

    method CopyTable0(src: int, dst: int) returns (done: bool)
      requires Valid() && IsPage(src) && IsPage(dst)
      modifies this`usedPages, inUse, tables, data
      ensures Valid() && rootPageTable == old(rootPageTable)
      ensures done <==> ForkL0(Eager, old(Abs()), src, dst, 0).Some?
      ensures done ==> Abs() == ForkL0(Eager, old(Abs()), src, dst, 0).value
    {
      hide Abs, Ok, ForkLeaf;
      var k := 0;
      while k < NUM_PTE_ENTRIES
        invariant 0 <= k <= NUM_PTE_ENTRIES && Valid() && rootPageTable == old(rootPageTable)
        invariant ForkL0(Eager, Abs(), src, dst, k) == ForkL0(Eager, old(Abs()), src, dst, 0)
      {
        var ok := CopyEntry(src, dst, k);
        if !ok { return false; }
        k := k + 1;
      }
      done := true;
    }

    method CopyTable1(src: int, dst: int) returns (done: bool)
      requires Valid() && IsPage(src) && IsPage(dst)
      modifies this`usedPages, inUse, tables, data
      ensures Valid() && rootPageTable == old(rootPageTable)
      ensures done <==> ForkL1(Eager, old(Abs()), src, dst, 0).Some?
      ensures done ==> Abs() == ForkL1(Eager, old(Abs()), src, dst, 0).value
    {
      hide Abs, Ok, LinkNew, ForkL0;
      var j := 0;
      while j < NUM_PTE_ENTRIES
        invariant 0 <= j <= NUM_PTE_ENTRIES && Valid() && rootPageTable == old(rootPageTable)
        invariant ForkL1(Eager, Abs(), src, dst, j) == ForkL1(Eager, old(Abs()), src, dst, 0)
      {
        var e := EntryAt(src, j);
        if e.valid {
          var table := LinkTable(dst, j, e);
          if table == -1 { return false; }
          var ok := CopyTable0(e.page, table);
          if !ok { return false; }
        }
        j := j + 1;
      }
      done := true;
    }

    method CopyTable2(src: int, dst: int) returns (done: bool)
      requires Valid() && IsPage(src) && IsPage(dst)
      modifies this`usedPages, inUse, tables, data
      ensures Valid() && rootPageTable == old(rootPageTable)
      ensures done <==> ForkL2(Eager, old(Abs()), src, dst, 0).Some?
      ensures done ==> Abs() == ForkL2(Eager, old(Abs()), src, dst, 0).value
    {
      hide Abs, Ok, LinkNew, ForkL1;
      var i := 0;
      while i < NUM_PTE_ENTRIES
        invariant 0 <= i <= NUM_PTE_ENTRIES && Valid() && rootPageTable == old(rootPageTable)
        invariant ForkL2(Eager, Abs(), src, dst, i) == ForkL2(Eager, old(Abs()), src, dst, 0)
      {
        var e := EntryAt(src, i);
        if e.valid {
          var table := LinkTable(dst, i, e);
          if table == -1 { return false; }
          var ok := CopyTable1(e.page, table);
          if !ok { return false; }
        }
        i := i + 1;
      }
      done := true;
    }

    method ForkCopy() returns (root: int)
      requires Valid() && IsPage(rootPageTable)
      modifies this`usedPages, inUse, tables, data
      ensures Valid() && rootPageTable == old(rootPageTable)
      ensures match Fork(Eager, old(Abs()))
        case OutOfPages => root == -1
        case Got(d, s1) => root == d && Abs() == s1
    {
      if usedPages > MAX_PAGES / 2 { return -1; }
      root := NewPageAt();
      if root == -1 { return -1; }
      var ok := CopyTable2(rootPageTable, root);
      if !ok { return -1; }
    }

    method ShareTable0(src: int, dst: int) returns (done: bool)
      requires Valid() && IsPage(src) && IsPage(dst)
      modifies this`usedPages, inUse, tables, refNum
      ensures Valid() && rootPageTable == old(rootPageTable)
      ensures done <==> ForkL0(Lazy, old(Abs()), src, dst, 0).Some?
      ensures done ==> Abs() == ForkL0(Lazy, old(Abs()), src, dst, 0).value
    {
      hide Abs, Ok, ForkLeaf;
      var k := 0;
      while k < NUM_PTE_ENTRIES
        invariant 0 <= k <= NUM_PTE_ENTRIES && Valid() && rootPageTable == old(rootPageTable)
        invariant ForkL0(Lazy, Abs(), src, dst, k) == ForkL0(Lazy, old(Abs()), src, dst, 0)
      {
        ShareEntry(src, dst, k);
        k := k + 1;
      }
      done := true;
    }

    method ShareTable1(src: int, dst: int) returns (done: bool)
      requires Valid() && IsPage(src) && IsPage(dst)
      modifies this`usedPages, inUse, tables, refNum
      ensures Valid() && rootPageTable == old(rootPageTable)
      ensures done <==> ForkL1(Lazy, old(Abs()), src, dst, 0).Some?
      ensures done ==> Abs() == ForkL1(Lazy, old(Abs()), src, dst, 0).value
    {
      hide Abs, Ok, LinkNew, ForkL0;
      var j := 0;
      while j < NUM_PTE_ENTRIES
        invariant 0 <= j <= NUM_PTE_ENTRIES && Valid() && rootPageTable == old(rootPageTable)
        invariant ForkL1(Lazy, Abs(), src, dst, j) == ForkL1(Lazy, old(Abs()), src, dst, 0)
      {
        var e := EntryAt(src, j);
        if e.valid {
          var table := LinkTable(dst, j, e);
          if table == -1 { return false; }
          var ok := ShareTable0(e.page, table);
          if !ok { return false; }
        }
        j := j + 1;
      }
      done := true;
    }

    method ShareTable2(src: int, dst: int) returns (done: bool)
      requires Valid() && IsPage(src) && IsPage(dst)
      modifies this`usedPages, inUse, tables, refNum
      ensures Valid() && rootPageTable == old(rootPageTable)
      ensures done <==> ForkL2(Lazy, old(Abs()), src, dst, 0).Some?
      ensures done ==> Abs() == ForkL2(Lazy, old(Abs()), src, dst, 0).value
    {
      hide Abs, Ok, LinkNew, ForkL1;
      var i := 0;
      while i < NUM_PTE_ENTRIES
        invariant 0 <= i <= NUM_PTE_ENTRIES && Valid() && rootPageTable == old(rootPageTable)
        invariant ForkL2(Lazy, Abs(), src, dst, i) == ForkL2(Lazy, old(Abs()), src, dst, 0)
      {
        var e := EntryAt(src, i);
        if e.valid {
          var table := LinkTable(dst, i, e);
          if table == -1 { return false; }
          var ok := ShareTable1(e.page, table);
          if !ok { return false; }
        }
        i := i + 1;
      }
      done := true;
    }

    method ForkCopyOnWrite() returns (root: int)
      requires Valid() && IsPage(rootPageTable)
      modifies this`usedPages, inUse, tables, refNum
      ensures Valid() && rootPageTable == old(rootPageTable)
      ensures match Fork(Lazy, old(Abs()))
        case OutOfPages => root == -1
        case Got(d, s1) => root == d && Abs() == s1
    {
      if usedPages > MAX_PAGES / 2 { return -1; }
      root := NewPageAt();
      if root == -1 { return -1; }
      var ok := ShareTable2(rootPageTable, root);
      if !ok { return -1; }
    }

    // ---------------------------------------------------------------- faults

    method RefAt(p: int) returns (n: int)
      requires Valid() && IsPage(p)
      ensures n == Abs().ref[p]
    {
      n := refNum[p];
    }

    // The part of the handler that gives the entry a page of its own.
    method MoveToCopy(p: int, k: int, e: Entry) returns (ok: bool)
      requires Valid() && IsPage(p) && IsIndex(k) && e == At(Abs(), p, k) && e.valid && !e.write
      requires IsPage(e.page) && Abs().ref[e.page] >= 2
      modifies this`usedPages, inUse, tables, data, refNum
      ensures Valid() && rootPageTable == old(rootPageTable)
      ensures ok <==> Handle(old(Abs()), p, k).Some?
      ensures ok ==> Abs() == Handle(old(Abs()), p, k).value
    {
      hide Abs, Closed;
      var dst := NewPageAt();
      if dst == -1 { return false; }
      PutEntry(p, k, Unmarked(e.(page := dst)));
      CopyPageTo(dst, e.page);
      AddRef(e.page, -1);
      AddRef(dst, 1);
      ok := true;
    }

    // False is the exit of vms_new_page.
    method PageFaultHandler(p: int, k: int) returns (ok: bool)
      requires Valid() && IsPage(p) && IsIndex(k)
      modifies this`usedPages, inUse, tables, data, refNum
      ensures Valid() && rootPageTable == old(rootPageTable)
      ensures ok <==> Handle(old(Abs()), p, k).Some?
      ensures ok ==> Abs() == Handle(old(Abs()), p, k).value
    {
      hide Abs, Closed;
      var e := EntryAt(p, k);
      if !e.valid { return true; }
      if !e.write {
        var count := RefAt(e.page);
        if count <= 0 { return true; }
        if count == 1 {
          if e.custom {
            PutEntry(p, k, e.(write := true, custom := false));
          } else {
            SetSame(Abs(), p, k);
          }
          return true;
        }
        ok := MoveToCopy(p, k, e);
        return;
      }
      ok := true;
    }

    // ---------------------------------------------------------------- the MMU

    method Mmu(v: Vpn) returns (r: MmuResult)
      requires Valid() && IsPage(rootPageTable) && VpnOk(v)
      modifies this`usedPages, inUse, tables, data, refNum
      ensures Valid() && rootPageTable == old(rootPageTable)
      ensures match Walk(old(Abs()), v, MMU_LEVELS - 1, false, old(rootPageTable))
        case NoPages => r == MmuExit(true)
        case Fatal => r == MmuExit(false)
        case Found(x, s1) => r == MmuEntry(x) && Abs() == s1 && x in AllSlots()
    {
      hide Abs, Ok, Handle;
      var table := rootPageTable;
      var faulted := false;
      var level := MMU_LEVELS - 1;
      while level >= 0
        invariant 0 <= level < MMU_LEVELS && IsPage(table)
        invariant Valid() && rootPageTable == old(rootPageTable)
        invariant Walk(Abs(), v, level, faulted, table) == Walk(old(Abs()), v, MMU_LEVELS - 1, false, old(rootPageTable))
        decreases 2 * level + (if faulted then 0 else 1)
      {
        var e := EntryAt(table, IndexAt(v, level));
        if ShouldFault(level, e) {
          if faulted { return MmuExit(false); }
          faulted := true;
          var ok := PageFaultHandler(table, IndexAt(v, level));
          if !ok { return MmuExit(true); }
        } else if level != 0 {
          faulted := false;
          table := e.page;
          level := level - 1;
        } else {
          return MmuEntry(Slot(table, IndexAt(v, level)));
        }
      }
    }

    method VmsRead(v: Vpn, off: int) returns (r: ReadEnd)
      requires Valid() && IsPage(rootPageTable) && VpnOk(v) && OffsetOk(off)
      modifies this`usedPages, inUse, tables, data, refNum
      ensures Valid() && rootPageTable == old(rootPageTable)
      ensures match Read(old(Abs()), v, off)
        case ReadNoPages => r == ReadExit(true)
        case ReadFatal => r == ReadExit(false)
        case ReadOk(w, s1) => r == ReadValue(w) && Abs() == s1
    {
      assert Abs().root == rootPageTable;
      hide Abs, Ok, Handle, Walk;
      var m := Mmu(v);
      if m.MmuExit? { return ReadExit(m.outOfPages); }
      var x := m.slot;
      var e := EntryAt(x.p, x.k);
      if !e.read {
        var ok := PageFaultHandler(x.p, x.k);
        if !ok { return ReadExit(true); }
        e := EntryAt(x.p, x.k);
        if !e.read { return ReadExit(false); }
      }
      var w := Load(e.page, off);
      r := ReadValue(w);
    }

    method Load(q: int, off: int) returns (w: Word)
      requires Valid() && OffsetOk(off)
      ensures w == LoadAt(Abs(), q, off)
    {
      w := if 0 <= q < MAX_PAGES then LoadWord(data[q], off) else 0;
    }

    method VmsWrite(v: Vpn, off: int, w: Word) returns (r: WriteEnd)
      requires Valid() && IsPage(rootPageTable) && VpnOk(v) && OffsetOk(off)
      modifies this`usedPages, inUse, tables, data, refNum
      ensures Valid() && rootPageTable == old(rootPageTable)
      ensures match Write(old(Abs()), v, off, w)
        case WriteNoPages => r == WriteExit(true)
        case WriteFatal => r == WriteExit(false)
        case WriteOk(s1) => r == WriteDone && Abs() == s1
    {
      assert Abs().root == rootPageTable;
      hide Abs, Ok, Handle, Walk;
      var m := Mmu(v);
      if m.MmuExit? { return WriteExit(m.outOfPages); }
      var x := m.slot;
      var e := EntryAt(x.p, x.k);
      if !e.write {
        var ok := PageFaultHandler(x.p, x.k);
        if !ok { return WriteExit(true); }
        e := EntryAt(x.p, x.k);
        if !e.write { return WriteExit(false); }
      }
      Store(e.page, off, w);
      r := WriteDone;
    }

    method Store(q: int, off: int, w: Word)
      requires Valid() && OffsetOk(off)
      modifies data
      ensures Valid() && Abs() == StoreAt(old(Abs()), q, off, w)
    {
      if 0 <= q < MAX_PAGES {
        data[q] := StoreWord(data[q], off, w);
        assert data[..] == old(data[..])[q := StoreWord(old(data[q]), off, w)];
      }
    }

    method SetRootPageTable(p: int)
      requires Valid() && IsPage(p)
      modifies this`rootPageTable
      ensures Valid() && Abs() == old(Abs()).(root := p)
    {
      rootPageTable := p;
    }
  }

  // outOfPages distinguishes the allocator's exit from a fatal fault.
  datatype MmuResult = MmuExit(outOfPages: bool) | MmuEntry(slot: Slot)
  datatype ReadEnd = ReadExit(outOfPages: bool) | ReadValue(value: Word)
  datatype WriteEnd = WriteExit(outOfPages: bool) | WriteDone

  lemma SameRows(s: State, s': State)
    requires Sized(s) && Sized(s') && forall p, k :: At(s, p, k) == At(s', p, k)
    ensures s.tab == s'.tab
  {
    forall p | IsPage(p) ensures s.tab[p] == s'.tab[p] {
      forall k | IsIndex(k) ensures s.tab[p][k] == s'.tab[p][k] {
        assert At(s, p, k) == At(s', p, k);
      }
    }
  }

  // Rewriting both entries gives the marked tables, whether or not the source
  // entry had to be touched.
  lemma SharedRows(s: State, ps: int, pd: int, k: int, s': State)
    requires Ok(s) && Ok(s') && IsPage(ps) && IsPage(pd) && IsIndex(k) && At(s, ps, k).valid
    requires s' == s.(tab := s'.tab)
    requires forall p, k' :: At(s', p, k') == if k' == k && (p == ps || p == pd) then Marked(At(s, ps, k)) else At(s, p, k')
    ensures IsPage(At(s, ps, k).page)
    ensures s' == SetEntry(SetEntry(s, pd, k, Marked(At(s, ps, k))), ps, k, Marked(At(s, ps, k)))
  {
    SameRows(s', SetEntry(SetEntry(s, pd, k, Marked(At(s, ps, k))), ps, k, Marked(At(s, ps, k))));
  }
}
