// Start states: the pool after vms_init, and the one-page address space that
// the simulator's main program builds.
module VmsSetup {
  import opened Common
  import opened VmsState
  import opened VmsInvariant
  import opened VmsSteps
  import opened VmsForks
  import opened VmsForkLeaf
  import opened VmsForkTheorems
  import opened VmsWalk
  import opened VmsRuns
  import opened VmsPageCount
  import opened VmsRefinement
  import opened VmsStart
  import opened VmsLazyFork
  import opened VmsMarks

  function EmptyPool(): (s: State)
    ensures Ok(s)
  {
    State(seq(MAX_PAGES, _ => ZeroTable()), seq(MAX_PAGES, _ => ZeroBytes()),
          seq(MAX_PAGES, _ => false), 0, seq(MAX_PAGES, _ => 0), -1)
  }

  ghost function EmptyGhost(): Ghost {
    Ghost([], seq(MAX_PAGES, _ => Free), seq(MAX_PAGES, _ => 0))
  }

  lemma EmptyPoolInv()
    ensures Inv(EmptyPool(), EmptyGhost()) && Tidy(EmptyPool(), EmptyGhost())
  {
    hide Slots;
    assert Allocated(EmptyPool()) == {};
  }

  // The set-up code maps a blank page by one new leaf entry.
  lemma MapLeafKeeps(s: State, g: Ghost, x: Slot, e: Entry)
    requires Inv(s, g) && x in AllSlots() && g.lab[x.p].L0Of? && !At(s, x.p, x.k).valid
    requires e.valid && Blank(s, g, e.page)
    ensures Inv(SetEntry(s, x.p, x.k, e), Relabel(g, e.page, Plain))
  {
    AdoptLeafKeeps(s, g, x, e, e.page);
    var s1 := SetEntry(s, x.p, x.k, e);
    assert s1.tab[e.page := s1.tab[e.page]] == s1.tab;
    assert s1.bytes[e.page := s1.bytes[e.page]] == s1.bytes;
    assert CopyPage(s1, e.page, e.page) == s1;
  }

  function Link(p: int): Entry { Entry(p, false, false, false, true) }

  // Pages 0, 1, 2 are the tables and page 3 is mapped read-write at v.
  function MainState(v: Vpn): (s: State)
    requires VpnOk(v)
    ensures Ok(s)
  {
    var s1 := Allocate(EmptyPool(), 0);
    var s2 := SetEntry(Allocate(s1, 1), 0, v.l2, Link(1));
    var s3 := SetEntry(Allocate(s2, 2), 1, v.l1, Link(2));
    var s4 := SetEntry(Allocate(s3, 3), 2, v.l0, Entry(3, false, true, true, true));
    s4.(root := 0)
  }

  ghost function Fresh(g: Ghost, p: int, l: Label): (g': Ghost)
    requires GhostSized(g) && IsPage(p)
    ensures GhostSized(g')
  {
    Relabel(Relabel(g, p, Spare), p, l)
  }

  ghost predicate NoCustom(s: State) { forall p, k :: !At(s, p, k).custom }

  lemma LinkNoCustom(s: State, d: int, p: int, k: int, e: Entry)
    requires Ok(s) && NoCustom(s) && IsPage(d) && IsPage(p) && IsIndex(k) && (e.valid ==> IsPage(e.page)) && !e.custom
    ensures NoCustom(SetEntry(Allocate(s, d), p, k, e))
  {
    assert forall p', k' :: At(Allocate(s, d), p', k') == At(s, p', k');
  }

  lemma EmptyNoCustom()
    ensures NoCustom(Allocate(EmptyPool(), 0))
  {
  }

  lemma NoCustomTidy(s: State, s': State, g: Ghost)
    requires NoCustom(s) && s'.tab == s.tab
    ensures Tidy(s', g)
  {
    assert forall p, k :: At(s', p, k) == At(s, p, k);
  }

  lemma MainTidy(v: Vpn, g: Ghost)
    requires VpnOk(v)
    ensures Tidy(MainState(v), g)
  {
    hide NoCustom, Closed;
    var s1 := Allocate(EmptyPool(), 0);
    assert NoCustom(s1) by { EmptyNoCustom(); }
    LinkNoCustom(s1, 1, 0, v.l2, Link(1));
    var s2 := SetEntry(Allocate(s1, 1), 0, v.l2, Link(1));
    LinkNoCustom(s2, 2, 1, v.l1, Link(2));
    var s3 := SetEntry(Allocate(s2, 2), 1, v.l1, Link(2));
    var e := Entry(3, false, true, true, true);
    LinkNoCustom(s3, 3, 2, v.l0, e);
    NoCustomTidy(SetEntry(Allocate(s3, 3), 2, v.l0, e), MainState(v), g);
  }

  lemma MainStateInv(v: Vpn) returns (g: Ghost)
    requires VpnOk(v)
    ensures Inv(MainState(v), g) && g.roots == [0] && Current(MainState(v), g, 0) && Tidy(MainState(v), g)
    ensures MainState(v).used == 4
  {
    hide AllocatorOk, TreesOk, RefsOk, ExclusiveOk, InjectiveOk, Closed, Tidy;
    var s0, g0 := EmptyPool(), EmptyGhost();
    EmptyPoolInv();
    AllocateKeeps(s0, g0, 0);
    var s1, h0 := Allocate(s0, 0), Relabel(g0, 0, Spare);
    AdoptRootKeeps(s1, h0, 0);
    var g1 := Relabel(h0, 0, RootOf(0)).(roots := [0]);
    assert g1 == Relabel(h0, 0, RootOf(|h0.roots|)).(roots := h0.roots + [0]);
    AllocateKeeps(s1, g1, 1);
    AdoptL1Keeps(Allocate(s1, 1), Relabel(g1, 1, Spare), 0, v.l2, Link(1));
    var s2, g2 := SetEntry(Allocate(s1, 1), 0, v.l2, Link(1)), Fresh(g1, 1, L1Of(0, v.l2));
    AllocateKeeps(s2, g2, 2);
    AdoptL0Keeps(Allocate(s2, 2), Relabel(g2, 2, Spare), 0, v.l2, 1, v.l1, Link(2));
    var s3, g3 := SetEntry(Allocate(s2, 2), 1, v.l1, Link(2)), Fresh(g2, 2, L0Of(0, v.l2, v.l1));
    AllocateKeeps(s3, g3, 3);
    MapLeafKeeps(Allocate(s3, 3), Relabel(g3, 3, Spare), Slot(2, v.l0), Entry(3, false, true, true, true));
    var s4, g4 := SetEntry(Allocate(s3, 3), 2, v.l0, Entry(3, false, true, true, true)), Fresh(g3, 3, Plain);
    SwitchInv(s4, g4, 0);
    g := g4;
    MainTidy(v, g);
  }

  lemma MainView(v: Vpn)
    requires VpnOk(v)
    ensures View(MainState(v), 0, v) == Some(Cell(true, true, ZeroBytes()))
    ensures LeafSlot(MainState(v), 0, v) == Some(Slot(2, v.l0))
    ensures At(MainState(v), 2, v.l0).write
  {
  }

  lemma MainEntries(v: Vpn, p: int, k: int)
    requires VpnOk(v)
    ensures At(MainState(v), p, k) ==
      if p == 0 && k == v.l2 then Link(1)
      else if p == 1 && k == v.l1 then Link(2)
      else if p == 2 && k == v.l0 then Entry(3, false, true, true, true)
      else ZERO_ENTRY
  {
    var s1 := Allocate(EmptyPool(), 0);
    var s2 := SetEntry(Allocate(s1, 1), 0, v.l2, Link(1));
    var s3 := SetEntry(Allocate(s2, 2), 1, v.l1, Link(2));
    var s4 := SetEntry(Allocate(s3, 3), 2, v.l0, Entry(3, false, true, true, true));
    assert At(s1, p, k) == ZERO_ENTRY;
    assert At(Allocate(s1, 1), p, k) == At(s1, p, k) && At(Allocate(s2, 2), p, k) == At(s2, p, k);
    assert At(Allocate(s3, 3), p, k) == At(s3, p, k) && At(MainState(v), p, k) == At(s4, p, k);
  }

  lemma MainPool(v: Vpn)
    requires VpnOk(v)
    ensures var s := MainState(v);
      && s.used == |Allocated(s)|
      && (forall p | IsPage(p) :: s.alloc[p] <==> p < 4)
      && (forall p | IsPage(p) && !s.alloc[p] :: s.tab[p] == ZeroTable() && s.bytes[p] == ZeroBytes())
      && (forall p | IsPage(p) :: s.ref[p] == 0)
  {
    assert Allocated(MainState(v)) == {0, 1, 2, 3};
  }

  lemma MainPlaces(v: Vpn, a: Place)
    requires VpnOk(v) && Occupied(MainState(v), [0], a)
    ensures a == AtRoot(0) || a == AtL1(0, v.l2) || a == AtL0(0, v.l2, v.l1) || a == AtData(0, v.l2, v.l1, v.l0)
    ensures PageAt(MainState(v), [0], a) == if a.AtRoot? then 0 else if a.AtL1? then 1 else if a.AtL0? then 2 else 3
  {
    hide MainState;
    MainEntries(v, 0, v.l2);
    MainEntries(v, 1, v.l1);
    MainEntries(v, 2, v.l0);
    if !a.AtRoot? {
      MainEntries(v, 0, a.i);
      if !a.AtL1? {
        MainEntries(v, 1, a.j);
        if a.AtData? { MainEntries(v, 2, a.k); }
      }
    }
  }

  lemma MainTable(v: Vpn)
    requires VpnOk(v)
    ensures PageAt(MainState(v), [0], AtL0(0, v.l2, v.l1)) == 2
  {
    hide MainState;
    MainEntries(v, 0, v.l2);
    MainEntries(v, 1, v.l1);
  }

  // The main program's state is a well-formed start.
  lemma MainWellFormed(v: Vpn)
    requires VpnOk(v)
    ensures WellFormed(MainState(v), [0])
  {
    hide MainState, Closed, Occupied, PageAt;
    MainPool(v);
    forall a | Occupied(MainState(v), [0], a)
      ensures a == AtRoot(0) || a == AtL1(0, v.l2) || a == AtL0(0, v.l2, v.l1) || a == AtData(0, v.l2, v.l1, v.l0)
      ensures PageAt(MainState(v), [0], a) == if a.AtRoot? then 0 else if a.AtL1? then 1 else if a.AtL0? then 2 else 3
      ensures a.AtData? ==> !At(MainState(v), PageAt(MainState(v), [0], AtL0(a.t, a.i, a.j)), a.k).custom
    {
      MainPlaces(v, a);
      if a.AtData? {
        assert PageAt(MainState(v), [0], AtL0(0, v.l2, v.l1)) == 2 by { MainTable(v); }
        MainEntries(v, 2, v.l0);
      }
    }
  }

  // ---------------------------------------------------------------- mixing the two forks

  // A copy-on-write fork makes every leaf of the source that is not denied, whether
  // it is writable or carries a mark that waits or is lost, wait for its copy.
  lemma LazyForkMarks(s: State, g: Ghost, t: nat, d: int, s1: State, g1: Ghost, v: Vpn)
    requires ForkDone(Lazy, s, g, t, d, s1, g1) && VpnOk(v)
    ensures Pending(s1, g.roots[t], v) <==> View(s, g.roots[t], v).Some? && !MarkAt(s, g.roots[t], v).Denied?
  {
    hide ForkDone, LeafSlot;
    LazyForkSource(s, g, t, d, s1, g1, v);
  }

  lemma Small(s: State)
    requires s.used <= MAX_PAGES / 2
    ensures MayFork(s)
  {
  }

  lemma SmallTree(m: Mode, s: State, g: Ghost, t: nat, s1: State)
    requires Inv(s, g) && t < |g.roots| && s1.used == s.used + TreeCount(m, s, g.roots[t])
    ensures s1.used <= 2 * s.used
  {
    hide Inv;
    TreeSize(m, s, g, t);
  }

  // With a page free, a write to a page without write permission is fatal.
  lemma DeadWrite(s: State, g: Ghost, t: nat, d: int, v: Vpn, off: int, w: Word)
    requires Inv(s, g) && t < |g.roots| && g.roots[t] == d && VpnOk(v) && OffsetOk(off) && s.used < MAX_PAGES
    requires View(s, d, v).Some? && !View(s, d, v).value.write
    ensures IsPage(d) && Ok(s) && Write(s.(root := d), v, off, w) == WriteFatal
  {
    hide TreesOk, RefsOk, ExclusiveOk, InjectiveOk, Closed, View, Write, Clean, Tidy;
    RootPage(s, g, t);
    SwitchInv(s, g, t);
    var s' := s.(root := d);
    SameTabView(s, s', d, v);
    var g1 := WriteIsSpec(s', g, t, v, off, w);
    RoomMeansFree(s', g);
  }

  // The current space makes a copy-on-write fork and then an eager one, whose root is d.
  ghost predicate BothForks(s: State, s1: State, d: int, s2: State) {
    && Ok(s) && IsPage(s.root) && Fork(Lazy, s).Got? && Fork(Lazy, s).state == s1
    && s1.root == s.root && Fork(Eager, s1) == Got(d, s2)
  }

  // A write in the space with root d is fatal.
  ghost predicate FatalIn(s: State, d: int, v: Vpn, off: int, w: Word) {
    Ok(s) && IsPage(d) && VpnOk(v) && OffsetOk(off) && Write(s.(root := d), v, off, w) == WriteFatal
  }

  // An eager fork straight after a copy-on-write fork loses write permission:
  // the copied leaf keeps the mark, but its page is not counted, so a page that
  // the source may write is read-only in the copy, and a write to it is fatal.
  lemma EagerAfterLazy(s: State, g: Ghost, t: nat, v: Vpn, off: int, w: Word) returns (s1: State, d: int, s2: State, g2: Ghost)
    requires Inv(s, g) && Current(s, g, t) && s.used < MAX_PAGES / 4
    requires VpnOk(v) && OffsetOk(off) && View(s, s.root, v).Some? && View(s, s.root, v).value.write
    ensures BothForks(s, s1, d, s2)
    ensures View(s2, s.root, v).Some? && View(s2, s.root, v).value.write
    ensures View(s2, d, v).Some? && !View(s2, d, v).value.write && DeadMark(s2, d, v)
    ensures FatalIn(s2, d, v, off, w)
    ensures Inv(s2, g2) && |g2.roots| == |g.roots| + 2 && g2.roots[|g.roots| + 1] == d && s2.used <= 4 * s.used
  {
    hide Inv, View, Fork, MarkAt, Pending, MayFork, ForkDone, Write;
    RootPage(s, g, t);
    Small(s);
    ViewWrite(s, s.root, v);
    var d1, s1', g1 := ForkWorks(Lazy, s, g, t);
    s1 := s1';
    DoneShape(Lazy, s, g, t, d1, s1, g1);
    ForkShows(Lazy, s, g, t, d1, s1, g1, v);
    SmallTree(Lazy, s, g, t, s1);
    Small(s1);
    d, s2, g2 := ForkWorks(Eager, s1, g1, t);
    DoneShape(Eager, s1, g1, t, d, s2, g2);
    ForkShows(Eager, s1, g1, t, d, s2, g2, v);
    SmallTree(Eager, s1, g1, t, s2);
    ViewWrite(s2, s.root, v);
    ViewWrite(s2, d, v);
    DeadWrite(s2, g2, |g1.roots|, d, v, off, w);
  }

  // A state in which that happens: the main program's, after one fork of each kind.
  lemma EagerForkDropsMarks(v: Vpn, off: int, w: Word) returns (s1: State, d: int, s2: State)
    requires VpnOk(v) && OffsetOk(off)
    ensures MainState(v).root == 0 && BothForks(MainState(v), s1, d, s2)
    ensures View(s2, 0, v).Some? && View(s2, 0, v).value.write
    ensures View(s2, d, v).Some? && !View(s2, d, v).value.write
    ensures FatalIn(s2, d, v, off, w)
  {
    hide Inv, View, Fork, Tidy, Write, DeadMark;
    var g := MainStateInv(v);
    MainView(v);
    var s1', d', s2', g2 := EagerAfterLazy(MainState(v), g, 0, v, off, w);
    s1, d, s2 := s1', d', s2';
  }

  // A copy-on-write fork of a space gives the permission back that a dead mark has
  // lost, to that space and to the new one: the count that it adds makes the mark live.
  lemma LazyForkRevives(s: State, g: Ghost, t: nat, v: Vpn) returns (d: int, s1: State)
    requires Inv(s, g) && t < |g.roots| && s.used <= MAX_PAGES / 2 && VpnOk(v) && DeadMark(s, g.roots[t], v)
    ensures !View(s, g.roots[t], v).value.write
    ensures IsPage(g.roots[t]) && Fork(Lazy, s.(root := g.roots[t])) == Got(d, s1)
    ensures View(s1, g.roots[t], v).Some? && View(s1, g.roots[t], v).value.write && View(s1, d, v) == View(s1, g.roots[t], v)
  {
    hide Inv, View, Fork, MarkAt, MayFork, ForkDone;
    RootPage(s, g, t);
    ViewWrite(s, g.roots[t], v);
    SwitchInv(s, g, t);
    var c := s.(root := g.roots[t]);
    SameTabMarks(s, c, g.roots[t], v);
    Small(c);
    var d', s1', g1 := ForkWorks(Lazy, c, g, t);
    d, s1 := d', s1';
    LazyForkIff(c, g, t, d, s1, g1, v);
  }

  // A state in which a copy-on-write fork changes what the current space shows:
  // one fork of each kind, a switch to the eager copy, and one more fork.
  lemma LazyForkChangesView(v: Vpn, off: int, w: Word) returns (s1: State, d: int, s2: State, d3: int, s3: State)
    requires VpnOk(v) && OffsetOk(off)
    ensures BothForks(MainState(v), s1, d, s2)
    ensures FatalIn(s2, d, v, off, w)
    ensures Fork(Lazy, s2.(root := d)) == Got(d3, s3)
    ensures View(s3, d, v) != View(s2, d, v)
    ensures View(s3, d, v).Some? && View(s3, d, v).value.write && View(s3, d3, v) == View(s3, d, v)
  {
    hide Inv, View, Fork, Tidy, Write;
    var g := MainStateInv(v);
    MainView(v);
    var s1', d', s2', g2 := EagerAfterLazy(MainState(v), g, 0, v, off, w);
    s1, d, s2 := s1', d', s2';
    d3, s3 := LazyForkRevives(s2, g2, 2, v);
  }
}
