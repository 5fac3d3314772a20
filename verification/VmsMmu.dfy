// The page-fault handler keeps the invariant and every view.
module VmsMmu {
  import opened Common
  import opened VmsState
  import opened VmsInvariant
  import opened VmsForks
  import opened VmsSteps
  import opened VmsForkLeaf
  import opened VmsForkTree

  // ---------------------------------------------------------------- inner entries

  // A fault on an inner entry changes nothing: table pages are never counted.
  lemma HandleInner(s: State, g: Ghost, p: int, k: int)
    requires Inv(s, g) && IsPage(p) && IsIndex(k) && Inner(g.lab[p])
    ensures Handle(s, p, k) == Some(s)
  {
    hide AllocatorOk, ExclusiveOk, InjectiveOk, Closed;
    if At(s, p, k).valid {
      if g.lab[p].RootOf? { ChildOf2(s, g, p, k); } else { ChildOf1(s, g, p, k); }
      assert RefOk(s, g, At(s, p, k).page);
    }
  }

  // ---------------------------------------------------------------- un-sharing keeps views

  // The handler makes copies and nothing else.
  ghost predicate OnlyCopies(g: Ghost, g': Ghost)
    requires GhostSized(g) && GhostSized(g')
  {
    forall p | IsPage(p) :: g'.lab[p] == g.lab[p] || (g.lab[p].Free? && g'.lab[p].Copy?)
  }

  ghost predicate HandlerDone(s: State, g: Ghost, x: Slot, s': State, g': Ghost) {
    && Inv(s, g) && Inv(s', g') && IsLeaf(s, g, x) && IsLeaf(s', g', x)
    && g'.roots == g.roots && g'.forks == g.forks && s'.root == s.root
    && s'.used == s.used + (if !At(s, x.p, x.k).write && Ref(s, At(s, x.p, x.k).page) >= 2 then 1 else 0)
    && OnlyCopies(g, g')
    && (forall p | IsPage(p) && Inner(g.lab[p]) :: s'.tab[p] == s.tab[p])
    && At(s', x.p, x.k).read == At(s, x.p, x.k).read
    && At(s', x.p, x.k).write == Writable(s, At(s, x.p, x.k))
    && (forall y | IsLeaf(s, g, y) :: IsLeaf(s', g', y) && CellOf(s', At(s', y.p, y.k)) == CellOf(s, At(s, y.p, y.k)))
    && (forall y :: IsLeaf(s', g', y) <==> IsLeaf(s, g, y))
    && (forall y | IsLeaf(s, g, y) && y != x :: At(s', y.p, y.k) == At(s, y.p, y.k))
    && (Clean(s, g) ==> Clean(s', g')) && (Tidy(s, g) ==> Tidy(s', g'))
  }

  ghost predicate Faulting(s: State, g: Ghost, x: Slot, e: Entry) {
    && Inv(s, g) && LeafAt(s, g, x, e) && !e.write
  }

  lemma UpgradeMarks(s: State, g: Ghost, x: Slot, e: Entry)
    requires LeafAt(s, g, x, e)
    ensures Clean(s, g) ==> Clean(Upgrade(s, g, x, e), g)
    ensures Tidy(s, g) ==> Tidy(Upgrade(s, g, x, e), g)
  {
    hide Closed;
    var s' := Upgrade(s, g, x, e);
    forall y | IsLeaf(s', g, y) && y != x ensures Writable(s', At(s', y.p, y.k)) <==> Writable(s, At(s, y.p, y.k)) {
    }
  }

  lemma UpgradeDone(s: State, g: Ghost, x: Slot, e: Entry)
    requires Faulting(s, g, x, e) && s.ref[e.page] == 1 && e.custom
    ensures HandlerDone(s, g, x, Upgrade(s, g, x, e), g)
  {
    hide AllocatorOk, TreesOk, RefsOk, ExclusiveOk, InjectiveOk, Closed;
    UpgradeKeeps(s, g, x, e);
    assert forall y | IsLeaf(s, g, y) :: IsPage(y.p) && IsIndex(y.k);
    UpgradeMarks(s, g, x, e);
  }

  ghost predicate UnshareShape(s: State, g: Ghost, x: Slot, e: Entry, d: int) {
    LeafAt(s, g, x, e) && IsPage(d) && g.lab[d].Free? && d != e.page && s.ref[d] == 0
  }

  ghost predicate UnshareReady(s: State, g: Ghost, x: Slot, e: Entry, d: int) {
    && Faulting(s, g, x, e) && s.ref[e.page] >= 2 && IsPage(d) && !s.alloc[d]
    && UnshareShape(s, g, x, e, d)
  }

  lemma FreePageReady(s: State, g: Ghost, x: Slot, e: Entry, d: int)
    requires Faulting(s, g, x, e) && s.ref[e.page] >= 2 && IsPage(d) && !s.alloc[d]
    ensures UnshareReady(s, g, x, e, d)
  {
    hide TreesOk, ExclusiveOk, InjectiveOk, Slots, Closed;
    LeafOwned(s, g, x);
    assert RefOk(s, g, d);
  }

  ghost function UnshareInto(s: State, g: Ghost, x: Slot, e: Entry, d: int): (r: (State, Ghost))
    requires UnshareShape(s, g, x, e, d)
    ensures Ok(r.0) && GhostSized(r.1)
    ensures r.0 == s.(tab := r.0.tab, bytes := s.bytes[d := s.bytes[e.page]], alloc := s.alloc[d := true], used := s.used + 1,
      ref := s.ref[e.page := s.ref[e.page] - 1][d := 1])
    ensures r.1 == g.(lab := g.lab[d := Copy])
    ensures forall p, k | p != d :: At(r.0, p, k) == if p == x.p && k == x.k then Unmarked(e.(page := d)) else At(s, p, k)
  {
    var s1 := SetEntry(Allocate(s, d), x.p, x.k, Unmarked(e.(page := d)));
    var s2 := CopyPage(s1, d, e.page);
    (SetRef(SetRef(s2, e.page, s.ref[e.page] - 1), d, 1), Relabel(g, d, Copy))
  }

  lemma UnshareIntoInv(s: State, g: Ghost, x: Slot, e: Entry, d: int)
    requires UnshareReady(s, g, x, e, d)
    ensures Inv(UnshareInto(s, g, x, e, d).0, UnshareInto(s, g, x, e, d).1)
  {
    hide TreesOk, RefsOk, ExclusiveOk, InjectiveOk, Closed, Slots;
    var (s', g') := UnshareInto(s, g, x, e, d);
    var s1, g1 := Allocate(s, d), Relabel(g, d, Spare);
    AllocateKeeps(s, g, d);
    LeafOwned(s, g, x);
    var e' := Unmarked(e.(page := d));
    UnshareKeeps(s1, g1, x, e, e');
    assert Relabel(g1, d, Copy) == g';
    assert Unshare(s1, g1, x, e, e') == s';
  }

  lemma UnshareCells(s: State, g: Ghost, x: Slot, e: Entry, d: int)
    requires UnshareReady(s, g, x, e, d)
    ensures var (s', g') := UnshareInto(s, g, x, e, d);
      && (forall y :: IsLeaf(s', g', y) <==> IsLeaf(s, g, y))
      && (forall y | IsLeaf(s, g, y) :: CellOf(s', At(s', y.p, y.k)) == CellOf(s, At(s, y.p, y.k)))
  {
    hide AllocatorOk, TreesOk, RefsOk, ExclusiveOk, InjectiveOk, Closed, OwnOk;
    AllLeavesOwned(s, g);
  }

  lemma UnshareMarks(s: State, g: Ghost, s': State, g': Ghost, x: Slot)
    requires forall y :: IsLeaf(s', g', y) <==> IsLeaf(s, g, y)
    requires forall y | IsLeaf(s, g, y) :: CellOf(s', At(s', y.p, y.k)) == CellOf(s, At(s, y.p, y.k))
    requires forall y | IsLeaf(s, g, y) && y != x :: At(s', y.p, y.k) == At(s, y.p, y.k)
    requires !At(s', x.p, x.k).custom
    ensures Clean(s, g) ==> Clean(s', g')
    ensures Tidy(s, g) ==> Tidy(s', g')
  {
    forall y | IsLeaf(s', g', y) && y != x ensures Writable(s', At(s', y.p, y.k)) == Writable(s, At(s, y.p, y.k)) {
    }
  }

  lemma UnshareDone(s: State, g: Ghost, x: Slot, e: Entry, d: int)
    requires UnshareReady(s, g, x, e, d)
    ensures var (s', g') := UnshareInto(s, g, x, e, d); HandlerDone(s, g, x, s', g')
  {
    hide AllocatorOk, TreesOk, RefsOk, ExclusiveOk, InjectiveOk, Closed, Clean, Tidy;
    var (s', g') := UnshareInto(s, g, x, e, d);
    UnshareIntoInv(s, g, x, e, d);
    UnshareCells(s, g, x, e, d);
    AllLeavesOwned(s, g);
    UnshareMarks(s, g, s', g', x);
  }

  lemma NothingDone(s: State, g: Ghost, x: Slot, e: Entry)
    requires Inv(s, g) && LeafAt(s, g, x, e) && (e.write || s.ref[e.page] <= 0 || (s.ref[e.page] == 1 && !e.custom))
    ensures HandlerDone(s, g, x, s, g)
  {
    hide AllocatorOk, TreesOk, RefsOk, ExclusiveOk, InjectiveOk, Closed, Clean, Tidy;
  }

  lemma SetSame(s: State, p: int, k: int)
    requires Ok(s) && IsPage(p) && IsIndex(k)
    ensures SetEntry(s, p, k, At(s, p, k)) == s
  {
    assert s.tab[p][k := At(s, p, k)] == s.tab[p];
    assert s.tab[p := s.tab[p]] == s.tab;
  }

  // The handler on a leaf: it fails only for want of a page, takes at most one,
  // changes nothing that any program can observe, and leaves the leaf writable
  // exactly when it stands for a writable page.
  lemma HandleLeaf(s: State, g: Ghost, x: Slot) returns (g': Ghost)
    requires Inv(s, g) && IsLeaf(s, g, x)
    ensures Handle(s, x.p, x.k).None? <==>
      !At(s, x.p, x.k).write && Ref(s, At(s, x.p, x.k).page) >= 2 && NewPage(s).OutOfPages?
    ensures Handle(s, x.p, x.k).Some? ==> HandlerDone(s, g, x, Handle(s, x.p, x.k).value, g')
  {
    hide AllocatorOk, TreesOk, RefsOk, ExclusiveOk, InjectiveOk, Closed, HandlerDone;
    LeafOwned(s, g, x);
    var e := At(s, x.p, x.k);
    g' := g;
    if e.write || s.ref[e.page] <= 0 || (s.ref[e.page] == 1 && !e.custom) {
      NothingDone(s, g, x, e);
      SetSame(s, x.p, x.k);
    } else if s.ref[e.page] == 1 {
      UpgradeDone(s, g, x, e);
    } else if NewPage(s).Got? {
      var d := NewPage(s).page;
      FreePageReady(s, g, x, e, d);
      var r := UnshareInto(s, g, x, e, d);
      g' := r.1;
      UnshareDone(s, g, x, e, d);
    }
  }

  lemma NotLeafNoCell(s: State, g: Ghost, y: Slot)
    requires GhostSized(g) && y in AllSlots() && g.lab[y.p].L0Of?
    ensures CellOf(s, At(s, y.p, y.k)).None? <==> !IsLeaf(s, g, y)
  {
  }

  // A view read off a slot with a kept cell is kept.
  lemma HandlerViews(s: State, g: Ghost, x: Slot, s': State, g': Ghost, t: nat, v: Vpn)
    requires HandlerDone(s, g, x, s', g') && t < |g.roots| && VpnOk(v)
    ensures View(s', g.roots[t], v) == View(s, g.roots[t], v)
    ensures LeafSlot(s', g.roots[t], v) == LeafSlot(s, g.roots[t], v)
  {
    hide AllocatorOk, TreesOk, RefsOk, ExclusiveOk, InjectiveOk, Closed, Clean, Tidy, CellOf;
    SlotKept(s, g, s', t, v);
    match LeafSlot(s, g.roots[t], v)
    case None =>
    case Some(y) =>
      assert IsLeaf(s', g', y) <==> IsLeaf(s, g, y);
      NotLeafNoCell(s, g, y);
      NotLeafNoCell(s', g', y);
  }
}
