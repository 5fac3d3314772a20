// The atomic changes from which forks, page faults and writes are built, and
// the proof that each keeps the invariant.
module VmsSteps {
  import opened Common
  import opened VmsState
  import opened VmsInvariant
  import opened VmsForks

  // Two states with the same leaves in the same places.
  lemma SameLeaves(s: State, g: Ghost, s': State, g': Ghost)
    requires GhostSized(g) && GhostSized(g')
    requires forall x | x in AllSlots() :: IsLeaf(s', g', x) <==> IsLeaf(s, g, x)
    requires forall x | IsLeaf(s, g, x) ::
      At(s', x.p, x.k) == At(s, x.p, x.k) && g'.lab[x.p] == g.lab[x.p]
    ensures forall q :: Slots(s', g', q) == Slots(s, g, q)
    ensures ExclusiveOk(s, g) ==> ExclusiveOk(s', g')
    ensures InjectiveOk(s, g) ==> InjectiveOk(s', g')
  {
    forall q ensures Slots(s', g', q) == Slots(s, g, q) {
      assert forall x :: x in Slots(s', g', q) <==> x in Slots(s, g, q);
    }
  }

  ghost predicate InUse(l: Label) { !l.Free? && !l.Spare? }

  ghost predicate Inner(l: Label) { l.RootOf? || l.L1Of? }

  // The trees of (s, g) are still there in (s', g'): pages keep their use and
  // inner entries keep their value.
  ghost predicate Grows(s: State, g: Ghost, s': State, g': Ghost)
    requires GhostSized(g) && GhostSized(g')
  {
    && g.roots <= g'.roots
    && (forall p | IsPage(p) && InUse(g.lab[p]) :: g'.lab[p] == g.lab[p])
    && (forall p, k | IsPage(p) && IsIndex(k) && Inner(g.lab[p]) && At(s, p, k).valid :: At(s', p, k) == At(s, p, k))
  }

  lemma OwnGrows(s: State, g: Ghost, s': State, g': Ghost, p: int)
    requires GhostSized(g) && GhostSized(g') && TreesOk(s, g)
    requires Grows(s, g, s', g')
    requires IsPage(p) && InUse(g.lab[p])
    requires forall k | IsIndex(k) :: At(s', p, k) == At(s, p, k)
    ensures OwnOk(s', g', p)
  {
    assert OwnOk(s, g, p);
    match g.lab[p]
    case RootOf(t) =>
      forall i | IsIndex(i) ensures Owns(s', g', p, i, L1Of(t, i)) {
        assert Owns(s, g, p, i, L1Of(t, i));
      }
    case L1Of(t, i) =>
      assert g.lab[g.roots[t]] == RootOf(t);
      forall j | IsIndex(j) ensures Owns(s', g', p, j, L0Of(t, i, j)) {
        assert Owns(s, g, p, j, L0Of(t, i, j));
      }
    case L0Of(t, i, j) =>
      assert g.lab[g.roots[t]] == RootOf(t);
    case _ =>
  }

  lemma RefSame(s: State, g: Ghost, s': State, g': Ghost, q: int)
    requires Sized(s) && Sized(s') && GhostSized(g) && GhostSized(g')
    requires IsPage(q) && RefOk(s, g, q) && s'.ref[q] == s.ref[q] && g'.forks[q] == g.forks[q]
    requires g'.lab[q] == g.lab[q] || (!IsData(g.lab[q]) && !IsData(g'.lab[q]))
    requires Slots(s', g', q) == Slots(s, g, q)
    ensures RefOk(s', g', q)
  {
  }

  lemma AllocatorSame(s: State, g: Ghost, s': State, g': Ghost)
    requires Sized(s) && Sized(s') && GhostSized(g) && GhostSized(g')
    requires AllocatorOk(s, g) && s'.alloc == s.alloc && s'.used == s.used
    requires forall p | IsPage(p) ::
      (g'.lab[p].Free? <==> g.lab[p].Free?) && (g.lab[p].Free? ==> s'.tab[p] == s.tab[p] && s'.bytes[p] == s.bytes[p])
    ensures AllocatorOk(s', g')
  {
    assert Allocated(s') == Allocated(s);
  }

  // ---------------------------------------------------------------- allocation

  ghost predicate Blank(s: State, g: Ghost, p: int)
    requires Sized(s) && GhostSized(g)
  {
    && IsPage(p) && g.lab[p].Spare?
    && s.tab[p] == ZeroTable() && s.bytes[p] == ZeroBytes()
  }

  ghost function Relabel(g: Ghost, p: int, l: Label): (g': Ghost)
    requires GhostSized(g) && IsPage(p)
    ensures GhostSized(g')
  {
    g.(lab := g.lab[p := l])
  }

  lemma AllocateKeeps(s: State, g: Ghost, p: int)
    requires Inv(s, g) && IsPage(p) && !s.alloc[p]
    ensures Inv(Allocate(s, p), Relabel(g, p, Spare))
    ensures Blank(Allocate(s, p), Relabel(g, p, Spare), p)
  {
    var s', g' := Allocate(s, p), Relabel(g, p, Spare);
    assert AllocatorOk(s', g') by {
      assert Allocated(s') == Allocated(s) + {p};
    }
    SameLeaves(s, g, s', g');
    assert RootsOk(g');
    forall q | IsPage(q) ensures OwnOk(s', g', q) {
      if InUse(g.lab[q]) { OwnGrows(s, g, s', g', q); }
    }
    forall q | IsPage(q) ensures RefOk(s', g', q) {
      RefSame(s, g, s', g', q);
    }
  }

  // ---------------------------------------------------------------- table pages

  lemma AdoptRootKeeps(s: State, g: Ghost, p: int)
    requires Inv(s, g) && Blank(s, g, p)
    ensures Inv(s, Relabel(g, p, RootOf(|g.roots|)).(roots := g.roots + [p]))
  {
    var g' := Relabel(g, p, RootOf(|g.roots|)).(roots := g.roots + [p]);
    SameLeaves(s, g, s, g');
    forall q | IsPage(q) ensures OwnOk(s, g', q) {
      if InUse(g.lab[q]) { OwnGrows(s, g, s, g', q); }
    }
    forall q | IsPage(q) ensures RefOk(s, g', q) {
      RefSame(s, g, s, g', q);
    }
  }

  // The part of a link that is the same at both inner levels: entry k of inner
  // page p1 goes from invalid to a reference to the blank page e.page.
  lemma LinkRest(s: State, g: Ghost, p1: int, k: int, e: Entry, l: Label)
    requires Inv(s, g) && IsPage(p1) && IsIndex(k) && Inner(g.lab[p1]) && !At(s, p1, k).valid
    requires e.valid && Blank(s, g, e.page) && (l.L1Of? || l.L0Of?)
    ensures var s', g' := SetEntry(s, p1, k, e), Relabel(g, e.page, l);
      && AllocatorOk(s', g') && RootsOk(g') && RefsOk(s', g') && ExclusiveOk(s', g') && InjectiveOk(s', g')
      && (forall p | IsPage(p) && InUse(g.lab[p]) && p != p1 :: OwnOk(s', g', p))
  {
    var s', g' := SetEntry(s, p1, k, e), Relabel(g, e.page, l);
    SameLeaves(s, g, s', g');
    AllocatorSame(s, g, s', g');
    forall p | IsPage(p) && InUse(g.lab[p]) && p != p1 ensures OwnOk(s', g', p) {
      OwnGrows(s, g, s', g', p);
    }
    forall q | IsPage(q) ensures RefOk(s', g', q) {
      RefSame(s, g, s', g', q);
    }
  }

  lemma AdoptL1Keeps(s: State, g: Ghost, t: nat, i: int, e: Entry)
    requires Inv(s, g) && 0 <= t < |g.roots| && IsIndex(i)
    requires e.valid && Blank(s, g, e.page) && !At(s, g.roots[t], i).valid
    ensures Inv(SetEntry(s, g.roots[t], i, e), Relabel(g, e.page, L1Of(t, i)))
  {
    var r := g.roots[t];
    var s', g' := SetEntry(s, r, i, e), Relabel(g, e.page, L1Of(t, i));
    LinkRest(s, g, r, i, e, L1Of(t, i));
    assert OwnOk(s, g, r);
    forall i' | IsIndex(i') ensures Owns(s', g', r, i', L1Of(t, i')) {
      assert Owns(s, g, r, i', L1Of(t, i'));
    }
    assert OwnOk(s', g', r) && OwnOk(s', g', e.page);
  }

  lemma AdoptL0Keeps(s: State, g: Ghost, t: nat, i: int, p1: int, j: int, e: Entry)
    requires Inv(s, g) && IsPage(p1) && g.lab[p1] == L1Of(t, i) && IsIndex(j)
    requires e.valid && Blank(s, g, e.page) && !At(s, p1, j).valid
    ensures Inv(SetEntry(s, p1, j, e), Relabel(g, e.page, L0Of(t, i, j)))
  {
    var s', g' := SetEntry(s, p1, j, e), Relabel(g, e.page, L0Of(t, i, j));
    LinkRest(s, g, p1, j, e, L0Of(t, i, j));
    assert OwnOk(s, g, p1);
    forall j' | IsIndex(j') ensures Owns(s', g', p1, j', L0Of(t, i, j')) {
      assert Owns(s, g, p1, j', L0Of(t, i, j'));
    }
    assert HasL1(s', g', t, i, p1);
    assert OwnOk(s', g', p1) && OwnOk(s', g', e.page);
  }

  // ---------------------------------------------------------------- leaves

  ghost predicate LeafTargets(s: State, g: Ghost)
    requires GhostSized(g)
  {
    forall x | IsLeaf(s, g, x) :: IsPage(At(s, x.p, x.k).page) && IsData(g.lab[At(s, x.p, x.k).page])
  }

  // The trees stay in order when only L0 rows change and blank pages become
  // data pages.
  lemma LeafChangeKeepsTrees(s: State, g: Ghost, s': State, g': Ghost)
    requires GhostSized(g) && GhostSized(g') && TreesOk(s, g)
    requires g'.roots == g.roots
    requires forall p | IsPage(p) :: g'.lab[p] == g.lab[p] || (g.lab[p].Spare? && IsData(g'.lab[p]))
    requires forall p, k | IsPage(p) && IsIndex(k) && Inner(g.lab[p]) :: At(s', p, k) == At(s, p, k)
    requires LeafTargets(s', g')
    ensures TreesOk(s', g')
  {
    assert Grows(s, g, s', g');
    assert RootsOk(g');
    forall p | IsPage(p) ensures OwnOk(s', g', p) {
      assert OwnOk(s, g, p);
      if Inner(g.lab[p]) {
        OwnGrows(s, g, s', g', p);
      } else if g.lab[p].L0Of? {
        assert g.lab[g.roots[g.lab[p].t]] == RootOf(g.lab[p].t);
        assert forall k | IsIndex(k) && At(s', p, k).valid :: IsLeaf(s', g', Slot(p, k));
      }
    }
  }

  lemma LeafOwned(s: State, g: Ghost, x: Slot)
    requires Inv(s, g) && IsLeaf(s, g, x)
    ensures IsPage(At(s, x.p, x.k).page) && IsData(g.lab[At(s, x.p, x.k).page])
  {
    assert OwnOk(s, g, x.p);
  }

  lemma AllLeavesOwned(s: State, g: Ghost)
    requires Inv(s, g)
    ensures LeafTargets(s, g)
  {
    forall x | IsLeaf(s, g, x) ensures IsPage(At(s, x.p, x.k).page) && IsData(g.lab[At(s, x.p, x.k).page]) {
      LeafOwned(s, g, x);
    }
  }

  // No leaf refers to a page that is not a data page.
  lemma NoSlots(s: State, g: Ghost, q: int)
    requires Inv(s, g) && (IsPage(q) ==> !IsData(g.lab[q]))
    ensures Slots(s, g, q) == {}
  {
    forall x ensures x !in Slots(s, g, q) {
      if IsLeaf(s, g, x) { LeafOwned(s, g, x); }
    }
  }

  // One more leaf, at x, and it refers to page d, to which nothing else does.
  lemma LeavesPlus(s: State, g: Ghost, s': State, g': Ghost, x: Slot, d: int)
    requires Inv(s, g) && GhostSized(g')
    requires IsPage(d) && !IsData(g.lab[d])
    requires IsLeaf(s', g', x) && At(s', x.p, x.k).page == d && !IsLeaf(s, g, x)
    requires forall y | y in AllSlots() && y != x :: IsLeaf(s', g', y) <==> IsLeaf(s, g, y)
    requires forall y | IsLeaf(s, g, y) :: At(s', y.p, y.k) == At(s, y.p, y.k) && g'.lab[y.p] == g.lab[y.p]
    ensures Slots(s', g', d) == {x}
    ensures forall q | q != d :: Slots(s', g', q) == Slots(s, g, q)
    ensures ExclusiveOk(s', g') && InjectiveOk(s', g')
  {
    NoSlots(s, g, d);
    assert forall y :: y in Slots(s', g', d) ==> y == x || y in Slots(s, g, d);
    assert Slots(s', g', d) == {x};
    forall q | q != d ensures Slots(s', g', q) == Slots(s, g, q) {
      assert forall y :: y in Slots(s', g', q) <==> y in Slots(s, g, q);
    }
    forall y | IsLeaf(s', g', y) && y != x ensures At(s', y.p, y.k).page != d {
      LeafOwned(s, g, y);
    }
  }

  // Entry x of an L0 page goes from invalid to the sole reference to a blank
  // page, which takes the content of page src: a leaf of an eager fork.
  ghost predicate CanAdoptLeaf(s: State, g: Ghost, x: Slot, e: Entry, src: int) {
    && Inv(s, g) && x in AllSlots() && g.lab[x.p].L0Of? && !At(s, x.p, x.k).valid
    && e.valid && Blank(s, g, e.page) && IsPage(src)
  }

  ghost function AdoptLeaf(s: State, g: Ghost, x: Slot, e: Entry, src: int): (r: (State, Ghost))
    requires CanAdoptLeaf(s, g, x, e, src)
    ensures Ok(r.0) && GhostSized(r.1)
    ensures r.0 == s.(tab := r.0.tab, bytes := s.bytes[e.page := s.bytes[src]])
    ensures forall p, k | p != e.page :: At(r.0, p, k) == if p == x.p && k == x.k then e else At(s, p, k)
  {
    (CopyPage(SetEntry(s, x.p, x.k, e), e.page, src), Relabel(g, e.page, Plain))
  }

  lemma AdoptLeafShape(s: State, g: Ghost, x: Slot, e: Entry, src: int)
    requires CanAdoptLeaf(s, g, x, e, src)
    ensures var (s', g') := AdoptLeaf(s, g, x, e, src);
      && AllocatorOk(s', g') && TreesOk(s', g') && ExclusiveOk(s', g') && InjectiveOk(s', g')
      && Slots(s', g', e.page) == {x}
      && forall q | q != e.page :: Slots(s', g', q) == Slots(s, g, q)
  {
    hide OwnOk, RefOk, Allocated, Closed, Slots;
    var (s', g') := AdoptLeaf(s, g, x, e, src);
    AllocatorSame(s, g, s', g');
    AllLeavesOwned(s, g);
    LeavesPlus(s, g, s', g', x, e.page);
    LeafChangeKeepsTrees(s, g, s', g');
  }

  lemma AdoptLeafKeeps(s: State, g: Ghost, x: Slot, e: Entry, src: int)
    requires CanAdoptLeaf(s, g, x, e, src)
    ensures var (s', g') := AdoptLeaf(s, g, x, e, src); Inv(s', g')
  {
    var (s', g') := AdoptLeaf(s, g, x, e, src);
    AdoptLeafShape(s, g, x, e, src);
    forall q | IsPage(q) ensures RefOk(s', g', q) {
      assert RefOk(s, g, q);
    }
  }

  // ---------------------------------------------------------------- the fault handler

  // The same leaves refer to the same pages; only permissions may differ.
  lemma SameTargets(s: State, g: Ghost, s': State, g': Ghost)
    requires GhostSized(g) && GhostSized(g')
    requires forall x | x in AllSlots() :: IsLeaf(s', g', x) <==> IsLeaf(s, g, x)
    requires forall x | IsLeaf(s, g, x) ::
      At(s', x.p, x.k).page == At(s, x.p, x.k).page && g'.lab[x.p] == g.lab[x.p]
    ensures forall q :: Slots(s', g', q) == Slots(s, g, q)
    ensures InjectiveOk(s, g) ==> InjectiveOk(s', g')
  {
    forall q ensures Slots(s', g', q) == Slots(s, g, q) {
      assert forall x :: x in Slots(s', g', q) <==> x in Slots(s, g, q);
    }
  }

  ghost predicate LeafAt(s: State, g: Ghost, x: Slot, e: Entry) {
    && Ok(s) && GhostSized(g)
    && IsLeaf(s, g, x) && At(s, x.p, x.k) == e && IsPage(e.page)
  }

  ghost function Upgrade(s: State, g: Ghost, x: Slot, e: Entry): (s': State)
    requires LeafAt(s, g, x, e)
    ensures Ok(s')
    ensures forall p, k :: At(s', p, k) == if p == x.p && k == x.k then e.(write := true, custom := false) else At(s, p, k)
  {
    SetEntry(s, x.p, x.k, e.(write := true, custom := false))
  }

  lemma UpgradeExclusive(s: State, g: Ghost, x: Slot, e: Entry)
    requires LeafAt(s, g, x, e) && ExclusiveOk(s, g) && |Slots(s, g, e.page)| <= 1
    ensures ExclusiveOk(Upgrade(s, g, x, e), g)
  {
    forall y | IsLeaf(s, g, y) && At(s, y.p, y.k).page == e.page ensures y == x {
      AtMostOne(Slots(s, g, e.page), x, y);
    }
  }

  // Rewriting permissions in L0 rows keeps everything but exclusiveness.
  lemma LeafRewriteKeeps(s: State, g: Ghost, s': State)
    requires Inv(s, g) && Ok(s')
    requires s' == s.(tab := s'.tab)
    requires forall q :: Slots(s', g, q) == Slots(s, g, q)
    requires forall p | IsPage(p) && !g.lab[p].L0Of? :: s'.tab[p] == s.tab[p]
    requires forall x | IsLeaf(s', g, x) :: IsLeaf(s, g, x) && At(s', x.p, x.k).page == At(s, x.p, x.k).page
    ensures AllocatorOk(s', g) && TreesOk(s', g) && RefsOk(s', g)
  {
    AllocatorSame(s, g, s', g);
    AllLeavesOwned(s, g);
    LeafChangeKeepsTrees(s, g, s', g);
    forall q | IsPage(q) ensures RefOk(s', g, q) {
      RefSame(s, g, s', g, q);
    }
  }

  // ref_num has come down to 1: the mark is turned back into write permission.
  lemma UpgradeKeeps(s: State, g: Ghost, x: Slot, e: Entry)
    requires Inv(s, g) && LeafAt(s, g, x, e) && !e.write && s.ref[e.page] == 1
    ensures Inv(Upgrade(s, g, x, e), g)
  {
    var s' := Upgrade(s, g, x, e);
    LeafOwned(s, g, x);
    RefOneMeansSole(s, g, e.page);
    UpgradeExclusive(s, g, x, e);
    SameTargets(s, g, s', g);
    LeafRewriteKeeps(s, g, s');
  }

  // ref_num is 2 or more: leaf x moves to a page of its own with the same content.
  ghost predicate UnshareArgs(s: State, g: Ghost, x: Slot, e: Entry, e': Entry) {
    && LeafAt(s, g, x, e) && e'.valid && Blank(s, g, e'.page) && e'.page != e.page
  }

  ghost function Unshare(s: State, g: Ghost, x: Slot, e: Entry, e': Entry): (s': State)
    requires UnshareArgs(s, g, x, e, e')
    ensures Ok(s')
    ensures s' == s.(tab := s'.tab, bytes := s.bytes[e'.page := s.bytes[e.page]],
      ref := s.ref[e.page := s.ref[e.page] - 1][e'.page := s.ref[e'.page] + 1])
    ensures forall p, k | p != e'.page :: At(s', p, k) == if p == x.p && k == x.k then e' else At(s, p, k)
  {
    var s1 := CopyPage(SetEntry(s, x.p, x.k, e'), e'.page, e.page);
    SetRef(SetRef(s1, e.page, s.ref[e.page] - 1), e'.page, s.ref[e'.page] + 1)
  }

  lemma UnshareSlots(s: State, g: Ghost, s': State, g': Ghost, x: Slot, q: int, d: int)
    requires GhostSized(g) && GhostSized(g')
    requires LeafTargets(s, g) && ExclusiveOk(s, g) && InjectiveOk(s, g)
    requires IsLeaf(s, g, x) && !At(s, x.p, x.k).write && At(s, x.p, x.k).page == q
    requires IsLeaf(s', g', x) && At(s', x.p, x.k).page == d && g'.lab[x.p] == g.lab[x.p]
    requires IsPage(d) && !IsData(g.lab[d])
    requires forall y | y in AllSlots() && y != x :: IsLeaf(s', g', y) <==> IsLeaf(s, g, y)
    requires forall y | IsLeaf(s, g, y) && y != x :: At(s', y.p, y.k) == At(s, y.p, y.k) && g'.lab[y.p] == g.lab[y.p]
    ensures ExclusiveOk(s', g') && InjectiveOk(s', g')
    ensures Slots(s', g', d) == {x}
    ensures x in Slots(s, g, q) && Slots(s', g', q) == Slots(s, g, q) - {x}
    ensures forall q' | q' != d && q' != q :: Slots(s', g', q') == Slots(s, g, q')
  {
    assert forall y :: y in Slots(s', g', d) <==> y == x;
    assert forall y :: y in Slots(s', g', q) <==> y != x && y in Slots(s, g, q);
    forall q' | q' != d && q' != q ensures Slots(s', g', q') == Slots(s, g, q') {
      assert forall y :: y in Slots(s', g', q') <==> y in Slots(s, g, q');
    }
  }

  lemma UnshareTrees(s: State, g: Ghost, x: Slot, e: Entry, e': Entry)
    requires UnshareArgs(s, g, x, e, e') && TreesOk(s, g) && LeafTargets(s, g)
    ensures TreesOk(Unshare(s, g, x, e, e'), Relabel(g, e'.page, Copy))
  {
    hide OwnOk, RefOk, Allocated, Closed, Slots;
    var s', g' := Unshare(s, g, x, e, e'), Relabel(g, e'.page, Copy);
    LeafChangeKeepsTrees(s, g, s', g');
  }

  lemma UnshareRefs(s: State, g: Ghost, s': State, g': Ghost, x: Slot, q: int, d: int)
    requires Sized(s) && Sized(s') && GhostSized(g) && GhostSized(g')
    requires RefsOk(s, g) && IsPage(q) && IsPage(d) && q != d && IsData(g.lab[q]) && !IsData(g.lab[d])
    requires s'.ref == s.ref[q := s.ref[q] - 1][d := s.ref[d] + 1]
    requires g' == Relabel(g, d, Copy)
    requires Slots(s', g', d) == {x} && x in Slots(s, g, q) && Slots(s', g', q) == Slots(s, g, q) - {x}
    requires forall q' | q' != d && q' != q :: Slots(s', g', q') == Slots(s, g, q')
    ensures RefsOk(s', g')
  {
    forall q' | IsPage(q') ensures RefOk(s', g', q') {
      assert RefOk(s, g, q');
    }
  }

  lemma UnshareKeeps(s: State, g: Ghost, x: Slot, e: Entry, e': Entry)
    requires Inv(s, g) && UnshareArgs(s, g, x, e, e') && !e.write && s.ref[e.page] >= 2
    ensures Inv(Unshare(s, g, x, e, e'), Relabel(g, e'.page, Copy))
  {
    hide OwnOk, RefOk, Allocated, Closed, Slots;
    var s', g' := Unshare(s, g, x, e, e'), Relabel(g, e'.page, Copy);
    AllLeavesOwned(s, g);
    UnshareSlots(s, g, s', g', x, e.page, e'.page);
    UnshareTrees(s, g, x, e, e');
    AllocatorSame(s, g, s', g');
    UnshareRefs(s, g, s', g', x, e.page, e'.page);
  }

  // ---------------------------------------------------------------- sharing

  // Leaf x of one space is shared with slot y of another.
  ghost predicate ShareArgs(s: State, g: Ghost, x: Slot, y: Slot, e: Entry) {
    && LeafAt(s, g, x, e)
    && y in AllSlots() && g.lab[y.p].L0Of? && !At(s, y.p, y.k).valid
  }

  ghost predicate Unmapped(s: State, g: Ghost, t: nat, q: int)
    requires GhostSized(g)
  {
    forall z | IsLeaf(s, g, z) && g.lab[z.p].t == t :: At(s, z.p, z.k).page != q
  }

  ghost function Share(s: State, g: Ghost, x: Slot, y: Slot, e: Entry): (s': State)
    requires ShareArgs(s, g, x, y, e)
    ensures Ok(s')
    ensures s' == s.(tab := s'.tab, ref := s.ref[e.page := s.ref[e.page] + 2])
    ensures forall p, k :: At(s', p, k) == (if (p == x.p && k == x.k) || (p == y.p && k == y.k) then Marked(e) else At(s, p, k))
  {
    var s1 := SetEntry(SetEntry(s, y.p, y.k, Marked(e)), x.p, x.k, Marked(e));
    SetRef(s1, e.page, s.ref[e.page] + 2)
  }

  ghost function ShareGhost(g: Ghost, q: int): (g': Ghost)
    requires GhostSized(g) && IsPage(q)
    ensures GhostSized(g')
  {
    g.(forks := g.forks[q := g.forks[q] + 1])
  }

  lemma ShareSlots(s: State, g: Ghost, s': State, g': Ghost, x: Slot, y: Slot, e: Entry)
    requires GhostSized(g) && GhostSized(g') && g'.lab == g.lab
    requires LeafTargets(s, g) && ExclusiveOk(s, g) && InjectiveOk(s, g)
    requires IsLeaf(s, g, x) && !IsLeaf(s, g, y) && e == At(s, x.p, x.k)
    requires IsLeaf(s', g', y) && Unmapped(s, g, g.lab[y.p].t, e.page)
    requires At(s', x.p, x.k) == At(s', y.p, y.k) == Marked(e)
    requires forall z | z in AllSlots() && z != y :: IsLeaf(s', g', z) <==> IsLeaf(s, g, z)
    requires forall z | z in AllSlots() && z != x && z != y :: At(s', z.p, z.k) == At(s, z.p, z.k)
    ensures ExclusiveOk(s', g') && InjectiveOk(s', g') && LeafTargets(s', g')
    ensures y !in Slots(s, g, e.page) && Slots(s', g', e.page) == Slots(s, g, e.page) + {y}
    ensures forall q' | q' != e.page :: Slots(s', g', q') == Slots(s, g, q')
  {
    assert forall z :: z in Slots(s', g', e.page) <==> z == y || z in Slots(s, g, e.page);
    forall q' | q' != e.page ensures Slots(s', g', q') == Slots(s, g, q') {
      assert forall z :: z in Slots(s', g', q') <==> z in Slots(s, g, q');
    }
  }

  lemma ShareTrees(s: State, g: Ghost, x: Slot, y: Slot, e: Entry)
    requires ShareArgs(s, g, x, y, e) && TreesOk(s, g)
    requires LeafTargets(Share(s, g, x, y, e), ShareGhost(g, e.page))
    ensures TreesOk(Share(s, g, x, y, e), ShareGhost(g, e.page))
  {
    LeafChangeKeepsTrees(s, g, Share(s, g, x, y, e), ShareGhost(g, e.page));
  }

  lemma ShareRefs(s: State, g: Ghost, s': State, g': Ghost, y: Slot, q: int)
    requires Sized(s) && Sized(s') && GhostSized(g)
    requires RefsOk(s, g) && IsPage(q) && IsData(g.lab[q])
    requires s'.ref == s.ref[q := s.ref[q] + 2]
    requires g' == ShareGhost(g, q)
    requires y !in Slots(s, g, q) && Slots(s', g', q) == Slots(s, g, q) + {y}
    requires forall q' | q' != q :: Slots(s', g', q') == Slots(s, g, q')
    ensures RefsOk(s', g')
  {
    forall q' | IsPage(q') ensures RefOk(s', g', q') {
      assert RefOk(s, g, q');
    }
  }

  lemma ShareKeeps(s: State, g: Ghost, x: Slot, y: Slot, e: Entry)
    requires Inv(s, g) && ShareArgs(s, g, x, y, e) && Unmapped(s, g, g.lab[y.p].t, e.page)
    ensures Inv(Share(s, g, x, y, e), ShareGhost(g, e.page))
  {
    hide OwnOk, RefOk, Allocated, Closed, Slots;
    var s', g' := Share(s, g, x, y, e), ShareGhost(g, e.page);
    LeafOwned(s, g, x);
    AllLeavesOwned(s, g);
    ShareSlots(s, g, s', g', x, y, e);
    ShareTrees(s, g, x, y, e);
    AllocatorSame(s, g, s', g');
    ShareRefs(s, g, s', g', y, e.page);
  }

  // ---------------------------------------------------------------- free pages

  lemma FullMeansUsed(s: State)
    requires Sized(s) && forall p | IsPage(p) :: s.alloc[p]
    ensures |Allocated(s)| == MAX_PAGES
  {
    assert Allocated(s) == Below(MAX_PAGES);
  }

  lemma RoomMeansFree(s: State, g: Ghost)
    requires Ok(s) && GhostSized(g) && AllocatorOk(s, g) && s.used < MAX_PAGES
    ensures NewPage(s).Got?
  {
    if NewPage(s).OutOfPages? {
      FullMeansUsed(s);
    }
  }
}
