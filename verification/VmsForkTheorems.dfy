// What a fork does for the program that calls it.
module VmsForkTheorems {
  import opened VmsState
  import opened VmsInvariant
  import opened VmsSteps
  import opened VmsForks
  import opened VmsForkLeaf
  import opened VmsForkTree
  import opened VmsPageCount

  // Space t is the current one.
  ghost predicate Current(s: State, g: Ghost, t: nat) { t < |g.roots| && s.root == g.roots[t] }

  // ---------------------------------------------------------------- the new root

  lemma NoLeafYet(s: State, g: Ghost, d: int, s1: State, g1: Ghost)
    requires Inv(s, g) && IsPage(d) && !s.alloc[d]
    requires s1 == Allocate(s, d) && g1 == Relabel(g, d, RootOf(|g.roots|)).(roots := g.roots + [d])
    ensures forall x :: (IsLeaf(s1, g1, x) <==> IsLeaf(s, g, x))
    ensures forall x | IsLeaf(s, g, x) :: g.lab[x.p].t < |g.roots| && g1.lab[x.p] == g.lab[x.p] && At(s1, x.p, x.k) == At(s, x.p, x.k)
  {
    forall x | IsLeaf(s, g, x) ensures g.lab[x.p].t < |g.roots| {
      assert OwnOk(s, g, x.p);
    }
  }

  lemma NewRoot(m: Mode, s: State, g: Ghost, ts: nat, d: int, s1: State, g1: Ghost)
    requires Inv(s, g) && ts < |g.roots| && IsPage(d) && !s.alloc[d]
    requires s1 == Allocate(s, d) && g1 == Relabel(g, d, RootOf(|g.roots|)).(roots := g.roots + [d])
    ensures Inv(s1, g1) && DstOk(m, s1, g1, ts, |g.roots|)
    ensures Roots(g1, ts, |g.roots|, g.roots[ts], d)
    ensures forall k :: !At(s1, d, k).valid
    ensures forall q :: !Refers(s1, g1, |g.roots|, q)
    ensures Clean(s, g) ==> Clean(s1, g1)
    ensures NoMarks(s, g, ts) ==> NoMarks(s1, g1, ts)
    ensures Tidy(s, g) ==> Tidy(s1, g1)
  {
    hide RefsOk, ExclusiveOk, InjectiveOk, Closed, OwnOk;
    var g0 := Relabel(g, d, Spare);
    AllocateKeeps(s, g, d);
    AdoptRootKeeps(s1, g0, d);
    assert g1 == Relabel(g0, d, RootOf(|g0.roots|)).(roots := g0.roots + [d]);
    NoLeafYet(s, g, d, s1, g1);
  }

  // ---------------------------------------------------------------- the fork

  // The guard leaves room for the copy of every page of the space.
  lemma GuardLeavesRoom(m: Mode, s: State, g: Ghost, t: nat)
    requires Inv(s, g) && t < |g.roots| && MayFork(s)
    ensures s.used + TreeCount(m, s, g.roots[t]) <= MAX_PAGES
  {
    hide AllocatorOk, TreesOk, RefsOk, ExclusiveOk, InjectiveOk, Closed;
    TreeSize(m, s, g, t);
  }

  ghost predicate ForkDone(m: Mode, s: State, g: Ghost, t: nat, d: int, s': State, g': Ghost) {
    && Inv(s, g) && Inv(s', g') && t < |g.roots| && IsPage(d)
    && g'.roots == g.roots + [d] && s'.root == s.root && g.lab[d].Free?
    && s'.used == s.used + TreeCount(m, s, g.roots[t])
    && Mirror2(m, s', g.roots[t], d)
    && DstOk(m, s', g', t, |g.roots|)
    && (forall q | IsPage(q) :: g'.forks[q] == g.forks[q] + if m.Lazy? && Refers(s', g', |g.roots|, q) then 1 else 0)
    && (forall p | IsPage(p) && !g.lab[p].Free? :: g'.lab[p] == g.lab[p] && s'.bytes[p] == s.bytes[p])
    && (forall p | IsPage(p) && g.lab[p].Free? :: !g'.lab[p].Copy?)
    && (m.Eager? ==> s'.ref == s.ref && forall p | IsPage(p) && !g.lab[p].Free? :: s'.tab[p] == s.tab[p])
    && MarksKept(m, s, g, s', g', t)
    && OldLeaves(m, s, g, s', |g.roots|)
    && (forall p | IsPage(p) && !g.lab[p].Free? && !(g.lab[p].L0Of? && g.lab[p].t == t) :: s'.tab[p] == s.tab[p])
    && (m.Eager? || Clean(s, g) ==> SameViews(s, g, s', |g.roots|))
  }

  lemma DoneShape(m: Mode, s: State, g: Ghost, t: nat, d: int, s': State, g': Ghost)
    requires ForkDone(m, s, g, t, d, s', g')
    ensures Inv(s', g') && g'.roots == g.roots + [d] && s'.root == s.root && t < |g.roots|
    ensures s'.used == s.used + TreeCount(m, s, g.roots[t])
  {
    hide Inv;
  }

  lemma {:induction false} Count2Same(m: Mode, s: State, s1: State, r: int)
    requires s1.tab == s.tab
    ensures Count2(m, s1, r, 0) == Count2(m, s, r, 0)
  {
    Count2Frame(m, s, s1, r, 0);
  }

  lemma MarksChain(m: Mode, s: State, g: Ghost, s1: State, g1: Ghost, s': State, g': Ghost, t: nat)
    requires Clean(s, g) ==> Clean(s1, g1)
    requires NoMarks(s, g, t) ==> NoMarks(s1, g1, t)
    requires Tidy(s, g) ==> Tidy(s1, g1)
    requires MarksKept(m, s1, g1, s', g', t)
    ensures MarksKept(m, s, g, s', g', t)
  {
    hide Clean, NoMarks, Tidy;
  }

  ghost predicate ForkReady(m: Mode, s: State, g: Ghost, t: nat, d: int, s1: State, g1: Ghost, s': State, g': Ghost) {
    && Inv(s, g) && Current(s, g, t) && IsPage(d) && !s.alloc[d] && g.lab[d].Free?
    && s1 == Allocate(s, d) && g1 == Relabel(g, d, RootOf(|g.roots|)).(roots := g.roots + [d])
    && (Clean(s, g) ==> Clean(s1, g1)) && (NoMarks(s, g, t) ==> NoMarks(s1, g1, t)) && (Tidy(s, g) ==> Tidy(s1, g1))
    && Count2(m, s1, s.root, 0) == Count2(m, s, s.root, 0)
    && (forall q :: !Refers(s1, g1, |g.roots|, q))
    && Roots(g1, t, |g.roots|, s.root, d) && Fork2Done(m, s1, g1, t, |g.roots|, s.root, d, 0, s', g')
  }

  lemma SameTabView(s: State, s1: State, r: int, v: Vpn)
    requires s1.tab == s.tab && s1.ref == s.ref && s1.bytes == s.bytes
    ensures View(s1, r, v) == View(s, r, v)
  {
  }

  lemma ForkViews(m: Mode, s: State, g: Ghost, t: nat, d: int, s1: State, g1: Ghost, s': State, g': Ghost)
    requires ForkReady(m, s, g, t, d, s1, g1, s', g') && (m.Eager? || Clean(s, g))
    ensures SameViews(s, g, s', |g.roots|)
  {
    hide AllocatorOk, TreesOk, RefsOk, ExclusiveOk, InjectiveOk, Closed, View, DstOk, MarksKept, Mirror2At,
      Clean, NoMarks, Tidy, Refers, RowsKept2;
    forall t', v | 0 <= t' < |g.roots| && VpnOk(v) ensures SameView(s, g, s', t', v) {
      assert SameView(s1, g1, s', t', v);
      SameTabView(s, s1, g.roots[t'], v);
    }
  }

  lemma ForkFinish(m: Mode, s: State, g: Ghost, t: nat, d: int, s1: State, g1: Ghost, s': State, g': Ghost)
    requires ForkReady(m, s, g, t, d, s1, g1, s', g')
    ensures ForkDone(m, s, g, t, d, s', g')
  {
    hide AllocatorOk, TreesOk, RefsOk, ExclusiveOk, InjectiveOk, Closed, DstOk, MarksKept, Mirror2At,
      SameViews, Clean, NoMarks, Tidy, Refers, Count2;
    MarksChain(m, s, g, s1, g1, s', g', t);
    if m.Eager? || Clean(s, g) { ForkViews(m, s, g, t, d, s1, g1, s', g'); }
  }

  // From any good state a fork that passes its guard does not run out of pages,
  // keeps the invariant and builds a mirror of the current space.
  lemma ForkWorks(m: Mode, s: State, g: Ghost, t: nat) returns (d: int, s': State, g': Ghost)
    requires Inv(s, g) && Current(s, g, t) && MayFork(s)
    ensures IsPage(s.root) && Fork(m, s) == Got(d, s')
    ensures ForkDone(m, s, g, t, d, s', g')
  {
    hide TreesOk, RefsOk, ExclusiveOk, InjectiveOk, Closed, View, DstOk, MarksKept, Mirror2At, Clean, NoMarks,
      Tidy, Refers, ForksCounted;
    RootLabel(s, g, t);
    GuardLeavesRoom(m, s, g, t);
    RoomMeansFree(s, g);
    d := NewPage(s).page;
    var s1, g1 := Allocate(s, d), Relabel(g, d, RootOf(|g.roots|)).(roots := g.roots + [d]);
    NewRoot(m, s, g, t, d, s1, g1);
    Count2Same(m, s, s1, s.root);
    s', g' := Fork2(m, s1, g1, t, |g.roots|, s.root, d, 0);
    ForkFinish(m, s, g, t, d, s1, g1, s', g');
  }

  // ---------------------------------------------------------------- views of the copy

  lemma MirrorSlots(m: Mode, s: State, rs: int, rd: int, v: Vpn)
    requires Mirror2(m, s, rs, rd) && VpnOk(v)
    ensures LeafSlot(s, rs, v).Some? <==> LeafSlot(s, rd, v).Some?
    ensures LeafSlot(s, rs, v).Some? ==>
      var x, y := LeafSlot(s, rs, v).value, LeafSlot(s, rd, v).value;
      LeafMirror(m, s, At(s, x.p, x.k), At(s, y.p, y.k))
  {
    assert Mirror2At(m, s, rs, rd, v.l2);
    if At(s, rs, v.l2).valid {
      var p, q := At(s, rs, v.l2).page, At(s, rd, v.l2).page;
      assert Mirror1At(m, s, p, q, v.l1);
      if At(s, p, v.l1).valid {
        assert Mirror0At(m, s, At(s, p, v.l1).page, At(s, q, v.l1).page, v.l0);
      }
    }
  }

  lemma LazyLeafCell(s: State, rs: int, rd: int, v: Vpn)
    requires Mirror2(Lazy, s, rs, rd) && VpnOk(v)
    ensures View(s, rd, v) == View(s, rs, v)
  {
    hide Mirror2;
    MirrorSlots(Lazy, s, rs, rd, v);
  }

  // A copy-on-write fork changes nothing that any program can observe, and the
  // new space looks exactly like the current one.
  lemma LazyForkView(s: State, g: Ghost, t: nat, d: int, s': State, g': Ghost, v: Vpn)
    requires ForkDone(Lazy, s, g, t, d, s', g') && Clean(s, g) && VpnOk(v)
    ensures View(s', d, v) == View(s, g.roots[t], v)
    ensures forall t' | 0 <= t' < |g.roots| :: View(s', g.roots[t'], v) == View(s, g.roots[t'], v)
  {
    hide Inv, Mirror2, LeafSlot, CellOf;
    MirrorSlots(Lazy, s', g.roots[t], d, v);
    assert SameView(s, g, s', t, v);
    forall t' | 0 <= t' < |g.roots| ensures View(s', g.roots[t'], v) == View(s, g.roots[t'], v) {
      assert SameView(s, g, s', t', v);
    }
    LazyLeafCell(s', g.roots[t], d, v);
  }

  // The leaf that address v reaches carries a mark that a fault would honour.
  predicate Pending(s: State, r: int, v: Vpn) { View(s, r, v).Some? && MarkAt(s, r, v).Waiting? }

  lemma EagerSlotKept(s: State, g: Ghost, t: nat, d: int, s': State, g': Ghost, v: Vpn)
    requires ForkDone(Eager, s, g, t, d, s', g') && VpnOk(v)
    ensures LeafSlot(s', g.roots[t], v) == LeafSlot(s, g.roots[t], v)
    ensures LeafSlot(s, g.roots[t], v).Some? ==>
      var x := LeafSlot(s, g.roots[t], v).value; At(s', x.p, x.k) == At(s, x.p, x.k)
  {
    hide AllocatorOk, TreesOk, RefsOk, ExclusiveOk, InjectiveOk, Closed, MarksKept, DstOk, Mirror2, SameViews;
    SlotKept(s, g, s', t, v);
  }

  lemma EagerCell(s: State, g: Ghost, t: nat, d: int, s': State, g': Ghost, v: Vpn)
    requires ForkDone(Eager, s, g, t, d, s', g') && VpnOk(v)
    ensures View(s', d, v) == View(s, g.roots[t], v) <==> !Pending(s, g.roots[t], v)
    ensures View(s', d, v).Some? <==> View(s, g.roots[t], v).Some?
    ensures View(s', d, v).Some? ==>
      View(s', d, v).value.read == View(s, g.roots[t], v).value.read && View(s', d, v).value.bytes == View(s, g.roots[t], v).value.bytes
  {
    hide Inv, Mirror2, LeafSlot, Clean, NoMarks, Tidy, MarksKept, DstOk;
    var r := g.roots[t];
    MirrorSlots(Eager, s', r, d, v);
    assert SameView(s, g, s', t, v);
    EagerSlotKept(s, g, t, d, s', g', v);
  }

  // ---------------------------------------------------------------- deep copy

  lemma Member2Use(s: State, g: Ghost, t: nat, x: int)
    requires Member2(s, g, t, 0, x)
    ensures IsPage(x) && GhostSized(g)
    ensures IsData(g.lab[x]) ==> Refers(s, g, t, x)
    ensures !IsData(g.lab[x]) ==> (g.lab[x].L1Of? || g.lab[x].L0Of?) && g.lab[x].t == t
  {
    var i :| 0 <= i < NUM_PTE_ENTRIES && (g.lab[x] == L1Of(t, i) || Member1(s, g, t, i, 0, x));
    if g.lab[x] != L1Of(t, i) {
      var j :| 0 <= j < NUM_PTE_ENTRIES && InTable(s, g, x, L0Of(t, i, j));
      if g.lab[x] != L0Of(t, i, j) {
        var z :| IsLeaf(s, g, z) && g.lab[z.p] == L0Of(t, i, j) && At(s, z.p, z.k).page == x;
      }
    }
  }

  lemma TreePagesHave(m: Mode, s: State, g: Ghost, t: nat, x: int)
    requires Inv(s, g) && t < |g.roots| && IsPage(x)
    requires InTree(g.lab[x], t) || (m.Eager? && IsData(g.lab[x]) && Refers(s, g, t, x))
    ensures x in TreePages(m, s, g.roots[t])
  {
    hide AllocatorOk, RefsOk, ExclusiveOk, InjectiveOk, Closed, Pages0, Pages1, Pages2;
    assert OwnOk(s, g, x);
    match g.lab[x]
    case RootOf(_) =>
    case L1Of(_, i) => Pages2Has(m, s, g.roots[t], 0, i);
    case L0Of(_, _, _) => TableHas(m, s, g, t, x);
    case _ =>
      var z :| IsLeaf(s, g, z) && g.lab[z.p].t == t && At(s, z.p, z.k).page == x;
      TableHas(m, s, g, t, z.p);
      Pages0Has(m, s, z.p, 0, z.k);
  }

  // The pages that a fork copies are exactly the tables of the space and, if it
  // is eager, the data pages to which some leaf of the space refers.
  lemma TreePagesAre(m: Mode, s: State, g: Ghost, t: nat, x: int)
    requires Inv(s, g) && t < |g.roots|
    ensures x in TreePages(m, s, g.roots[t]) <==>
      IsPage(x) && (InTree(g.lab[x], t) || (m.Eager? && IsData(g.lab[x]) && Refers(s, g, t, x)))
  {
    hide AllocatorOk, RefsOk, ExclusiveOk, InjectiveOk, Closed, Pages0, Pages1, Pages2, Member2, TreesOk;
    var r := g.roots[t];
    RootLabel(s, g, t);
    if x in Pages2(m, s, r, 0) {
      Pages2Members(m, s, g, t, r, 0, x);
      Member2Use(s, g, t, x);
    }
    if IsPage(x) && (InTree(g.lab[x], t) || (m.Eager? && IsData(g.lab[x]) && Refers(s, g, t, x))) {
      TreePagesHave(m, s, g, t, x);
    }
  }

  lemma ApartData(s: State, g: Ghost, t: nat, td: nat, x: int)
    requires Apart(s, g, td) && t != td
    requires Refers(s, g, td, x)
    ensures !Refers(s, g, t, x)
  {
    var z :| IsLeaf(s, g, z) && g.lab[z.p].t == td && At(s, z.p, z.k).page == x;
  }

  lemma ApartMeansDisjoint(s: State, g: Ghost, t: nat, td: nat)
    requires Inv(s, g) && DstOk(Eager, s, g, t, td) && t < td < |g.roots|
    ensures TreePages(Eager, s, g.roots[td]) !! TreePages(Eager, s, g.roots[t])
  {
    hide AllocatorOk, TreesOk, RefsOk, ExclusiveOk, InjectiveOk, Closed, Apart, TreePages;
    forall x | x in TreePages(Eager, s, g.roots[td]) ensures x !in TreePages(Eager, s, g.roots[t]) {
      TreePagesAre(Eager, s, g, td, x);
      TreePagesAre(Eager, s, g, t, x);
      if Refers(s, g, td, x) { ApartData(s, g, t, td, x); }
    }
  }

  // The exact condition under which vms_fork_copy makes a faithful copy: no
  // reachable leaf of the current space still waits for its copy-on-write copy.
  lemma EagerForkIsDeepCopy(s: State, g: Ghost, t: nat) returns (d: int, s': State, g': Ghost)
    requires Inv(s, g) && Current(s, g, t) && MayFork(s)
    ensures IsPage(s.root) && Fork(Eager, s) == Got(d, s')
    ensures ForkDone(Eager, s, g, t, d, s', g')
    ensures (forall v | VpnOk(v) :: View(s', d, v) == View(s, s.root, v)) <==> (forall v | VpnOk(v) :: !Pending(s, s.root, v))
    ensures TreePages(Eager, s', d) !! TreePages(Eager, s', s.root)
    ensures forall p | IsPage(p) && s.alloc[p] :: s'.tab[p] == s.tab[p] && s'.bytes[p] == s.bytes[p] && s'.ref[p] == s.ref[p]
  {
    hide TreesOk, RefsOk, ExclusiveOk, InjectiveOk, Closed, View, Pending, Mirror2, DstOk, MarksKept, SameViews;
    d, s', g' := ForkWorks(Eager, s, g, t);
    forall v | VpnOk(v) ensures View(s', d, v) == View(s, s.root, v) <==> !Pending(s, s.root, v) {
      EagerCell(s, g, t, d, s', g', v);
    }
    ApartMeansDisjoint(s', g', t, |g.roots|);
  }
}
