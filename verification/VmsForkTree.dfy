// A whole fork: induction over the three nested loops.
module VmsForkTree {
  import opened Common
  import opened VmsState
  import opened VmsInvariant
  import opened VmsSteps
  import opened VmsForks
  import opened VmsForkLeaf

  // ---------------------------------------------------------------- mirrors

  // A leaf b of the new space stands for leaf a of the source: the same page
  // after a lazy fork, an uncounted page with the same bytes after an eager one.
  ghost predicate LeafMirror(m: Mode, s: State, a: Entry, b: Entry) {
    if !a.valid then !b.valid
    else if m.Lazy? then b == a
    else b == a.(page := b.page) && IsPage(b.page) && BytesOf(s, b.page) == BytesOf(s, a.page) && Ref(s, b.page) == 0
  }

  ghost predicate Mirror0At(m: Mode, s: State, ps: int, pd: int, k: int) {
    LeafMirror(m, s, At(s, ps, k), At(s, pd, k))
  }

  ghost predicate Mirror0(m: Mode, s: State, ps: int, pd: int) {
    forall k | IsIndex(k) :: Mirror0At(m, s, ps, pd, k)
  }

  ghost predicate Mirror1At(m: Mode, s: State, ps: int, pd: int, j: int) {
    var a, b := At(s, ps, j), At(s, pd, j);
    if !a.valid then !b.valid
    else b == a.(page := b.page) && Mirror0(m, s, a.page, b.page)
  }

  ghost predicate Mirror1(m: Mode, s: State, ps: int, pd: int) {
    forall j | IsIndex(j) :: Mirror1At(m, s, ps, pd, j)
  }

  ghost predicate Mirror2At(m: Mode, s: State, ps: int, pd: int, i: int) {
    var a, b := At(s, ps, i), At(s, pd, i);
    if !a.valid then !b.valid
    else b == a.(page := b.page) && Mirror1(m, s, a.page, b.page)
  }

  ghost predicate Mirror2(m: Mode, s: State, ps: int, pd: int) {
    forall i | IsIndex(i) :: Mirror2At(m, s, ps, pd, i)
  }

  // ---------------------------------------------------------------- the innermost loop

  // ps is an L0 table of the source and pd the table made for it.
  ghost predicate Tables0(g: Ghost, ts: nat, td: nat, ps: int, pd: int) {
    && GhostSized(g) && IsPage(ps) && IsPage(pd)
    && g.lab[ps].L0Of? && g.lab[ps].t == ts && g.lab[pd] == L0Of(td, g.lab[ps].i, g.lab[ps].j)
  }

  ghost predicate RowsKept0(m: Mode, s: State, g: Ghost, s': State, ps: int, pd: int)
    requires Sized(s) && Sized(s') && GhostSized(g)
  {
    && (forall p | IsPage(p) && !g.lab[p].Free? && p != ps && p != pd :: s'.tab[p] == s.tab[p])
    && (m.Eager? && IsPage(ps) ==> s'.tab[ps] == s.tab[ps])
    && (forall k :: At(s', ps, k).valid == At(s, ps, k).valid)
  }

  ghost predicate CanFork0(m: Mode, s: State, g: Ghost, ts: nat, td: nat, ps: int, pd: int, k: int) {
    && Inv(s, g) && Spaces(g, ts, td) && DstOk(m, s, g, ts, td)
    && Tables0(g, ts, td, ps, pd) && 0 <= k <= NUM_PTE_ENTRIES
    && (forall k' | k <= k' < NUM_PTE_ENTRIES :: !At(s, pd, k').valid)
    && s.used + Count0(m, s, ps, k) <= MAX_PAGES
  }

  ghost predicate Leaf0Done(m: Mode, s: State, g: Ghost, ts: nat, td: nat, ps: int, pd: int, k: int,
        s': State, g': Ghost)
    requires Spaces(g, ts, td) && Tables0(g, ts, td, ps, pd)
  {
    && Kept(m, s, g, s', g', ts, td) && DstOk(m, s', g', ts, td)
    && RowsKept0(m, s, g, s', ps, pd)
    && (forall k' | k' != k :: At(s', ps, k') == At(s, ps, k') && At(s', pd, k') == At(s, pd, k'))
    && Mirror0At(m, s', ps, pd, k)
    && s'.used == s.used + if m.Eager? && At(s, ps, k).valid then 1 else 0
  }

  lemma LazyLeafDone(s: State, g: Ghost, ts: nat, td: nat, ps: int, pd: int, k: int) returns (s': State, g': Ghost)
    requires CanFork0(Lazy, s, g, ts, td, ps, pd, k) && k < NUM_PTE_ENTRIES && At(s, ps, k).valid
    ensures ForkLeaf(Lazy, s, ps, pd, k) == Some(s')
    ensures Leaf0Done(Lazy, s, g, ts, td, ps, pd, k, s', g')
  {
    hide AllocatorOk, TreesOk, RefsOk, ExclusiveOk, InjectiveOk, View, Shadows, Clean, SameViews, ForksCounted;
    var x, y, e := Slot(ps, k), Slot(pd, k), At(s, ps, k);
    LeafOwned(s, g, x);
    ShareKept(s, g, ts, td, x, y, e);
    s', g' := Share(s, g, x, y, e), ShareGhost(g, e.page);
  }

  lemma EagerLeafDone(s: State, g: Ghost, ts: nat, td: nat, ps: int, pd: int, k: int) returns (s': State, g': Ghost)
    requires CanFork0(Eager, s, g, ts, td, ps, pd, k) && k < NUM_PTE_ENTRIES && At(s, ps, k).valid
    requires s.used < MAX_PAGES
    ensures ForkLeaf(Eager, s, ps, pd, k) == Some(s')
    ensures Leaf0Done(Eager, s, g, ts, td, ps, pd, k, s', g')
  {
    hide TreesOk, ExclusiveOk, InjectiveOk, View, Apart, Clean, NoMarks, Tidy, SameViews, Slots, ForksCounted, Closed;
    var x, y, e := Slot(ps, k), Slot(pd, k), At(s, ps, k);
    RoomMeansFree(s, g);
    var d := NewPage(s).page;
    LeafOwned(s, g, x);
    CopyLeafKept(s, g, ts, td, x, y, e, d);
    CopyLeafInv(s, g, ts, td, x, y, e, d);
    var r := CopyLeaf(s, g, y, e, d);
    s', g' := r.0, r.1;
    assert RefOk(s, g, d);
  }

  lemma Leaf0Skip(m: Mode, s: State, g: Ghost, ts: nat, td: nat, ps: int, pd: int, k: int)
    requires CanFork0(m, s, g, ts, td, ps, pd, k) && k < NUM_PTE_ENTRIES && !At(s, ps, k).valid
    ensures Leaf0Done(m, s, g, ts, td, ps, pd, k, s, g)
  {
    hide DstOk, Clean, NoMarks, Tidy, View, AllocatorOk, TreesOk, RefsOk, ExclusiveOk, InjectiveOk;
  }

  lemma Leaf0Step(m: Mode, s: State, g: Ghost, ts: nat, td: nat, ps: int, pd: int,
        k: int) returns (s': State, g': Ghost)
    requires CanFork0(m, s, g, ts, td, ps, pd, k) && k < NUM_PTE_ENTRIES
    ensures ForkLeaf(m, s, ps, pd, k) == Some(s')
    ensures Leaf0Done(m, s, g, ts, td, ps, pd, k, s', g')
  {
    hide Inv, DstOk, Clean, NoMarks, Tidy, View, Leaf0Done;
    if !At(s, ps, k).valid {
      s', g' := s, g;
      Leaf0Skip(m, s, g, ts, td, ps, pd, k);
    } else if m.Lazy? {
      s', g' := LazyLeafDone(s, g, ts, td, ps, pd, k);
    } else {
      s', g' := EagerLeafDone(s, g, ts, td, ps, pd, k);
    }
  }

  ghost predicate Fork0Done(m: Mode, s: State, g: Ghost, ts: nat, td: nat, ps: int, pd: int, k: int,
        s': State, g': Ghost)
    requires Spaces(g, ts, td) && Tables0(g, ts, td, ps, pd)
  {
    && Kept(m, s, g, s', g', ts, td) && DstOk(m, s', g', ts, td)
    && RowsKept0(m, s, g, s', ps, pd)
    && (forall k' | k' < k :: At(s', ps, k') == At(s, ps, k') && At(s', pd, k') == At(s, pd, k'))
    && (forall k' | k <= k' < NUM_PTE_ENTRIES :: Mirror0At(m, s', ps, pd, k'))
    && s'.used == s.used + Count0(m, s, ps, k)
  }

  // A mirrored leaf stays one while both entries and their pages stay.
  lemma Mirror0AtKept(m: Mode, s: State, g: Ghost, s': State, g': Ghost, ts: nat, td: nat, ps: int, pd: int, k: int)
    requires Spaces(g, ts, td) && Kept(m, s, g, s', g', ts, td) && Mirror0At(m, s, ps, pd, k) && IsIndex(k)
    requires IsPage(ps) && IsPage(pd) && g.lab[ps].L0Of? && g.lab[pd].L0Of?
    requires At(s', ps, k) == At(s, ps, k) && At(s', pd, k) == At(s, pd, k)
    ensures Mirror0At(m, s', ps, pd, k)
  {
    hide AllocatorOk, TreesOk, RefsOk, ExclusiveOk, InjectiveOk, DstOk, SameViews, MarksKept;
    if At(s, ps, k).valid {
      assert IsLeaf(s, g, Slot(ps, k)) && IsLeaf(s, g, Slot(pd, k));
      LeafOwned(s, g, Slot(ps, k));
      LeafOwned(s, g, Slot(pd, k));
    }
  }

  lemma Fork0Combine(m: Mode, s: State, g: Ghost, ts: nat, td: nat, ps: int, pd: int, k: int, s1: State,
        g1: Ghost, s': State, g': Ghost)
    requires CanFork0(m, s, g, ts, td, ps, pd, k) && k < NUM_PTE_ENTRIES
    requires Leaf0Done(m, s, g, ts, td, ps, pd, k, s1, g1)
    requires Spaces(g1, ts, td) && Tables0(g1, ts, td, ps, pd) && Fork0Done(m, s1, g1, ts, td, ps, pd, k + 1, s', g')
    ensures Fork0Done(m, s, g, ts, td, ps, pd, k, s', g')
  {
    hide AllocatorOk, TreesOk, RefsOk, ExclusiveOk, InjectiveOk, Closed, ForksCounted, DstOk, MarksKept,
      Mirror0At, SameViews;
    KeptTrans(m, s, g, s1, g1, s', g', ts, td);
    Mirror0AtKept(m, s1, g1, s', g', ts, td, ps, pd, k);
    Count0Frame(m, s, s1, ps, k + 1);
  }

  lemma Fork0Empty(m: Mode, s: State, g: Ghost, ts: nat, td: nat, ps: int, pd: int)
    requires CanFork0(m, s, g, ts, td, ps, pd, NUM_PTE_ENTRIES)
    ensures Fork0Done(m, s, g, ts, td, ps, pd, NUM_PTE_ENTRIES, s, g)
  {
    hide DstOk, Clean, NoMarks, Tidy, View, AllocatorOk, TreesOk, RefsOk, ExclusiveOk, InjectiveOk;
  }

  lemma {:induction false} Fork0(m: Mode, s: State, g: Ghost, ts: nat, td: nat, ps: int, pd: int,
        k: int) returns (s': State, g': Ghost)
    requires CanFork0(m, s, g, ts, td, ps, pd, k)
    ensures ForkL0(m, s, ps, pd, k) == Some(s')
    ensures Fork0Done(m, s, g, ts, td, ps, pd, k, s', g')
    decreases NUM_PTE_ENTRIES - k
  {
    hide AllocatorOk, TreesOk, RefsOk, ExclusiveOk, InjectiveOk, Closed, ForksCounted, DstOk, MarksKept,
      Mirror0At, SameViews, Fork0Done;
    if k == NUM_PTE_ENTRIES {
      s', g' := s, g;
      Fork0Empty(m, s, g, ts, td, ps, pd);
    } else {
      var s1, g1 := Leaf0Step(m, s, g, ts, td, ps, pd, k);
      Count0Frame(m, s, s1, ps, k + 1);
      s', g' := Fork0(m, s1, g1, ts, td, ps, pd, k + 1);
      Fork0Combine(m, s, g, ts, td, ps, pd, k, s1, g1, s', g');
    }
  }

  // ---------------------------------------------------------------- a new table

  ghost predicate Linked(s: State, g: Ghost, p: int, k: int, e: Entry, d: int, l: Label, s': State, g': Ghost)
    requires Ok(s) && GhostSized(g) && IsPage(p) && IsIndex(k) && IsPage(d) && e.valid
  {
    s' == SetEntry(Allocate(s, d), p, k, e.(page := d)) && g' == Relabel(g, d, l)
  }

  ghost predicate LeavesUnchanged(s: State, g: Ghost, s': State, g': Ghost) {
    && (forall x :: IsLeaf(s', g', x) <==> IsLeaf(s, g, x))
    && (forall x | IsLeaf(s, g, x) :: At(s', x.p, x.k) == At(s, x.p, x.k) && x.p < |g'.lab| && g'.lab[x.p] == g.lab[x.p])
  }

  lemma LinkedLeaves(s: State, g: Ghost, p: int, k: int, e: Entry, d: int, l: Label, s': State, g': Ghost)
    requires Inv(s, g) && IsPage(p) && IsIndex(k) && Inner(g.lab[p])
    requires IsPage(d) && g.lab[d].Free? && e.valid && (l.L1Of? || l.L0Of?)
    requires Linked(s, g, p, k, e, d, l, s', g')
    ensures LeavesUnchanged(s, g, s', g')
  {
    hide TreesOk, RefsOk, ExclusiveOk, InjectiveOk, Closed;
    assert forall k' :: !At(s, d, k').valid;
  }

  lemma LeavesForks(m: Mode, s: State, g: Ghost, s': State, g': Ghost, td: nat)
    requires LeavesUnchanged(s, g, s', g') && GhostSized(g) && GhostSized(g') && g'.forks == g.forks
    ensures ForksCounted(m, s, g, s', g', td)
  {
    forall q ensures Refers(s', g', td, q) <==> Refers(s, g, td, q) {
      if Refers(s, g, td, q) {
        var z :| IsLeaf(s, g, z) && g.lab[z.p].t == td && At(s, z.p, z.k).page == q;
        assert IsLeaf(s', g', z);
      }
    }
  }

  lemma LinkedDst(m: Mode, s: State, g: Ghost, ts: nat, td: nat, s': State, g': Ghost)
    requires LeavesUnchanged(s, g, s', g') && DstOk(m, s, g, ts, td)
    ensures DstOk(m, s', g', ts, td)
  {
    if m.Lazy? {
      forall z | IsLeaf(s', g', z) && g'.lab[z.p].t == td
        ensures exists x :: Shadow(s', g', ts, z, x)
      {
        var x :| Shadow(s, g, ts, z, x);
        assert Shadow(s', g', ts, z, x);
      }
    }
  }

  // Linking a new table into the space under construction changes no leaf.
  lemma LinkedKept(m: Mode, s: State, g: Ghost, ts: nat, td: nat, p: int, k: int, e: Entry, d: int, l: Label,
        s': State, g': Ghost)
    requires Inv(s, g) && Spaces(g, ts, td) && DstOk(m, s, g, ts, td)
    requires IsPage(p) && IsIndex(k) && Inner(g.lab[p]) && g.lab[p].t == td
    requires IsPage(d) && g.lab[d].Free? && e.valid && (l.L1Of? || l.L0Of?)
    requires Linked(s, g, p, k, e, d, l, s', g') && Inv(s', g')
    ensures Kept(m, s, g, s', g', ts, td) && DstOk(m, s', g', ts, td)
  {
    hide AllocatorOk, TreesOk, RefsOk, ExclusiveOk, InjectiveOk, Closed, View, ForksCounted;
    LinkedLeaves(s, g, p, k, e, d, l, s', g');
    LinkedDst(m, s, g, ts, td, s', g');
    LeavesForks(m, s, g, s', g', td);
    forall t, v | 0 <= t < td && VpnOk(v) ensures SameView(s, g, s', t, v) {
      ViewKept(s, g, s', t, v);
    }
  }

  // ---------------------------------------------------------------- the middle loop

  ghost predicate Tables1(g: Ghost, ts: nat, td: nat, ps: int, pd: int) {
    && GhostSized(g) && IsPage(ps) && IsPage(pd)
    && g.lab[ps].L1Of? && g.lab[ps].t == ts && g.lab[pd] == L1Of(td, g.lab[ps].i)
  }

  ghost predicate CanFork1(m: Mode, s: State, g: Ghost, ts: nat, td: nat, ps: int, pd: int, j: int) {
    && Inv(s, g) && Spaces(g, ts, td) && DstOk(m, s, g, ts, td)
    && Tables1(g, ts, td, ps, pd) && 0 <= j <= NUM_PTE_ENTRIES
    && (forall j' | j <= j' < NUM_PTE_ENTRIES :: !At(s, pd, j').valid)
    && s.used + Count1(m, s, ps, j) <= MAX_PAGES
  }

  // The rows that the middle loop may still change from index j on: the new
  // table itself, and the L0 tables of the source that it has not yet passed.
  predicate Ahead1(l: Label, ts: nat, i: int, j: int) { l.L0Of? && l.t == ts && l.i == i && l.j >= j }

  ghost predicate RowsKept1(m: Mode, s: State, g: Ghost, s': State, ts: nat, i: int, j: int, pd: int)
    requires Sized(s) && Sized(s') && GhostSized(g)
  {
    forall p | IsPage(p) && !g.lab[p].Free? && p != pd && (m.Eager? || !Ahead1(g.lab[p], ts, i, j)) :: s'.tab[p] == s.tab[p]
  }

  ghost predicate Table1Done(m: Mode, s: State, g: Ghost, ts: nat, td: nat, ps: int, pd: int, j: int,
        s': State, g': Ghost)
    requires Spaces(g, ts, td) && Tables1(g, ts, td, ps, pd)
  {
    && Kept(m, s, g, s', g', ts, td) && DstOk(m, s', g', ts, td)
    && (forall p | IsPage(p) && !g.lab[p].Free? && p != pd && (m.Eager? || g.lab[p] != L0Of(ts, g.lab[ps].i, j)) :: s'.tab[p] == s.tab[p])
    && (forall j' | j' != j :: At(s', pd, j') == At(s, pd, j'))
    && Mirror1At(m, s', ps, pd, j)
    && s'.used == s.used + if At(s, ps, j).valid then 1 + Count0(m, s, At(s, ps, j).page, 0) else 0
  }

  ghost predicate Fork1Done(m: Mode, s: State, g: Ghost, ts: nat, td: nat, ps: int, pd: int, j: int,
        s': State, g': Ghost)
    requires Spaces(g, ts, td) && Tables1(g, ts, td, ps, pd)
  {
    && Kept(m, s, g, s', g', ts, td) && DstOk(m, s', g', ts, td)
    && RowsKept1(m, s, g, s', ts, g.lab[ps].i, j, pd)
    && (forall j' | j' < j :: At(s', pd, j') == At(s, pd, j'))
    && (forall j' | j <= j' < NUM_PTE_ENTRIES :: Mirror1At(m, s', ps, pd, j'))
    && s'.used == s.used + Count1(m, s, ps, j)
  }

  lemma ChildOf1(s: State, g: Ghost, p: int, j: int)
    requires Inv(s, g) && IsPage(p) && g.lab[p].L1Of? && IsIndex(j) && At(s, p, j).valid
    ensures IsPage(At(s, p, j).page) && g.lab[At(s, p, j).page] == L0Of(g.lab[p].t, g.lab[p].i, j)
  {
    assert OwnOk(s, g, p);
    assert Owns(s, g, p, j, L0Of(g.lab[p].t, g.lab[p].i, j));
  }

  lemma Table1Link(m: Mode, s: State, g: Ghost, ts: nat, td: nat, ps: int, pd: int, j: int) returns (d: int,
        s': State, g': Ghost)
    requires CanFork1(m, s, g, ts, td, ps, pd, j) && j < NUM_PTE_ENTRIES && At(s, ps, j).valid
    ensures LinkNew(s, pd, j, At(s, ps, j)) == Got(d, s')
    ensures IsPage(d) && g.lab[d].Free? && Linked(s, g, pd, j, At(s, ps, j), d, L0Of(td, g.lab[ps].i, j), s', g')
    ensures Kept(m, s, g, s', g', ts, td) && DstOk(m, s', g', ts, td)
    ensures forall k :: !At(s', d, k).valid
  {
    hide TreesOk, RefsOk, ExclusiveOk, InjectiveOk, Closed, View, DstOk, MarksKept, SameViews;
    var e := At(s, ps, j);
    RoomMeansFree(s, g);
    d := NewPage(s).page;
    var s1, g1 := Allocate(s, d), Relabel(g, d, Spare);
    AllocateKeeps(s, g, d);
    assert At(s1, pd, j) == At(s, pd, j) && !At(s, pd, j).valid;
    AdoptL0Keeps(s1, g1, td, g.lab[ps].i, pd, j, e.(page := d));
    s' := SetEntry(s1, pd, j, e.(page := d));
    g' := Relabel(g, d, L0Of(td, g.lab[ps].i, j));
    assert Relabel(g1, d, L0Of(td, g.lab[ps].i, j)) == g';
    LinkedKept(m, s, g, ts, td, pd, j, e, d, L0Of(td, g.lab[ps].i, j), s', g');
  }

  ghost predicate Table1Ready(m: Mode, s: State, g: Ghost, ts: nat, td: nat, ps: int, pd: int, j: int,
        d: int, s1: State, g1: Ghost, s': State, g': Ghost) {
    && CanFork1(m, s, g, ts, td, ps, pd, j) && j < NUM_PTE_ENTRIES && At(s, ps, j).valid
    && IsPage(d) && g.lab[d].Free? && Linked(s, g, pd, j, At(s, ps, j), d, L0Of(td, g.lab[ps].i, j), s1, g1)
    && Kept(m, s, g, s1, g1, ts, td)
    && IsPage(At(s, ps, j).page) && g.lab[At(s, ps, j).page] == L0Of(ts, g.lab[ps].i, j)
    && Spaces(g1, ts, td) && Tables0(g1, ts, td, At(s, ps, j).page, d)
    && Fork0Done(m, s1, g1, ts, td, At(s, ps, j).page, d, 0, s', g')
  }

  lemma Table1Rows(m: Mode, s: State, g: Ghost, ts: nat, td: nat, ps: int, pd: int, j: int, d: int,
        s1: State, g1: Ghost, s': State, g': Ghost)
    requires Table1Ready(m, s, g, ts, td, ps, pd, j, d, s1, g1, s', g')
    ensures Sized(s) && Sized(s1) && Sized(s')
    ensures At(s', ps, j) == At(s, ps, j) && At(s', pd, j) == At(s, ps, j).(page := d) && s1.used == s.used + 1
    ensures forall j' | j' != j :: At(s', pd, j') == At(s, pd, j')
    ensures forall k :: At(s1, At(s, ps, j).page, k) == At(s, At(s, ps, j).page, k)
    ensures forall p | IsPage(p) && !g.lab[p].Free? && p != pd && (m.Eager? || g.lab[p] != L0Of(ts, g.lab[ps].i, j)) :: s'.tab[p] == s.tab[p]
  {
    hide AllocatorOk, TreesOk, RefsOk, ExclusiveOk, InjectiveOk, Closed, ForksCounted, DstOk, MarksKept,
      Mirror0At, SameViews, Count0;
    var e := At(s, ps, j);
    assert s'.tab[ps] == s1.tab[ps] == s.tab[ps];
    assert s'.tab[pd] == s1.tab[pd];
    forall p | IsPage(p) && !g.lab[p].Free? && p != pd && (m.Eager? || g.lab[p] != L0Of(ts, g.lab[ps].i, j))
      ensures s'.tab[p] == s.tab[p]
    {
      assert g1.lab[p] == g.lab[p] && p != d && (m.Eager? || p != e.page);
    }
  }

  lemma Table1Finish(m: Mode, s: State, g: Ghost, ts: nat, td: nat, ps: int, pd: int, j: int, d: int,
        s1: State, g1: Ghost, s': State, g': Ghost)
    requires Table1Ready(m, s, g, ts, td, ps, pd, j, d, s1, g1, s', g')
    ensures Table1Done(m, s, g, ts, td, ps, pd, j, s', g')
  {
    hide Inv, Extends, RowsKept0, ForksCounted, DstOk, MarksKept, Mirror0At, SameViews, Linked, Kept, Count0;
    KeptTrans(m, s, g, s1, g1, s', g', ts, td);
    Table1Rows(m, s, g, ts, td, ps, pd, j, d, s1, g1, s', g');
    Count0Frame(m, s, s1, At(s, ps, j).page, 0);
    assert Mirror0(m, s', At(s, ps, j).page, d);
  }

  lemma Table1Skip(m: Mode, s: State, g: Ghost, ts: nat, td: nat, ps: int, pd: int, j: int)
    requires CanFork1(m, s, g, ts, td, ps, pd, j) && j < NUM_PTE_ENTRIES && !At(s, ps, j).valid
    ensures Table1Done(m, s, g, ts, td, ps, pd, j, s, g)
  {
    hide DstOk, Clean, NoMarks, Tidy, View, AllocatorOk, TreesOk, RefsOk, ExclusiveOk, InjectiveOk;
  }

  lemma LinkedRows(s: State, g: Ghost, p: int, k: int, e: Entry, d: int, l: Label, s': State, g': Ghost)
    requires Ok(s) && GhostSized(g) && IsPage(p) && IsIndex(k) && IsPage(d) && e.valid && Linked(s, g, p, k, e, d, l, s', g')
    ensures s'.used == s.used + 1 && GhostSized(g') && g'.lab[d] == l && g'.roots == g.roots
    ensures forall q, i | q != p :: At(s', q, i) == At(s, q, i)
    ensures forall q | IsPage(q) && q != d :: g'.lab[q] == g.lab[q]
  {
    hide Closed;
  }

  lemma {:induction false} Room1(m: Mode, s: State, ps: int, j: int, s1: State)
    requires IsIndex(j) && At(s, ps, j).valid && s1.used == s.used + 1 && s.used + Count1(m, s, ps, j) <= MAX_PAGES
    requires forall k :: At(s1, At(s, ps, j).page, k) == At(s, At(s, ps, j).page, k)
    ensures s1.used + Count0(m, s1, At(s, ps, j).page, 0) <= MAX_PAGES
  {
    Count0Frame(m, s, s1, At(s, ps, j).page, 0);
  }

  // The new table is ready for the innermost loop.
  lemma Table1Can(m: Mode, s: State, g: Ghost, ts: nat, td: nat, ps: int, pd: int, j: int, d: int, s1: State, g1: Ghost)
    requires CanFork1(m, s, g, ts, td, ps, pd, j) && j < NUM_PTE_ENTRIES && At(s, ps, j).valid
    requires IsPage(d) && g.lab[d].Free? && Linked(s, g, pd, j, At(s, ps, j), d, L0Of(td, g.lab[ps].i, j), s1, g1)
    requires Kept(m, s, g, s1, g1, ts, td) && DstOk(m, s1, g1, ts, td) && forall k :: !At(s1, d, k).valid
    requires IsPage(At(s, ps, j).page) && g.lab[At(s, ps, j).page] == L0Of(ts, g.lab[ps].i, j)
    ensures CanFork0(m, s1, g1, ts, td, At(s, ps, j).page, d, 0)
    ensures Spaces(g1, ts, td) && Tables0(g1, ts, td, At(s, ps, j).page, d)
  {
    hide AllocatorOk, TreesOk, RefsOk, ExclusiveOk, InjectiveOk, Closed, ForksCounted, DstOk, MarksKept, SameViews, Linked,
      Count0, Count1, Extends;
    LinkedRows(s, g, pd, j, At(s, ps, j), d, L0Of(td, g.lab[ps].i, j), s1, g1);
    Room1(m, s, ps, j, s1);
  }

  lemma Table1Step(m: Mode, s: State, g: Ghost, ts: nat, td: nat, ps: int, pd: int,
        j: int) returns (s': State, g': Ghost)
    requires CanFork1(m, s, g, ts, td, ps, pd, j) && j < NUM_PTE_ENTRIES
    ensures ForkL1Entry(m, s, ps, pd, j) == Some(s')
    ensures Table1Done(m, s, g, ts, td, ps, pd, j, s', g')
  {
    hide AllocatorOk, TreesOk, RefsOk, ExclusiveOk, InjectiveOk, Closed, ForksCounted, DstOk, MarksKept,
      Mirror0At, SameViews, Fork0Done, Table1Done, CanFork0, Count0, Linked, Kept;
    if !At(s, ps, j).valid {
      s', g' := s, g;
      Table1Skip(m, s, g, ts, td, ps, pd, j);
    } else {
      var e := At(s, ps, j);
      ChildOf1(s, g, ps, j);
      var d, s1, g1 := Table1Link(m, s, g, ts, td, ps, pd, j);
      Table1Can(m, s, g, ts, td, ps, pd, j, d, s1, g1);
      s', g' := Fork0(m, s1, g1, ts, td, e.page, d, 0);
      Table1Finish(m, s, g, ts, td, ps, pd, j, d, s1, g1, s', g');
    }
  }

  lemma Mirror0Kept(m: Mode, s: State, g: Ghost, s': State, g': Ghost, ts: nat, td: nat, ps: int, pd: int)
    requires Spaces(g, ts, td) && Kept(m, s, g, s', g', ts, td) && Mirror0(m, s, ps, pd)
    requires IsPage(ps) && IsPage(pd) && g.lab[ps].L0Of? && g.lab[pd].L0Of?
    requires s'.tab[ps] == s.tab[ps] && s'.tab[pd] == s.tab[pd]
    ensures Mirror0(m, s', ps, pd)
  {
    hide AllocatorOk, TreesOk, RefsOk, ExclusiveOk, InjectiveOk, Closed, ForksCounted, DstOk, MarksKept,
      Mirror0At, SameViews;
    forall k | IsIndex(k) ensures Mirror0At(m, s', ps, pd, k) {
      Mirror0AtKept(m, s, g, s', g', ts, td, ps, pd, k);
    }
  }

  lemma Mirror1AtKept(m: Mode, s: State, g: Ghost, s': State, g': Ghost, ts: nat, td: nat, ps: int, pd: int,
        j: int, j': int)
    requires Spaces(g, ts, td) && Kept(m, s, g, s', g', ts, td) && Mirror1At(m, s, ps, pd, j) && 0 <= j < j' && IsIndex(j)
    requires Tables1(g, ts, td, ps, pd)
    requires RowsKept1(m, s, g, s', ts, g.lab[ps].i, j', pd) && At(s', pd, j) == At(s, pd, j)
    ensures Mirror1At(m, s', ps, pd, j)
  {
    hide AllocatorOk, TreesOk, RefsOk, ExclusiveOk, InjectiveOk, Closed, ForksCounted, DstOk, MarksKept,
      Mirror0, SameViews;
    assert s'.tab[ps] == s.tab[ps];
    if At(s, ps, j).valid {
      ChildOf1(s, g, ps, j);
      ChildOf1(s, g, pd, j);
      Mirror0Kept(m, s, g, s', g', ts, td, At(s, ps, j).page, At(s, pd, j).page);
    }
  }

  lemma {:induction false} Count1Ahead(m: Mode, s: State, g: Ghost, ts: nat, ps: int, pd: int, j: int, s': State)
    requires Inv(s, g) && Sized(s') && IsPage(ps) && g.lab[ps].L1Of? && g.lab[ps].t == ts && IsIndex(j)
    requires IsPage(pd) && Inner(g.lab[pd]) && pd != ps
    requires forall p | IsPage(p) && !g.lab[p].Free? && p != pd && (m.Eager? || g.lab[p] != L0Of(ts, g.lab[ps].i, j)) :: s'.tab[p] == s.tab[p]
    ensures Count1(m, s', ps, j + 1) == Count1(m, s, ps, j + 1)
  {
    hide AllocatorOk, TreesOk, RefsOk, ExclusiveOk, InjectiveOk, Closed;
    forall j' | j + 1 <= j' < NUM_PTE_ENTRIES && At(s, ps, j').valid
      ensures forall k | IsIndex(k) :: At(s', At(s, ps, j').page, k).valid == At(s, At(s, ps, j').page, k).valid
    {
      ChildOf1(s, g, ps, j');
    }
    Count1Frame(m, s, s', ps, j + 1);
  }

  lemma {:induction false} Fork1Combine(m: Mode, s: State, g: Ghost, ts: nat, td: nat, ps: int, pd: int, j: int, s1: State,
        g1: Ghost, s': State, g': Ghost)
    requires CanFork1(m, s, g, ts, td, ps, pd, j) && j < NUM_PTE_ENTRIES
    requires Table1Done(m, s, g, ts, td, ps, pd, j, s1, g1)
    requires Spaces(g1, ts, td) && Tables1(g1, ts, td, ps, pd) && Fork1Done(m, s1, g1, ts, td, ps, pd, j + 1, s', g')
    requires Count1(m, s1, ps, j + 1) == Count1(m, s, ps, j + 1)
    ensures Fork1Done(m, s, g, ts, td, ps, pd, j, s', g')
  {
    hide AllocatorOk, TreesOk, RefsOk, ExclusiveOk, InjectiveOk, Closed, ForksCounted, DstOk, MarksKept,
      Mirror1At, SameViews;
    KeptTrans(m, s, g, s1, g1, s', g', ts, td);
    Mirror1AtKept(m, s1, g1, s', g', ts, td, ps, pd, j, j + 1);
  }

  lemma Fork1Empty(m: Mode, s: State, g: Ghost, ts: nat, td: nat, ps: int, pd: int)
    requires CanFork1(m, s, g, ts, td, ps, pd, NUM_PTE_ENTRIES)
    ensures Fork1Done(m, s, g, ts, td, ps, pd, NUM_PTE_ENTRIES, s, g)
  {
    hide DstOk, Clean, NoMarks, Tidy, View, AllocatorOk, TreesOk, RefsOk, ExclusiveOk, InjectiveOk;
  }

  lemma {:induction false} Fork1(m: Mode, s: State, g: Ghost, ts: nat, td: nat, ps: int, pd: int,
        j: int) returns (s': State, g': Ghost)
    requires CanFork1(m, s, g, ts, td, ps, pd, j)
    ensures ForkL1(m, s, ps, pd, j) == Some(s')
    ensures Fork1Done(m, s, g, ts, td, ps, pd, j, s', g')
    decreases NUM_PTE_ENTRIES - j
  {
    hide AllocatorOk, TreesOk, RefsOk, ExclusiveOk, InjectiveOk, Closed, ForksCounted, DstOk, MarksKept,
      Mirror1At, SameViews, Fork1Done;
    if j == NUM_PTE_ENTRIES {
      s', g' := s, g;
      Fork1Empty(m, s, g, ts, td, ps, pd);
    } else {
      var s1, g1 := Table1Step(m, s, g, ts, td, ps, pd, j);
      Count1Ahead(m, s, g, ts, ps, pd, j, s1);
      s', g' := Fork1(m, s1, g1, ts, td, ps, pd, j + 1);
      Fork1Combine(m, s, g, ts, td, ps, pd, j, s1, g1, s', g');
    }
  }

  // ---------------------------------------------------------------- the outer loop

  ghost predicate Roots(g: Ghost, ts: nat, td: nat, rs: int, rd: int) {
    && GhostSized(g) && IsPage(rs) && IsPage(rd) && Spaces(g, ts, td)
    && g.roots[ts] == rs && g.roots[td] == rd && g.lab[rs] == RootOf(ts) && g.lab[rd] == RootOf(td)
  }

  ghost predicate CanFork2(m: Mode, s: State, g: Ghost, ts: nat, td: nat, rs: int, rd: int, i: int) {
    && Inv(s, g) && Roots(g, ts, td, rs, rd) && DstOk(m, s, g, ts, td)
    && 0 <= i <= NUM_PTE_ENTRIES
    && (forall i' | i <= i' < NUM_PTE_ENTRIES :: !At(s, rd, i').valid)
    && s.used + Count2(m, s, rs, i) <= MAX_PAGES
  }

  predicate Ahead2(l: Label, ts: nat, i: int) { l.L0Of? && l.t == ts && l.i >= i }

  ghost predicate RowsKept2(m: Mode, s: State, g: Ghost, s': State, ts: nat, i: int, rd: int)
    requires Sized(s) && Sized(s') && GhostSized(g)
  {
    forall p | IsPage(p) && !g.lab[p].Free? && p != rd && (m.Eager? || !Ahead2(g.lab[p], ts, i)) :: s'.tab[p] == s.tab[p]
  }

  ghost predicate Table2Done(m: Mode, s: State, g: Ghost, ts: nat, td: nat, rs: int, rd: int, i: int,
        s': State, g': Ghost)
    requires Roots(g, ts, td, rs, rd)
  {
    && Kept(m, s, g, s', g', ts, td) && DstOk(m, s', g', ts, td)
    && RowsKept1(m, s, g, s', ts, i, 0, rd)
    && (forall i' | i' != i :: At(s', rd, i') == At(s, rd, i'))
    && Mirror2At(m, s', rs, rd, i)
    && s'.used == s.used + if At(s, rs, i).valid then 1 + Count1(m, s, At(s, rs, i).page, 0) else 0
  }

  ghost predicate Fork2Done(m: Mode, s: State, g: Ghost, ts: nat, td: nat, rs: int, rd: int, i: int,
        s': State, g': Ghost)
    requires Roots(g, ts, td, rs, rd)
  {
    && Kept(m, s, g, s', g', ts, td) && DstOk(m, s', g', ts, td)
    && RowsKept2(m, s, g, s', ts, i, rd)
    && (forall i' | i' < i :: At(s', rd, i') == At(s, rd, i'))
    && (forall i' | i <= i' < NUM_PTE_ENTRIES :: Mirror2At(m, s', rs, rd, i'))
    && s'.used == s.used + Count2(m, s, rs, i)
  }

  lemma ChildOf2(s: State, g: Ghost, r: int, i: int)
    requires Inv(s, g) && IsPage(r) && g.lab[r].RootOf? && IsIndex(i) && At(s, r, i).valid
    ensures IsPage(At(s, r, i).page) && g.lab[At(s, r, i).page] == L1Of(g.lab[r].t, i)
  {
    assert OwnOk(s, g, r);
    assert Owns(s, g, r, i, L1Of(g.lab[r].t, i));
  }

  lemma Table2Link(m: Mode, s: State, g: Ghost, ts: nat, td: nat, rs: int, rd: int, i: int) returns (d: int,
        s': State, g': Ghost)
    requires CanFork2(m, s, g, ts, td, rs, rd, i) && i < NUM_PTE_ENTRIES && At(s, rs, i).valid
    ensures LinkNew(s, rd, i, At(s, rs, i)) == Got(d, s')
    ensures IsPage(d) && g.lab[d].Free? && Linked(s, g, rd, i, At(s, rs, i), d, L1Of(td, i), s', g')
    ensures Kept(m, s, g, s', g', ts, td) && DstOk(m, s', g', ts, td)
    ensures forall k :: !At(s', d, k).valid
  {
    hide TreesOk, RefsOk, ExclusiveOk, InjectiveOk, Closed, View, DstOk, MarksKept, SameViews;
    var e := At(s, rs, i);
    RoomMeansFree(s, g);
    d := NewPage(s).page;
    var s1, g1 := Allocate(s, d), Relabel(g, d, Spare);
    AllocateKeeps(s, g, d);
    assert At(s1, rd, i) == At(s, rd, i) && !At(s, rd, i).valid;
    AdoptL1Keeps(s1, g1, td, i, e.(page := d));
    s' := SetEntry(s1, rd, i, e.(page := d));
    g' := Relabel(g, d, L1Of(td, i));
    assert Relabel(g1, d, L1Of(td, i)) == g';
    LinkedKept(m, s, g, ts, td, rd, i, e, d, L1Of(td, i), s', g');
  }

  lemma {:induction false} Table2Finish(m: Mode, s: State, g: Ghost, ts: nat, td: nat, rs: int, rd: int, i: int, d: int,
        s1: State, g1: Ghost, s': State, g': Ghost)
    requires CanFork2(m, s, g, ts, td, rs, rd, i) && i < NUM_PTE_ENTRIES && At(s, rs, i).valid
    requires IsPage(d) && g.lab[d].Free? && Linked(s, g, rd, i, At(s, rs, i), d, L1Of(td, i), s1, g1)
    requires Kept(m, s, g, s1, g1, ts, td)
    requires IsPage(At(s, rs, i).page) && g.lab[At(s, rs, i).page] == L1Of(ts, i)
    requires Spaces(g1, ts, td) && Tables1(g1, ts, td, At(s, rs, i).page, d)
    requires Fork1Done(m, s1, g1, ts, td, At(s, rs, i).page, d, 0, s', g')
    requires Count1(m, s1, At(s, rs, i).page, 0) == Count1(m, s, At(s, rs, i).page, 0)
    ensures Table2Done(m, s, g, ts, td, rs, rd, i, s', g')
  {
    hide AllocatorOk, TreesOk, RefsOk, ExclusiveOk, InjectiveOk, Closed, ForksCounted, DstOk, MarksKept,
      Mirror1At, SameViews;
    var e := At(s, rs, i);
    KeptTrans(m, s, g, s1, g1, s', g', ts, td);
    assert s'.tab[rs] == s1.tab[rs] == s.tab[rs];
    assert s'.tab[rd] == s1.tab[rd];
    assert Mirror1(m, s', e.page, d);
    forall p | IsPage(p) && !g.lab[p].Free? && p != rd && (m.Eager? || !Ahead1(g.lab[p], ts, i, 0))
      ensures s'.tab[p] == s.tab[p]
    {
      assert g1.lab[p] == g.lab[p] && p != d;
    }
  }

  // After linking table d, the subtree of the source still counts the same.
  lemma {:induction false} Count1Linked(m: Mode, s: State, g: Ghost, p: int, s1: State, d: int, rd: int)
    requires Inv(s, g) && Sized(s1) && IsPage(p) && g.lab[p].L1Of? && IsPage(rd) && g.lab[rd].RootOf?
    requires forall p' | IsPage(p') && !g.lab[p'].Free? && p' != rd :: s1.tab[p'] == s.tab[p']
    ensures Count1(m, s1, p, 0) == Count1(m, s, p, 0)
  {
    hide AllocatorOk, TreesOk, RefsOk, ExclusiveOk, InjectiveOk, Closed;
    forall j | 0 <= j < NUM_PTE_ENTRIES && At(s, p, j).valid
      ensures forall k | IsIndex(k) :: At(s1, At(s, p, j).page, k).valid == At(s, At(s, p, j).page, k).valid
    {
      ChildOf1(s, g, p, j);
    }
    Count1Frame(m, s, s1, p, 0);
  }

  lemma Table2Skip(m: Mode, s: State, g: Ghost, ts: nat, td: nat, rs: int, rd: int, i: int)
    requires CanFork2(m, s, g, ts, td, rs, rd, i) && i < NUM_PTE_ENTRIES && !At(s, rs, i).valid
    ensures Table2Done(m, s, g, ts, td, rs, rd, i, s, g)
  {
    hide DstOk, Clean, NoMarks, Tidy, View, AllocatorOk, TreesOk, RefsOk, ExclusiveOk, InjectiveOk;
  }

  lemma Table2Step(m: Mode, s: State, g: Ghost, ts: nat, td: nat, rs: int, rd: int,
        i: int) returns (s': State, g': Ghost)
    requires CanFork2(m, s, g, ts, td, rs, rd, i) && i < NUM_PTE_ENTRIES
    ensures ForkL2Entry(m, s, rs, rd, i) == Some(s')
    ensures Table2Done(m, s, g, ts, td, rs, rd, i, s', g')
  {
    hide AllocatorOk, TreesOk, RefsOk, ExclusiveOk, InjectiveOk, Closed, ForksCounted, DstOk, MarksKept,
      Mirror1At, SameViews, Fork1Done, Table2Done;
    if !At(s, rs, i).valid {
      s', g' := s, g;
      Table2Skip(m, s, g, ts, td, rs, rd, i);
    } else {
      var e := At(s, rs, i);
      ChildOf2(s, g, rs, i);
      var d, s1, g1 := Table2Link(m, s, g, ts, td, rs, rd, i);
      Count1Linked(m, s, g, e.page, s1, d, rd);
      s', g' := Fork1(m, s1, g1, ts, td, e.page, d, 0);
      Table2Finish(m, s, g, ts, td, rs, rd, i, d, s1, g1, s', g');
    }
  }

  lemma Mirror1Kept(m: Mode, s: State, g: Ghost, s': State, g': Ghost, ts: nat, td: nat, ps: int, pd: int,
        i': int, rd: int)
    requires Spaces(g, ts, td) && Kept(m, s, g, s', g', ts, td) && Mirror1(m, s, ps, pd)
    requires Tables1(g, ts, td, ps, pd) && g.lab[ps].i < i' && IsPage(rd) && g.lab[rd].RootOf?
    requires RowsKept2(m, s, g, s', ts, i', rd)
    ensures Mirror1(m, s', ps, pd)
  {
    hide AllocatorOk, TreesOk, RefsOk, ExclusiveOk, InjectiveOk, Closed, ForksCounted, DstOk, MarksKept,
      Mirror0, SameViews;
    assert s'.tab[ps] == s.tab[ps] && s'.tab[pd] == s.tab[pd];
    forall j | IsIndex(j) ensures Mirror1At(m, s', ps, pd, j) {
      assert Mirror1At(m, s, ps, pd, j);
      if At(s, ps, j).valid {
        ChildOf1(s, g, ps, j);
        ChildOf1(s, g, pd, j);
        Mirror0Kept(m, s, g, s', g', ts, td, At(s, ps, j).page, At(s, pd, j).page);
      }
    }
  }

  lemma Mirror2AtKept(m: Mode, s: State, g: Ghost, s': State, g': Ghost, ts: nat, td: nat, rs: int, rd: int,
        i: int, i': int)
    requires Roots(g, ts, td, rs, rd) && Kept(m, s, g, s', g', ts, td) && Mirror2At(m, s, rs, rd, i) && 0 <= i < i' && IsIndex(i)
    requires RowsKept2(m, s, g, s', ts, i', rd) && At(s', rd, i) == At(s, rd, i)
    ensures Mirror2At(m, s', rs, rd, i)
  {
    hide AllocatorOk, TreesOk, RefsOk, ExclusiveOk, InjectiveOk, Closed, ForksCounted, DstOk, MarksKept,
      Mirror1, SameViews;
    assert s'.tab[rs] == s.tab[rs];
    if At(s, rs, i).valid {
      ChildOf2(s, g, rs, i);
      ChildOf2(s, g, rd, i);
      Mirror1Kept(m, s, g, s', g', ts, td, At(s, rs, i).page, At(s, rd, i).page, i', rd);
    }
  }

  lemma {:induction false} Count2Ahead(m: Mode, s: State, g: Ghost, ts: nat, rs: int, rd: int, i: int, s': State)
    requires Inv(s, g) && Sized(s') && IsPage(rs) && g.lab[rs] == RootOf(ts) && IsIndex(i)
    requires IsPage(rd) && g.lab[rd].RootOf? && rd != rs
    requires RowsKept1(m, s, g, s', ts, i, 0, rd)
    ensures Count2(m, s', rs, i + 1) == Count2(m, s, rs, i + 1)
  {
    hide AllocatorOk, TreesOk, RefsOk, ExclusiveOk, InjectiveOk, Closed;
    forall i' | i + 1 <= i' < NUM_PTE_ENTRIES && At(s, rs, i').valid
      ensures SameBelow1(s, s', At(s, rs, i').page, 0)
    {
      ChildOf2(s, g, rs, i');
      var p := At(s, rs, i').page;
      forall j | 0 <= j < NUM_PTE_ENTRIES && At(s, p, j).valid
        ensures forall k | IsIndex(k) :: At(s', At(s, p, j).page, k).valid == At(s, At(s, p, j).page, k).valid
      {
        ChildOf1(s, g, p, j);
      }
    }
    Count2Frame(m, s, s', rs, i + 1);
  }

  lemma {:induction false} Fork2Combine(m: Mode, s: State, g: Ghost, ts: nat, td: nat, rs: int, rd: int, i: int, s1: State,
        g1: Ghost, s': State, g': Ghost)
    requires CanFork2(m, s, g, ts, td, rs, rd, i) && i < NUM_PTE_ENTRIES
    requires Table2Done(m, s, g, ts, td, rs, rd, i, s1, g1)
    requires Roots(g1, ts, td, rs, rd) && Fork2Done(m, s1, g1, ts, td, rs, rd, i + 1, s', g')
    requires Count2(m, s1, rs, i + 1) == Count2(m, s, rs, i + 1)
    ensures Fork2Done(m, s, g, ts, td, rs, rd, i, s', g')
  {
    hide AllocatorOk, TreesOk, RefsOk, ExclusiveOk, InjectiveOk, Closed, ForksCounted, DstOk, MarksKept,
      Mirror2At, SameViews;
    KeptTrans(m, s, g, s1, g1, s', g', ts, td);
    Mirror2AtKept(m, s1, g1, s', g', ts, td, rs, rd, i, i + 1);
  }

  lemma Fork2Empty(m: Mode, s: State, g: Ghost, ts: nat, td: nat, rs: int, rd: int)
    requires CanFork2(m, s, g, ts, td, rs, rd, NUM_PTE_ENTRIES)
    ensures Fork2Done(m, s, g, ts, td, rs, rd, NUM_PTE_ENTRIES, s, g)
  {
    hide DstOk, Clean, NoMarks, Tidy, View, AllocatorOk, TreesOk, RefsOk, ExclusiveOk, InjectiveOk;
  }

  lemma {:induction false} Fork2(m: Mode, s: State, g: Ghost, ts: nat, td: nat, rs: int, rd: int,
        i: int) returns (s': State, g': Ghost)
    requires CanFork2(m, s, g, ts, td, rs, rd, i)
    ensures ForkL2(m, s, rs, rd, i) == Some(s')
    ensures Fork2Done(m, s, g, ts, td, rs, rd, i, s', g')
    decreases NUM_PTE_ENTRIES - i
  {
    hide AllocatorOk, TreesOk, RefsOk, ExclusiveOk, InjectiveOk, Closed, ForksCounted, DstOk, MarksKept,
      Mirror2At, SameViews, Fork2Done;
    if i == NUM_PTE_ENTRIES {
      s', g' := s, g;
      Fork2Empty(m, s, g, ts, td, rs, rd);
    } else {
      var s1, g1 := Table2Step(m, s, g, ts, td, rs, rd, i);
      Count2Ahead(m, s, g, ts, rs, rd, i, s1);
      s', g' := Fork2(m, s1, g1, ts, td, rs, rd, i + 1);
      Fork2Combine(m, s, g, ts, td, rs, rd, i, s1, g1, s', g');
    }
  }
}
