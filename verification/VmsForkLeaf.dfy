// One leaf of a fork: it keeps the invariant and what every program can see.
module VmsForkLeaf {
  import opened VmsState
  import opened VmsInvariant
  import opened VmsSteps
  import opened VmsForks

  // ---------------------------------------------------------------- marks

  // Every copy-on-write mark is still backed by a count.
  ghost predicate Clean(s: State, g: Ghost) {
    forall x | IsLeaf(s, g, x) && At(s, x.p, x.k).custom :: Writable(s, At(s, x.p, x.k))
  }

  // Space t has no leaf that waits for its copy.
  ghost predicate NoMarks(s: State, g: Ghost, t: nat) {
    forall x | IsLeaf(s, g, x) && g.lab[x.p].t == t && At(s, x.p, x.k).custom :: At(s, x.p, x.k).write
  }

  ghost predicate Tidy(s: State, g: Ghost) {
    forall x | IsLeaf(s, g, x) && At(s, x.p, x.k).custom :: At(s, x.p, x.k).write
  }

  // ---------------------------------------------------------------- what a fork keeps

  // The space being built is the last one.
  ghost predicate Spaces(g: Ghost, ts: nat, td: nat) { ts < td && |g.roots| == td + 1 }

  // x sits in space ts where leaf z sits in its own, and refers to the same page.
  ghost predicate Shadow(s: State, g: Ghost, ts: nat, z: Slot, x: Slot)
    requires IsLeaf(s, g, z)
  {
    && IsLeaf(s, g, x) && x.k == z.k && g.lab[x.p] == L0Of(ts, g.lab[z.p].i, g.lab[z.p].j)
    && At(s, x.p, x.k).page == At(s, z.p, z.k).page
  }

  // Lazy: each leaf of the new space has a counterpart in the source space
  // that refers to the same page.
  ghost predicate Shadows(s: State, g: Ghost, ts: nat, td: nat) {
    forall z | IsLeaf(s, g, z) && g.lab[z.p].t == td ::
      exists x :: Shadow(s, g, ts, z, x)
  }

  // Eager: the new space shares no data page with any other.
  ghost predicate Apart(s: State, g: Ghost, td: nat) {
    forall z, x | IsLeaf(s, g, z) && IsLeaf(s, g, x) && g.lab[z.p].t == td && g.lab[x.p].t != td ::
      At(s, z.p, z.k).page != At(s, x.p, x.k).page
  }

  // Some leaf of space t refers to page q.
  ghost predicate Refers(s: State, g: Ghost, t: nat, q: int) {
    exists z :: IsLeaf(s, g, z) && g.lab[z.p].t == t && At(s, z.p, z.k).page == q
  }

  ghost function RefersCount(s: State, g: Ghost, t: nat, q: int): int {
    if Refers(s, g, t, q) then 1 else 0
  }

  // The fork counter of a page goes up by one when the new space gets a leaf
  // that refers to it, and only then.
  ghost predicate ForksCounted(m: Mode, s: State, g: Ghost, s': State, g': Ghost, td: nat)
    requires GhostSized(g) && GhostSized(g')
  {
    if m.Eager? then g'.forks == g.forks
    else forall q | IsPage(q) :: g'.forks[q] - RefersCount(s', g', td, q) == g.forks[q] - RefersCount(s, g, td, q)
  }

  ghost predicate DstOk(m: Mode, s: State, g: Ghost, ts: nat, td: nat) {
    if m.Lazy? then Shadows(s, g, ts, td) else Apart(s, g, td)
  }

  ghost predicate SameView(s: State, g: Ghost, s': State, t: nat, v: Vpn)
    requires t < |g.roots|
  {
    View(s', g.roots[t], v) == View(s, g.roots[t], v)
  }

  ghost predicate SameViews(s: State, g: Ghost, s': State, td: nat)
    requires td <= |g.roots|
  {
    forall t, v | 0 <= t < td && VpnOk(v) :: SameView(s, g, s', t, v)
  }

  ghost predicate Extends(s: State, g: Ghost, s': State, g': Ghost)
    requires Sized(s) && Sized(s') && GhostSized(g) && GhostSized(g')
  {
    && g'.roots == g.roots && s'.root == s.root
    && (forall p | IsPage(p) && !g.lab[p].Free? :: g'.lab[p] == g.lab[p] && s'.bytes[p] == s.bytes[p])
    && (forall p | IsPage(p) && g.lab[p].Free? :: !g'.lab[p].Copy?)
  }

  ghost predicate MarksKept(m: Mode, s: State, g: Ghost, s': State, g': Ghost, ts: nat) {
    && (Clean(s, g) && (m.Lazy? || NoMarks(s, g, ts)) ==> Clean(s', g'))
    && (m.Eager? && NoMarks(s, g, ts) ==> NoMarks(s', g', ts))
    && (m.Eager? && Tidy(s, g) ==> Tidy(s', g'))
  }

  // A leaf slot of another space than the new one stays, or gets its mark.
  ghost predicate OldLeaves(m: Mode, s: State, g: Ghost, s': State, td: nat)
    requires GhostSized(g)
  {
    forall x | x in AllSlots() && g.lab[x.p].L0Of? && g.lab[x.p].t != td ::
      At(s', x.p, x.k) == At(s, x.p, x.k) || (m.Lazy? && At(s', x.p, x.k) == Marked(At(s, x.p, x.k)))
  }

  ghost predicate Kept(m: Mode, s: State, g: Ghost, s': State, g': Ghost, ts: nat, td: nat)
    requires Spaces(g, ts, td)
  {
    && Inv(s, g) && Inv(s', g')
    && (DstOk(m, s, g, ts, td) ==> DstOk(m, s', g', ts, td))
    && Extends(s, g, s', g')
    && (m.Eager? ==> s'.ref == s.ref)
    && MarksKept(m, s, g, s', g', ts)
    && ForksCounted(m, s, g, s', g', td)
    && OldLeaves(m, s, g, s', td)
    && (m.Eager? || Clean(s, g) ==> SameViews(s, g, s', td))
  }

  lemma KeptTrans(m: Mode, s: State, g: Ghost, s1: State, g1: Ghost, s2: State, g2: Ghost, ts: nat, td: nat)
    requires Spaces(g, ts, td) && Kept(m, s, g, s1, g1, ts, td)
    requires Spaces(g1, ts, td) && Kept(m, s1, g1, s2, g2, ts, td)
    ensures Kept(m, s, g, s2, g2, ts, td)
  {
    hide AllocatorOk, TreesOk, RefsOk, ExclusiveOk, InjectiveOk, Ok, DstOk, Clean, NoMarks, Tidy, View, Refers;
    if m.Eager? || Clean(s, g) {
      forall t, v | 0 <= t < td && VpnOk(v) ensures SameView(s, g, s2, t, v) {
        assert SameView(s, g, s1, t, v) && SameView(s1, g1, s2, t, v);
      }
    }
  }

  // ---------------------------------------------------------------- a shared leaf

  lemma UniqueL0(s: State, g: Ghost, p: int, p': int)
    requires GhostSized(g) && TreesOk(s, g) && IsPage(p) && IsPage(p') && g.lab[p].L0Of? && g.lab[p'] == g.lab[p]
    ensures p' == p
  {
    assert OwnOk(s, g, p) && OwnOk(s, g, p');
  }

  lemma ShadowsMeanUnmapped(s: State, g: Ghost, ts: nat, td: nat, x: Slot, y: Slot)
    requires GhostSized(g) && TreesOk(s, g) && InjectiveOk(s, g) && Shadows(s, g, ts, td)
    requires IsLeaf(s, g, x) && g.lab[x.p].t == ts
    requires y in AllSlots() && !IsLeaf(s, g, y) && x.k == y.k && g.lab[y.p] == L0Of(td, g.lab[x.p].i, g.lab[x.p].j)
    ensures Unmapped(s, g, td, At(s, x.p, x.k).page)
  {
    forall z | IsLeaf(s, g, z) && g.lab[z.p].t == td ensures At(s, z.p, z.k).page != At(s, x.p, x.k).page {
      var x' :| Shadow(s, g, ts, z, x');
      if x' == x {
        UniqueL0(s, g, z.p, y.p);
      }
    }
  }

  ghost predicate CanShareInto(s: State, g: Ghost, ts: nat, td: nat, x: Slot, y: Slot, e: Entry) {
    && Inv(s, g) && Spaces(g, ts, td) && Shadows(s, g, ts, td)
    && ShareArgs(s, g, x, y, e) && g.lab[x.p].t == ts && x.k == y.k && g.lab[y.p] == L0Of(td, g.lab[x.p].i, g.lab[x.p].j)
  }

  lemma RefNonNegative(s: State, g: Ghost, x: Slot)
    requires Inv(s, g) && IsLeaf(s, g, x) && IsPage(At(s, x.p, x.k).page)
    ensures s.ref[At(s, x.p, x.k).page] >= 0
  {
    var q := At(s, x.p, x.k).page;
    assert RefOk(s, g, q);
    assert x in Slots(s, g, q);
  }

  lemma ShareShadows(s: State, g: Ghost, ts: nat, td: nat, x: Slot, y: Slot, e: Entry)
    requires CanShareInto(s, g, ts, td, x, y, e)
    ensures Shadows(Share(s, g, x, y, e), ShareGhost(g, e.page), ts, td)
  {
    hide Inv, Closed;
    var s', g' := Share(s, g, x, y, e), ShareGhost(g, e.page);
    forall z | IsLeaf(s', g', z) && g'.lab[z.p].t == td
      ensures exists x' :: Shadow(s', g', ts, z, x')
    {
      if z == y {
        assert Shadow(s', g', ts, z, x);
      } else {
        var x' :| Shadow(s, g, ts, z, x');
        assert Shadow(s', g', ts, z, x');
      }
    }
  }

  lemma ShareCell(s: State, g: Ghost, x: Slot, y: Slot, e: Entry, z: Slot)
    requires Inv(s, g) && ShareArgs(s, g, x, y, e) && Clean(s, g) && z != y && z in AllSlots() && g.lab[z.p].L0Of?
    ensures CellOf(Share(s, g, x, y, e), At(Share(s, g, x, y, e), z.p, z.k)) == CellOf(s, At(s, z.p, z.k))
  {
    hide AllocatorOk, TreesOk, RefsOk, ExclusiveOk, InjectiveOk, Closed;
    RefNonNegative(s, g, x);
    if At(s, z.p, z.k).valid {
      assert IsLeaf(s, g, z);
    }
  }

  lemma ShareView(s: State, g: Ghost, ts: nat, td: nat, x: Slot, y: Slot, e: Entry, t: nat, v: Vpn)
    requires CanShareInto(s, g, ts, td, x, y, e) && Clean(s, g) && t < td && VpnOk(v)
    ensures SameView(s, g, Share(s, g, x, y, e), t, v)
  {
    hide AllocatorOk, TreesOk, RefsOk, ExclusiveOk, InjectiveOk, Closed, Shadows, Clean, CellOf;
    var s' := Share(s, g, x, y, e);
    SlotKept(s, g, s', t, v);
    match LeafSlot(s, g.roots[t], v)
    case None =>
    case Some(z) => ShareCell(s, g, x, y, e, z);
  }

  lemma ShareCleanAt(s: State, g: Ghost, x: Slot, y: Slot, e: Entry, z: Slot)
    requires ShareArgs(s, g, x, y, e) && s.ref[e.page] >= 0 && x != y
    requires Writable(s, At(s, z.p, z.k)) || z == x || z == y
    requires At(Share(s, g, x, y, e), z.p, z.k).custom
    ensures Writable(Share(s, g, x, y, e), At(Share(s, g, x, y, e), z.p, z.k))
  {
  }

  lemma ShareClean(s: State, g: Ghost, x: Slot, y: Slot, e: Entry)
    requires ShareArgs(s, g, x, y, e) && Clean(s, g) && s.ref[e.page] >= 0
    ensures Clean(Share(s, g, x, y, e), ShareGhost(g, e.page))
  {
    hide Writable, Closed;
    var s', g' := Share(s, g, x, y, e), ShareGhost(g, e.page);
    forall z | IsLeaf(s', g', z) && At(s', z.p, z.k).custom ensures Writable(s', At(s', z.p, z.k)) {
      assert z == x || z == y || IsLeaf(s, g, z);
      ShareCleanAt(s, g, x, y, e, z);
    }
  }

  lemma ShareForks(s: State, g: Ghost, td: nat, x: Slot, y: Slot, e: Entry)
    requires ShareArgs(s, g, x, y, e) && g.lab[y.p].t == td && g.lab[x.p].t != td && Unmapped(s, g, td, e.page)
    ensures ForksCounted(Lazy, s, g, Share(s, g, x, y, e), ShareGhost(g, e.page), td)
  {
    hide Closed;
    var s', g' := Share(s, g, x, y, e), ShareGhost(g, e.page);
    assert forall z :: IsLeaf(s', g', z) <==> z == y || IsLeaf(s, g, z);
    assert IsLeaf(s', g', y);
    forall q | IsPage(q) && q != e.page ensures Refers(s', g', td, q) <==> Refers(s, g, td, q) {
      if Refers(s, g, td, q) {
        var z :| IsLeaf(s, g, z) && g.lab[z.p].t == td && At(s, z.p, z.k).page == q;
        assert IsLeaf(s', g', z);
      }
    }
  }

  lemma ShareKept(s: State, g: Ghost, ts: nat, td: nat, x: Slot, y: Slot, e: Entry)
    requires CanShareInto(s, g, ts, td, x, y, e)
    ensures Kept(Lazy, s, g, Share(s, g, x, y, e), ShareGhost(g, e.page), ts, td)
  {
    hide AllocatorOk, TreesOk, RefsOk, ExclusiveOk, InjectiveOk, Closed, View, Shadows, Clean, Refers;
    var s', g' := Share(s, g, x, y, e), ShareGhost(g, e.page);
    ShadowsMeanUnmapped(s, g, ts, td, x, y);
    ShareKeeps(s, g, x, y, e);
    ShareShadows(s, g, ts, td, x, y, e);
    ShareForks(s, g, td, x, y, e);
    if Clean(s, g) {
      RefNonNegative(s, g, x);
      ShareClean(s, g, x, y, e);
      forall t, v | 0 <= t < td && VpnOk(v) ensures SameView(s, g, s', t, v) {
        ShareView(s, g, ts, td, x, y, e, t, v);
      }
    }
  }

  // ---------------------------------------------------------------- a copied leaf

  ghost predicate CanCopyInto(s: State, g: Ghost, ts: nat, td: nat, x: Slot, y: Slot, e: Entry, d: int) {
    && Inv(s, g) && Spaces(g, ts, td) && LeafAt(s, g, x, e) && g.lab[x.p].t == ts
    && y in AllSlots() && g.lab[y.p].L0Of? && g.lab[y.p].t == td && !At(s, y.p, y.k).valid
    && IsPage(d) && !s.alloc[d]
  }

  ghost function CopyLeaf(s: State, g: Ghost, y: Slot, e: Entry, d: int): (r: (State, Ghost))
    requires Ok(s) && GhostSized(g) && y in AllSlots() && IsPage(d) && IsPage(e.page)
    ensures Ok(r.0) && GhostSized(r.1)
    ensures r.0 == s.(tab := r.0.tab, bytes := s.bytes[d := s.bytes[e.page]], alloc := s.alloc[d := true], used := s.used + 1)
    ensures r.1 == g.(lab := g.lab[d := Plain])
    ensures forall p, k | p != d :: At(r.0, p, k) == if p == y.p && k == y.k then e.(page := d) else At(s, p, k)
  {
    (CopyPage(SetEntry(Allocate(s, d), y.p, y.k, e.(page := d)), d, e.page), Relabel(g, d, Plain))
  }

  lemma CopyLeafInv(s: State, g: Ghost, ts: nat, td: nat, x: Slot, y: Slot, e: Entry, d: int)
    requires CanCopyInto(s, g, ts, td, x, y, e, d)
    ensures var (s', g') := CopyLeaf(s, g, y, e, d); Inv(s', g') && g.lab[d].Free?
  {
    hide TreesOk, RefsOk, ExclusiveOk, InjectiveOk, Closed;
    var s1, g1 := Allocate(s, d), Relabel(g, d, Spare);
    AllocateKeeps(s, g, d);
    AdoptLeafKeeps(s1, g1, y, e.(page := d), e.page);
    assert Relabel(g1, d, Plain) == Relabel(g, d, Plain);
  }

  lemma CopyLeafLeaves(s: State, g: Ghost, ts: nat, td: nat, x: Slot, y: Slot, e: Entry, d: int)
    requires CanCopyInto(s, g, ts, td, x, y, e, d)
    ensures var (s', g') := CopyLeaf(s, g, y, e, d);
      && IsLeaf(s', g', y) && At(s', y.p, y.k) == e.(page := d)
      && (forall z | z != y :: IsLeaf(s', g', z) <==> IsLeaf(s, g, z))
      && (forall z | z != y && IsLeaf(s, g, z) ::
        At(s', z.p, z.k) == At(s, z.p, z.k) && g'.lab[z.p] == g.lab[z.p] && At(s, z.p, z.k).page != d)
  {
    hide RefsOk, ExclusiveOk, InjectiveOk, Closed, Slots, OwnOk;
    AllLeavesOwned(s, g);
  }

  lemma CopyLeafKept(s: State, g: Ghost, ts: nat, td: nat, x: Slot, y: Slot, e: Entry, d: int)
    requires CanCopyInto(s, g, ts, td, x, y, e, d)
    ensures var (s', g') := CopyLeaf(s, g, y, e, d); Kept(Eager, s, g, s', g', ts, td)
  {
    hide AllocatorOk, TreesOk, RefsOk, ExclusiveOk, InjectiveOk, Closed, View;
    var (s', g') := CopyLeaf(s, g, y, e, d);
    CopyLeafInv(s, g, ts, td, x, y, e, d);
    CopyLeafLeaves(s, g, ts, td, x, y, e, d);
    forall t, v | 0 <= t < td && VpnOk(v) ensures SameView(s, g, s', t, v) {
      ViewKept(s, g, s', t, v);
    }
  }
}
