// What a copy-on-write fork changes, in every state: the exact law.
module VmsLazyFork {
  import opened Common
  import opened VmsState
  import opened VmsInvariant
  import opened VmsSteps
  import opened VmsForks
  import opened VmsForkLeaf
  import opened VmsForkTree
  import opened VmsForkTheorems

  // ---------------------------------------------------------------- leaves of the old spaces

  // A leaf of an old space is a leaf after the fork, for the same page.
  lemma OldLeafStays(s: State, g: Ghost, t: nat, d: int, s': State, g': Ghost, x: Slot)
    requires ForkDone(Lazy, s, g, t, d, s', g') && IsLeaf(s, g, x)
    ensures IsLeaf(s', g', x) && g'.lab[x.p] == g.lab[x.p] && At(s', x.p, x.k).page == At(s, x.p, x.k).page
    ensures At(s', x.p, x.k) == At(s, x.p, x.k) || At(s', x.p, x.k) == Marked(At(s, x.p, x.k))
    ensures g.lab[x.p].t < |g.roots| && (g.lab[x.p].t != t ==> At(s', x.p, x.k) == At(s, x.p, x.k))
  {
    hide AllocatorOk, RefsOk, ExclusiveOk, InjectiveOk, Closed, MarksKept, DstOk, Mirror2, SameViews;
    assert OwnOk(s, g, x.p);
  }

  lemma RowsStay(s: State, g: Ghost, t: nat, d: int, s': State, g': Ghost)
    requires ForkDone(Lazy, s, g, t, d, s', g')
    ensures Inv(s, g) && Inv(s', g') && g'.roots == g.roots + [d]
    ensures |s.tab| == |s'.tab| == |g.lab| == |g'.lab| == MAX_PAGES
    ensures forall p | IsPage(p) && !g.lab[p].Free? :: g'.lab[p] == g.lab[p]
    ensures forall p | IsPage(p) && (g.lab[p].RootOf? || g.lab[p].L1Of?) :: s'.tab[p] == s.tab[p]
    ensures OldLeaves(Lazy, s, g, s', |g.roots|)
  {
    hide AllocatorOk, TreesOk, RefsOk, ExclusiveOk, InjectiveOk, Closed, MarksKept, DstOk, Mirror2, SameViews, OldLeaves;
  }

  // A leaf of an old space after the fork was one before.
  lemma OldLeafBack(s: State, g: Ghost, t: nat, d: int, s': State, g': Ghost, y: Slot)
    requires ForkDone(Lazy, s, g, t, d, s', g') && IsLeaf(s', g', y) && g'.lab[y.p].t < |g.roots|
    ensures IsLeaf(s, g, y)
  {
    hide AllocatorOk, RefsOk, ExclusiveOk, InjectiveOk, Closed, ForkDone;
    RowsStay(s, g, t, d, s', g');
    var l := g'.lab[y.p];
    assert OwnOk(s', g', y.p);
    PathLabels(s, g, l.t, Vpn(l.i, l.j, y.k));
    var p1 := At(s, g.roots[l.t], l.i).page;
    assert At(s', g.roots[l.t], l.i) == At(s, g.roots[l.t], l.i);
    assert At(s', p1, l.j) == At(s, p1, l.j);
    assert g.lab[y.p] == l;
  }

  // A leaf of the new space stands for a leaf of the source.
  lemma NewLeafSource(s: State, g: Ghost, t: nat, d: int, s': State, g': Ghost, z: Slot) returns (x: Slot)
    requires ForkDone(Lazy, s, g, t, d, s', g') && IsLeaf(s', g', z) && g'.lab[z.p].t == |g.roots|
    ensures IsLeaf(s, g, x) && g.lab[x.p].t == t && At(s, x.p, x.k).page == At(s', z.p, z.k).page
  {
    hide AllocatorOk, TreesOk, RefsOk, ExclusiveOk, InjectiveOk, Closed, MarksKept, Mirror2, SameViews, OldLeaves;
    x :| Shadow(s', g', t, z, x);
    OldLeafBack(s, g, t, d, s', g', x);
    OldLeafStays(s, g, t, d, s', g', x);
  }

  // ---------------------------------------------------------------- counters

  lemma TwoSlotsCounted(s: State, g: Ghost, q: int, x: Slot, y: Slot)
    requires Inv(s, g) && IsPage(q) && x in Slots(s, g, q) && y in Slots(s, g, q) && x != y
    ensures s.ref[q] >= 2
  {
    hide AllocatorOk, TreesOk, RefsOk, ExclusiveOk, InjectiveOk, Closed;
    if |Slots(s, g, q)| <= 1 { AtMostOne(Slots(s, g, q), x, y); }
    SharedMeansCounted(s, g, q);
  }

  lemma TwoSlots(s: State, g: Ghost, q: int, x: Slot, y: Slot)
    requires Inv(s, g) && x in Slots(s, g, q) && y in Slots(s, g, q) && x != y
    ensures IsPage(q) && s.ref[q] >= 2
  {
    hide AllocatorOk, ExclusiveOk, InjectiveOk, Closed;
    LeafOwned(s, g, x);
    TwoSlotsCounted(s, g, q, x, y);
  }

  lemma LeafSpace(s: State, g: Ghost, y: Slot)
    requires Inv(s, g) && IsLeaf(s, g, y)
    ensures g.lab[y.p].t < |g.roots|
  {
    assert OwnOk(s, g, y.p);
  }

  // The counter of a page that the current space does not map stays.
  lemma UnmappedCount(s: State, g: Ghost, t: nat, d: int, s': State, g': Ghost, q: int)
    requires ForkDone(Lazy, s, g, t, d, s', g') && IsPage(q) && IsData(g.lab[q]) && !Refers(s, g, t, q)
    ensures s'.ref[q] == s.ref[q]
  {
    hide AllocatorOk, TreesOk, ExclusiveOk, InjectiveOk, Closed, MarksKept, Mirror2, SameViews, OldLeaves, DstOk;
    forall z | IsLeaf(s', g', z) && At(s', z.p, z.k).page == q ensures g'.lab[z.p].t != |g.roots| {
      if g'.lab[z.p].t == |g.roots| {
        var x := NewLeafSource(s, g, t, d, s', g', z);
      }
    }
    assert !Refers(s', g', |g.roots|, q);
    forall y ensures y in Slots(s', g', q) <==> y in Slots(s, g, q) {
      if y in Slots(s, g, q) { OldLeafStays(s, g, t, d, s', g', y); }
      if y in Slots(s', g', q) {
        LeafSpace(s', g', y);
        OldLeafBack(s, g, t, d, s', g', y);
        OldLeafStays(s, g, t, d, s', g', y);
      }
    }
    assert Slots(s', g', q) == Slots(s, g, q);
    assert RefOk(s, g, q) && RefOk(s', g', q);
  }

  // In another space than the current one a counted page stays counted, and no
  // other becomes so.
  lemma OtherCounted(s: State, g: Ghost, t: nat, d: int, s': State, g': Ghost, x: Slot)
    requires ForkDone(Lazy, s, g, t, d, s', g') && IsLeaf(s, g, x) && g.lab[x.p].t != t
    ensures Ref(s', At(s, x.p, x.k).page) >= 1 <==> Ref(s, At(s, x.p, x.k).page) >= 1
  {
    hide AllocatorOk, TreesOk, RefsOk, ExclusiveOk, InjectiveOk, Closed, MarksKept, Mirror2, SameViews, OldLeaves, DstOk;
    var q := At(s, x.p, x.k).page;
    LeafOwned(s, g, x);
    if Refers(s, g, t, q) {
      var z :| IsLeaf(s, g, z) && g.lab[z.p].t == t && At(s, z.p, z.k).page == q;
      OldLeafStays(s, g, t, d, s', g', x);
      OldLeafStays(s, g, t, d, s', g', z);
      TwoSlots(s, g, q, x, z);
      TwoSlots(s', g', q, x, z);
    } else {
      UnmappedCount(s, g, t, d, s', g', q);
    }
  }

  // ---------------------------------------------------------------- the current space

  // After the fork each leaf of the current space carries its mark instead of
  // write permission, and its page is counted.
  lemma SourceLeaf(s: State, g: Ghost, t: nat, d: int, s': State, g': Ghost, x: Slot, y: Slot)
    requires ForkDone(Lazy, s, g, t, d, s', g') && IsLeaf(s, g, x) && g.lab[x.p].t == t
    requires IsLeaf(s', g', y) && g'.lab[y.p].t == |g.roots| && At(s', y.p, y.k) == At(s', x.p, x.k)
    ensures At(s', x.p, x.k) == Marked(At(s, x.p, x.k)) && Ref(s', At(s, x.p, x.k).page) >= 2
  {
    hide AllocatorOk, TreesOk, RefsOk, InjectiveOk, Closed, MarksKept, Mirror2, SameViews, OldLeaves, DstOk;
    OldLeafStays(s, g, t, d, s', g', x);
    assert x != y;
    TwoSlots(s', g', At(s, x.p, x.k).page, x, y);
    if At(s, x.p, x.k).write { assert !At(s', x.p, x.k).write; }
  }

  // ---------------------------------------------------------------- marks

  function AfterLazy(m: Mark): Mark {
    match m
    case Granted => Waiting
    case Denied => Denied
    case Waiting => Waiting
    case Lost => Waiting
  }

  lemma SlotsStay(s: State, g: Ghost, t: nat, d: int, s': State, g': Ghost, t': nat, v: Vpn)
    requires ForkDone(Lazy, s, g, t, d, s', g') && t' < |g.roots| && VpnOk(v)
    ensures LeafSlot(s', g.roots[t'], v) == LeafSlot(s, g.roots[t'], v)
    ensures LeafSlot(s, g.roots[t'], v).Some? ==>
      var x := LeafSlot(s, g.roots[t'], v).value;
      && x in AllSlots() && g.lab[x.p] == L0Of(t', v.l2, v.l1)
      && (At(s, x.p, x.k).valid <==> At(s', x.p, x.k).valid)
      && (At(s, x.p, x.k).valid ==> IsLeaf(s, g, x))
  {
    hide AllocatorOk, TreesOk, RefsOk, ExclusiveOk, InjectiveOk, Closed, MarksKept, DstOk, Mirror2, SameViews;
    SlotKept(s, g, s', t', v);
  }

  lemma NewSlot(s: State, g: Ghost, t: nat, d: int, s': State, g': Ghost, v: Vpn)
    requires ForkDone(Lazy, s, g, t, d, s', g') && VpnOk(v) && LeafSlot(s', d, v).Some?
    requires At(s', LeafSlot(s', d, v).value.p, LeafSlot(s', d, v).value.k).valid
    ensures IsLeaf(s', g', LeafSlot(s', d, v).value) && g'.lab[LeafSlot(s', d, v).value.p].t == |g.roots|
  {
    hide AllocatorOk, TreesOk, RefsOk, ExclusiveOk, InjectiveOk, Closed, MarksKept, DstOk, Mirror2, SameViews, OldLeaves, LeafSlot;
    SlotKept(s', g', s', |g.roots|, v);
  }

  lemma OldBytes(s: State, g: Ghost, t: nat, d: int, s': State, g': Ghost, x: Slot)
    requires ForkDone(Lazy, s, g, t, d, s', g') && IsLeaf(s, g, x)
    ensures BytesOf(s', At(s, x.p, x.k).page) == BytesOf(s, At(s, x.p, x.k).page)
  {
    hide AllocatorOk, TreesOk, RefsOk, ExclusiveOk, InjectiveOk, Closed, MarksKept, DstOk, Mirror2, SameViews, OldLeaves;
    LeafOwned(s, g, x);
  }

  // A copy-on-write fork, whatever the state: the current space keeps its mapping,
  // read permissions and bytes; permission that was given waits; permission that
  // was lost comes back; the new space is like the current one.
  lemma LazyForkSource(s: State, g: Ghost, t: nat, d: int, s': State, g': Ghost, v: Vpn)
    requires ForkDone(Lazy, s, g, t, d, s', g') && VpnOk(v)
    ensures View(s', d, v) == View(s', g.roots[t], v) && (View(s', d, v).Some? ==> MarkAt(s', d, v) == MarkAt(s', g.roots[t], v))
    ensures View(s', g.roots[t], v).Some? <==> View(s, g.roots[t], v).Some?
    ensures View(s, g.roots[t], v).Some? ==>
      && View(s', g.roots[t], v).value.read == View(s, g.roots[t], v).value.read
      && View(s', g.roots[t], v).value.bytes == View(s, g.roots[t], v).value.bytes
      && MarkAt(s', g.roots[t], v) == AfterLazy(MarkAt(s, g.roots[t], v))
  {
    hide AllocatorOk, TreesOk, RefsOk, ExclusiveOk, InjectiveOk, Closed, MarksKept, DstOk, Mirror2, SameViews, OldLeaves, LeafSlot, View, MarkAt;
    var r := g.roots[t];
    SlotsStay(s, g, t, d, s', g', t, v);
    MirrorSlots(Lazy, s', r, d, v);
    ViewSlot(s, r, v);
    ViewSlot(s', r, v);
    ViewSlot(s', d, v);
    if LeafSlot(s, r, v).Some? {
      var x, y := LeafSlot(s, r, v).value, LeafSlot(s', d, v).value;
      CellAt(s, r, v);
      CellAt(s', r, v);
      CellAt(s', d, v);
      if At(s, x.p, x.k).valid {
        NewSlot(s, g, t, d, s', g', v);
        SourceLeaf(s, g, t, d, s', g', x, y);
        OldBytes(s, g, t, d, s', g', x);
      }
    }
  }

  // No other space changes in any way.
  lemma LazyForkOthers(s: State, g: Ghost, t: nat, d: int, s': State, g': Ghost, t': nat, v: Vpn)
    requires ForkDone(Lazy, s, g, t, d, s', g') && VpnOk(v) && t' < |g.roots| && t' != t
    ensures View(s', g.roots[t'], v) == View(s, g.roots[t'], v)
    ensures View(s, g.roots[t'], v).Some? ==> MarkAt(s', g.roots[t'], v) == MarkAt(s, g.roots[t'], v)
  {
    hide AllocatorOk, TreesOk, RefsOk, ExclusiveOk, InjectiveOk, Closed, MarksKept, DstOk, Mirror2, SameViews, OldLeaves, LeafSlot, View, MarkAt;
    var r := g.roots[t'];
    SlotsStay(s, g, t, d, s', g', t', v);
    ViewSlot(s, r, v);
    ViewSlot(s', r, v);
    if LeafSlot(s, r, v).Some? {
      var x := LeafSlot(s, r, v).value;
      CellAt(s, r, v);
      CellAt(s', r, v);
      if At(s, x.p, x.k).valid {
        OldLeafStays(s, g, t, d, s', g', x);
        OtherCounted(s, g, t, d, s', g', x);
        OldBytes(s, g, t, d, s', g', x);
      }
    }
  }

  // The leaf at v carries a mark that no fault would honour.
  predicate DeadMark(s: State, r: int, v: Vpn) { View(s, r, v).Some? && MarkAt(s, r, v).Lost? }

  // The exact condition under which a copy-on-write fork leaves what the current
  // space shows alone: no leaf of it carries a dead mark.
  lemma LazyForkIff(s: State, g: Ghost, t: nat, d: int, s': State, g': Ghost, v: Vpn)
    requires ForkDone(Lazy, s, g, t, d, s', g') && VpnOk(v)
    ensures View(s', d, v) == View(s', g.roots[t], v)
    ensures View(s', g.roots[t], v) == View(s, g.roots[t], v) <==> !DeadMark(s, g.roots[t], v)
    ensures DeadMark(s, g.roots[t], v) ==>
      && !View(s, g.roots[t], v).value.write
      && View(s', g.roots[t], v) == Some(View(s, g.roots[t], v).value.(write := true))
    ensures forall t' | 0 <= t' < |g.roots| && t' != t :: View(s', g.roots[t'], v) == View(s, g.roots[t'], v)
  {
    hide ForkDone, View, MarkAt;
    LazyForkSource(s, g, t, d, s', g', v);
    assert t < |g.roots| by { DoneShape(Lazy, s, g, t, d, s', g'); }
    if View(s, g.roots[t], v).Some? {
      ViewWrite(s, g.roots[t], v);
      ViewWrite(s', g.roots[t], v);
    }
    forall t' | 0 <= t' < |g.roots| && t' != t ensures View(s', g.roots[t'], v) == View(s, g.roots[t'], v) {
      LazyForkOthers(s, g, t, d, s', g', t', v);
    }
  }
}
