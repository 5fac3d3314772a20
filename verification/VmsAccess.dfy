// The page-table walk computes the three-level lookup.
module VmsAccess {
  import opened Common
  import opened VmsState
  import opened VmsInvariant
  import opened VmsForks
  import opened VmsMmu
  import opened VmsWalk

  // The walk restated as a lookup: it follows the tree, and only a leaf
  // without permissions is given to the handler, once.
  function Lookup(s: State, r: int, v: Vpn): (w: WalkResult)
    requires Ok(s) && VpnOk(v)
    requires LeafSlot(s, r, v).Some? ==> LeafSlot(s, r, v).value in AllSlots()
  {
    match LeafSlot(s, r, v)
    case None => Fatal
    case Some(x) =>
      var e := At(s, x.p, x.k);
      if !e.valid then Fatal
      else if e.read || e.write then Found(x, s)
      else
        match Handle(s, x.p, x.k)
        case None => NoPages
        case Some(s1) => if At(s1, x.p, x.k).write then Found(x, s1) else Fatal
  }

  lemma HandleInvalid(s: State, p: int, k: int)
    requires Ok(s) && IsPage(p) && IsIndex(k) && !At(s, p, k).valid
    ensures Handle(s, p, k) == Some(s)
  {
  }

  lemma InvOk(s: State, g: Ghost)
    requires Inv(s, g)
    ensures Ok(s) && GhostSized(g)
  {
  }

  lemma HandledEntry(s: State, g: Ghost, x: Slot, s': State, g': Ghost)
    requires HandlerDone(s, g, x, s', g')
    ensures At(s', x.p, x.k).valid && At(s', x.p, x.k).read == At(s, x.p, x.k).read
    ensures Ok(s') && Inv(s', g') && IsLeaf(s', g', x)
  {
    hide Inv;
    assert IsLeaf(s', g', x);
    InvOk(s', g');
  }

  lemma {:induction false} WalkLeaf(s: State, g: Ghost, v: Vpn, p: int)
    requires Inv(s, g) && VpnOk(v) && IsPage(p) && g.lab[p].L0Of?
    ensures var x := Slot(p, v.l0); var e := At(s, p, v.l0);
      Walk(s, v, 0, false, p) ==
        if !e.valid then Fatal
        else if e.read || e.write then Found(x, s)
        else match Handle(s, p, v.l0)
          case None => NoPages
          case Some(s1) => if At(s1, p, v.l0).write then Found(x, s1) else Fatal
  {
    hide AllocatorOk, TreesOk, RefsOk, ExclusiveOk, InjectiveOk, Closed, HandlerDone, Handle;
    var x := Slot(p, v.l0);
    if !At(s, p, v.l0).valid {
      HandleInvalid(s, p, v.l0);
      assert Walk(s, v, 0, true, p) == Fatal;
    } else if ShouldFault(0, At(s, p, v.l0)) {
      var g' := HandleLeaf(s, g, x);
      if Handle(s, p, v.l0).Some? {
        HandledEntry(s, g, x, Handle(s, p, v.l0).value, g');
        assert Walk(s, v, 0, false, p) == Walk(Handle(s, p, v.l0).value, v, 0, true, p);
      }
    }
  }

  // The retry loop of the walk computes the three-level lookup.
  lemma {:induction false} WalkIsLookup(s: State, g: Ghost, t: nat, v: Vpn)
    requires Inv(s, g) && t < |g.roots| && VpnOk(v)
    ensures IsPage(g.roots[t])
    ensures LeafSlot(s, g.roots[t], v).Some? ==> LeafSlot(s, g.roots[t], v).value in AllSlots()
    ensures Walk(s, v, 2, false, g.roots[t]) == Lookup(s, g.roots[t], v)
  {
    hide AllocatorOk, RefsOk, ExclusiveOk, InjectiveOk, Closed, Handle;
    var r := g.roots[t];
    PathLabels(s, g, t, v);
    if !PassesInner(At(s, r, v.l2)) {
      HandleInner(s, g, r, v.l2);
      assert Walk(s, v, 2, true, r) == Fatal;
    } else {
      var p1 := At(s, r, v.l2).page;
      assert Walk(s, v, 2, false, r) == Walk(s, v, 1, false, p1);
      if !PassesInner(At(s, p1, v.l1)) {
        HandleInner(s, g, p1, v.l1);
        assert Walk(s, v, 1, true, p1) == Fatal;
      } else {
        assert Walk(s, v, 1, false, p1) == Walk(s, v, 0, false, At(s, p1, v.l1).page);
        WalkLeaf(s, g, v, At(s, p1, v.l1).page);
      }
    }
  }
}
