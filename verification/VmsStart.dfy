// Start states described by what is in memory alone, and the main results for
// runs from them.
module VmsStart {
  import opened VmsState
  import opened VmsInvariant
  import opened VmsForks
  import opened VmsForkLeaf
  import opened VmsWalk
  import opened VmsRuns
  import opened VmsRefinement
  import opened VmsReachable

  // ---------------------------------------------------------------- well-formed start states

  // A place in one of the trees: where a page sits.
  datatype Place =
    | AtRoot(t: nat)
    | AtL1(t: nat, i: int)
    | AtL0(t: nat, i: int, j: int)
    | AtData(t: nat, i: int, j: int, k: int)

  // The page at a place; -1 if there is no such space.
  function PageAt(s: State, roots: seq<int>, a: Place): int {
    var r := if a.t < |roots| then roots[a.t] else -1;
    match a
    case AtRoot(_) => r
    case AtL1(_, i) => At(s, r, i).page
    case AtL0(_, i, j) => At(s, At(s, r, i).page, j).page
    case AtData(_, i, j, k) => At(s, At(s, At(s, r, i).page, j).page, k).page
  }

  // Valid entries lead to the place.
  predicate Occupied(s: State, roots: seq<int>, a: Place) {
    a.t < |roots| &&
    match a
    case AtRoot(_) => true
    case AtL1(_, i) => IsIndex(i) && At(s, roots[a.t], i).valid
    case AtL0(_, i, j) => IsIndex(i) && IsIndex(j) && At(s, roots[a.t], i).valid && At(s, At(s, roots[a.t], i).page, j).valid
    case AtData(_, i, j, k) =>
      && IsIndex(i) && IsIndex(j) && IsIndex(k)
      && At(s, roots[a.t], i).valid && At(s, At(s, roots[a.t], i).page, j).valid
      && At(s, At(s, At(s, roots[a.t], i).page, j).page, k).valid
  }

  // The allocator is consistent, all counters are zero, every place of every
  // tree has an allocated page of its own, and no leaf is marked.
  ghost predicate WellFormed(s: State, roots: seq<int>) {
    && Ok(s)
    && s.used == |Allocated(s)|
    && (forall p | IsPage(p) && !s.alloc[p] :: s.tab[p] == ZeroTable() && s.bytes[p] == ZeroBytes())
    && (forall p | IsPage(p) :: s.ref[p] == 0)
    && (forall a | Occupied(s, roots, a) :: IsPage(PageAt(s, roots, a)) && s.alloc[PageAt(s, roots, a)])
    && (forall a, b | Occupied(s, roots, a) && Occupied(s, roots, b) && PageAt(s, roots, a) == PageAt(s, roots, b) :: a == b)
    && (forall a | Occupied(s, roots, a) && a.AtData? :: !At(s, PageAt(s, roots, AtL0(a.t, a.i, a.j)), a.k).custom)
  }

  // ---------------------------------------------------------------- their labelling

  function LabelOf(a: Place): Label {
    match a
    case AtRoot(t) => RootOf(t)
    case AtL1(t, i) => L1Of(t, i)
    case AtL0(t, i, j) => L0Of(t, i, j)
    case AtData(_, _, _, _) => Plain
  }

  ghost predicate Sits(s: State, roots: seq<int>, a: Place, p: int) { Occupied(s, roots, a) && PageAt(s, roots, a) == p }

  ghost function LabelAt(s: State, roots: seq<int>, p: int): Label
    requires Sized(s) && IsPage(p)
  {
    if exists a :: Sits(s, roots, a, p) then
      var a :| Sits(s, roots, a, p);
      LabelOf(a)
    else if s.alloc[p] then Spare else Free
  }

  ghost function StartGhost(s: State, roots: seq<int>): (g: Ghost)
    requires Sized(s)
    ensures GhostSized(g) && g.roots == roots
    ensures forall p | IsPage(p) :: g.lab[p] == LabelAt(s, roots, p) && g.forks[p] == 0
  {
    Ghost(roots, seq(MAX_PAGES, p requires 0 <= p < MAX_PAGES => LabelAt(s, roots, p)), seq(MAX_PAGES, _ => 0))
  }

  lemma LabelHere(s: State, roots: seq<int>, a: Place)
    requires WellFormed(s, roots) && Occupied(s, roots, a)
    ensures IsPage(PageAt(s, roots, a)) && LabelAt(s, roots, PageAt(s, roots, a)) == LabelOf(a)
  {
    hide Ok, Occupied, PageAt;
    assert Sits(s, roots, a, PageAt(s, roots, a));
  }

  lemma PlaceOf(s: State, roots: seq<int>, p: int) returns (a: Place)
    requires WellFormed(s, roots) && IsPage(p) && !LabelAt(s, roots, p).Free? && !LabelAt(s, roots, p).Spare?
    ensures Sits(s, roots, a, p) && LabelOf(a) == LabelAt(s, roots, p)
  {
    hide Ok, Occupied, PageAt;
    a :| Sits(s, roots, a, p);
    LabelHere(s, roots, a);
  }

  // A leaf of the labelling is a place of a data page.
  lemma LeafPlace(s: State, roots: seq<int>, x: Slot) returns (a: Place)
    requires WellFormed(s, roots) && IsLeaf(s, StartGhost(s, roots), x)
    ensures a.AtData? && Sits(s, roots, a, At(s, x.p, x.k).page)
    ensures x == Slot(PageAt(s, roots, AtL0(a.t, a.i, a.j)), a.k)
  {
    var b := PlaceOf(s, roots, x.p);
    a := AtData(b.t, b.i, b.j, x.k);
  }

  lemma StartAllocator(s: State, roots: seq<int>)
    requires WellFormed(s, roots)
    ensures AllocatorOk(s, StartGhost(s, roots))
  {
    hide Occupied, PageAt;
    var g := StartGhost(s, roots);
    forall p | IsPage(p) ensures g.lab[p].Free? <==> !s.alloc[p] {
      if exists a :: Sits(s, roots, a, p) {
        var a :| Sits(s, roots, a, p);
        LabelHere(s, roots, a);
      }
    }
  }

  lemma StartOwn(s: State, roots: seq<int>, p: int)
    requires WellFormed(s, roots) && IsPage(p)
    ensures OwnOk(s, StartGhost(s, roots), p)
  {
    var g := StartGhost(s, roots);
    if !g.lab[p].Free? && !g.lab[p].Spare? {
      var a := PlaceOf(s, roots, p);
      match a
      case AtRoot(t) =>
        forall i | IsIndex(i) ensures Owns(s, g, p, i, L1Of(t, i)) {
          if At(s, p, i).valid { LabelHere(s, roots, AtL1(t, i)); }
        }
      case AtL1(t, i) =>
        forall j | IsIndex(j) ensures Owns(s, g, p, j, L0Of(t, i, j)) {
          if At(s, p, j).valid { LabelHere(s, roots, AtL0(t, i, j)); }
        }
      case AtL0(t, i, j) =>
        LabelHere(s, roots, AtL1(t, i));
        forall k | IsIndex(k) && At(s, p, k).valid ensures IsPage(At(s, p, k).page) && IsData(g.lab[At(s, p, k).page]) {
          LabelHere(s, roots, AtData(t, i, j, k));
        }
      case AtData(_, _, _, _) =>
    }
  }

  lemma StartSized(s: State, roots: seq<int>)
    requires WellFormed(s, roots)
    ensures Sized(s)
  {
  }

  lemma StartTrees(s: State, roots: seq<int>)
    requires WellFormed(s, roots)
    ensures TreesOk(s, StartGhost(s, roots))
  {
    hide OwnOk, WellFormed;
    StartSized(s, roots);
    var g := StartGhost(s, roots);
    forall t | 0 <= t < |roots| ensures IsPage(roots[t]) && g.lab[roots[t]] == RootOf(t) {
      LabelHere(s, roots, AtRoot(t));
    }
    forall p | IsPage(p) ensures OwnOk(s, g, p) {
      StartOwn(s, roots, p);
    }
  }

  // Each data page has exactly one leaf.
  lemma OneLeaf(s: State, roots: seq<int>, x: Slot, y: Slot)
    requires WellFormed(s, roots) && IsLeaf(s, StartGhost(s, roots), x) && IsLeaf(s, StartGhost(s, roots), y)
    requires At(s, x.p, x.k).page == At(s, y.p, y.k).page
    ensures x == y
  {
    hide Occupied, PageAt, IsLeaf;
    var a := LeafPlace(s, roots, x);
    var b := LeafPlace(s, roots, y);
    assert a == b;
  }

  lemma StartRef(s: State, roots: seq<int>, q: int)
    requires WellFormed(s, roots) && IsPage(q)
    ensures RefOk(s, StartGhost(s, roots), q)
  {
    var g := StartGhost(s, roots);
    if IsData(g.lab[q]) {
      var a := PlaceOf(s, roots, q);
      LabelHere(s, roots, AtL0(a.t, a.i, a.j));
      var x := Slot(PageAt(s, roots, AtL0(a.t, a.i, a.j)), a.k);
      assert IsLeaf(s, g, x) && At(s, x.p, x.k).page == q;
      forall y | y in Slots(s, g, q) ensures y == x {
        OneLeaf(s, roots, x, y);
      }
      assert Slots(s, g, q) == {x};
    }
  }

  // A well-formed start state satisfies the invariant.
  lemma StartInv(s: State, roots: seq<int>)
    requires WellFormed(s, roots)
    ensures Inv(s, StartGhost(s, roots)) && Tidy(s, StartGhost(s, roots))
    ensures forall p | IsPage(p) :: !StartGhost(s, roots).lab[p].Copy?
  {
    hide OwnOk, RefOk, AllocatorOk, TreesOk, Occupied, PageAt, IsLeaf;
    var g := StartGhost(s, roots);
    StartAllocator(s, roots);
    StartTrees(s, roots);
    forall q | IsPage(q) ensures RefOk(s, g, q) {
      StartRef(s, roots, q);
    }
    forall x, y | IsLeaf(s, g, x) && IsLeaf(s, g, y) && At(s, x.p, x.k).page == At(s, y.p, y.k).page ensures x == y {
      OneLeaf(s, roots, x, y);
    }
    forall x | IsLeaf(s, g, x) ensures !At(s, x.p, x.k).custom {
      var a := LeafPlace(s, roots, x);
    }
  }

  // ---------------------------------------------------------------- results for runs

  // The main theorem: from a well-formed start no program can tell copy-on-write
  // forks from eager ones.
  lemma {:induction false} ForksAgree(s: State, roots: seq<int>, t: nat, ops: seq<Op>)
    requires WellFormed(s, roots) && t < |roots| && s.root == roots[t] && OpsOk(|roots|, ops)
    ensures MachineOk(Machine(s, roots))
    ensures Agree(Run(Lazy, Machine(s, roots), ops), Run(Eager, Machine(s, roots), ops))
  {
    hide WellFormed, Inv, Tidy, Run, Agree;
    StartInv(s, roots);
    StartSized(s, roots);
    LazyRefinesEager(s, StartGhost(s, roots), t, ops);
  }

  // The leaves, over all spaces, that are mapped to page q.
  ghost function Sharers(m: Machine, q: int): set<Slot> {
    set x | x in AllSlots() && exists t: nat, v :: t < |m.roots| && Path(m.s, m.roots[t], v, x) && At(m.s, x.p, x.k).page == q
  }

  lemma SharersAreSlots(s: State, g: Ghost, q: int)
    requires Inv(s, g)
    ensures Sharers(Machine(s, g.roots), q) == Slots(s, g, q)
  {
    hide Inv, Path;
    forall x ensures x in Sharers(Machine(s, g.roots), q) <==> x in Slots(s, g, q) {
      SlotsAreReached(s, g, q, x);
      if exists t: nat, v :: Reaches(s, g, t, v, x) && At(s, x.p, x.k).page == q {
        var t: nat, v :| Reaches(s, g, t, v, x) && At(s, x.p, x.k).page == q;
        assert Path(s, g.roots[t], v, x);
        ReachesLeaf(s, g, t, v, x);
      }
      if x in Sharers(Machine(s, g.roots), q) {
        var t: nat, v :| t < |g.roots| && Path(s, g.roots[t], v, x) && At(s, x.p, x.k).page == q;
        assert Reaches(s, g, t, v, x);
      }
    }
  }

  lemma {:induction false} MovedAt(m: Machine, ops: seq<MixedOp>, g: Ghost, g': Ghost, q: int)
    requires MachineOk(m) && MixedOk(|m.roots|, ops) && GhostSized(g) && GhostSized(g') && RunMoves(m, ops, g, g') && IsPage(q)
    ensures g'.forks[q] == g.forks[q] + RunForks(m, ops, q)
    ensures g'.lab[q].Copy? <==> g.lab[q].Copy? || HandlerMade(m, ops, q)
  {
  }

  lemma CountedSlots(s: State, g: Ghost, q: int)
    requires Inv(s, g) && IsPage(q) && Slots(s, g, q) != {}
    ensures GhostSized(g) && |Slots(s, g, q)| <= g.forks[q] + 1
    ensures Ref(s, q) == |Slots(s, g, q)| + g.forks[q] - (if g.lab[q].Copy? then 0 else 1)
  {
    hide AllocatorOk, TreesOk, ExclusiveOk, InjectiveOk, Closed;
    ReferenceLaw(s, g, q);
    assert RefOk(s, g, q);
  }

  // The law of ref_num over runs: after any mixture of operations the counter of
  // a mapped page is the number of its leaves plus the number of copy-on-write
  // forks that it went through, less one unless the fault handler made it.
  lemma {:induction false} RunReferenceLaw(s: State, roots: seq<int>, t: nat, ops: seq<MixedOp>, q: int)
    requires WellFormed(s, roots) && t < |roots| && s.root == roots[t] && MixedOk(|roots|, ops) && IsPage(q)
    ensures MachineOk(Machine(s, roots))
    ensures var r := After(Machine(s, roots), ops);
      r.Some? && Sharers(r.value, q) != {} ==>
        && Ref(r.value.s, q) ==
          |Sharers(r.value, q)| + RunForks(Machine(s, roots), ops, q) - (if HandlerMade(Machine(s, roots), ops, q) then 0 else 1)
        && |Sharers(r.value, q)| <= RunForks(Machine(s, roots), ops, q) + 1
  {
    hide WellFormed, Inv, Tidy, Sharers, Slots, RunForks, HandlerMade, After, RunMoves, Clean, NoEagerFork, MixedOk, LabelAt;
    StartInv(s, roots);
    StartSized(s, roots);
    var g := StartGhost(s, roots);
    var g', t' := ReachableInv(s, g, t, ops);
    var r := After(Machine(s, roots), ops);
    if r.Some? {
      SharersAreSlots(r.value.s, g', q);
      assert Machine(r.value.s, g'.roots) == r.value;
      if Sharers(r.value, q) != {} {
        CountedSlots(r.value.s, g', q);
        MovedAt(Machine(s, roots), ops, g, g', q);
      }
    }
  }
}
