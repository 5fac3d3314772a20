// What holds in every state that a program can bring about, with any mixture
// of eager and copy-on-write forks.
module VmsReachable {
  import opened Common
  import opened VmsState
  import opened VmsInvariant
  import opened VmsSteps
  import opened VmsForks
  import opened VmsForkLeaf
  import opened VmsForkTree
  import opened VmsPageCount
  import opened VmsForkTheorems
  import opened VmsMmu
  import opened VmsAccess
  import opened VmsWalk
  import opened VmsRuns
  import opened VmsRefinement

  // ---------------------------------------------------------------- runs of mixed forks

  datatype MixedOp = MixedOp(mode: Mode, op: Op)

  predicate MixedOk(n: nat, ops: seq<MixedOp>)
    decreases |ops|
  {
    |ops| == 0 || (OpOk(n, ops[0].op) && MixedOk(if ops[0].op.ForkOp? then n + 1 else n, ops[1..]))
  }

  // The state after the operations; None if the process has exited.
  function After(m: Machine, ops: seq<MixedOp>): (r: Option<Machine>)
    requires MachineOk(m) && MixedOk(|m.roots|, ops)
    decreases |ops|
  {
    if |ops| == 0 then Some(m) else
    match Step(ops[0].mode, m, ops[0].op)
    case Exit(_) => None
    case Next(m1, _) => After(m1, ops[1..])
  }

  // ---------------------------------------------------------------- paths

  // Address v leads from root page r to the valid leaf entry x, whatever the
  // permissions on the way.
  ghost predicate Path(s: State, r: int, v: Vpn, x: Slot) {
    && VpnOk(v) && x.k == v.l0
    && At(s, r, v.l2).valid
    && At(s, At(s, r, v.l2).page, v.l1).valid
    && x.p == At(s, At(s, r, v.l2).page, v.l1).page
    && At(s, x.p, x.k).valid
  }

  // Some address of the space with root r is mapped to page q.
  ghost predicate Maps(s: State, r: int, q: int) {
    exists v, x :: Path(s, r, v, x) && At(s, x.p, x.k).page == q
  }

  // The leaf entry that address v reaches in space t.
  ghost predicate Reaches(s: State, g: Ghost, t: nat, v: Vpn, x: Slot) {
    t < |g.roots| && Path(s, g.roots[t], v, x)
  }

  lemma ReachesLeaf(s: State, g: Ghost, t: nat, v: Vpn, x: Slot)
    requires Inv(s, g) && Reaches(s, g, t, v, x)
    ensures IsLeaf(s, g, x) && g.lab[x.p] == L0Of(t, v.l2, v.l1)
  {
    hide AllocatorOk, RefsOk, ExclusiveOk, InjectiveOk, Closed, TreesOk;
    PathLabels(s, g, t, v);
  }

  lemma LeafReached(s: State, g: Ghost, x: Slot)
    requires Inv(s, g) && IsLeaf(s, g, x)
    ensures var l := g.lab[x.p]; Reaches(s, g, l.t, Vpn(l.i, l.j, x.k), x)
  {
    hide AllocatorOk, RefsOk, ExclusiveOk, InjectiveOk, Closed;
    assert OwnOk(s, g, x.p);
  }

  lemma MapsIsRefers(s: State, g: Ghost, t: nat, q: int)
    requires Inv(s, g) && t < |g.roots|
    ensures Maps(s, g.roots[t], q) <==> Refers(s, g, t, q)
  {
    hide Inv;
    if Maps(s, g.roots[t], q) {
      var v, x :| Path(s, g.roots[t], v, x) && At(s, x.p, x.k).page == q;
      assert Reaches(s, g, t, v, x);
      ReachesLeaf(s, g, t, v, x);
    }
    if Refers(s, g, t, q) {
      var z :| IsLeaf(s, g, z) && g.lab[z.p].t == t && At(s, z.p, z.k).page == q;
      LeafReached(s, g, z);
      assert Path(s, g.roots[t], Vpn(g.lab[z.p].i, g.lab[z.p].j, z.k), z);
    }
  }

  // ---------------------------------------------------------------- one operation

  predicate IsAccess(op: Op) { op.ReadAt? || op.WriteAt? }

  ghost function ForkCounts(mo: MixedOp, m': Machine, q: int): nat
    requires mo.op.ForkOp? ==> |m'.roots| > 0
  {
    if mo.op.ForkOp? && mo.mode.Lazy? && Maps(m'.s, m'.roots[|m'.roots| - 1], q) then 1 else 0
  }

  // The auxiliary state moves with each step: a fork adds its root; a page keeps
  // its use; a page taken during an access is a copy made by the fault handler,
  // and no other is; and a copy-on-write fork counts once for each page that the
  // new space maps.
  ghost predicate GhostMoves(mo: MixedOp, g: Ghost, m': Machine, g': Ghost)
    requires GhostSized(g) && GhostSized(g') && |m'.roots| == |g.roots| + if mo.op.ForkOp? then 1 else 0
  {
    && g'.roots == m'.roots
    && (forall p | IsPage(p) && !g.lab[p].Free? :: g'.lab[p] == g.lab[p])
    && (forall p | IsPage(p) && g.lab[p].Free? && !g'.lab[p].Free? :: g'.lab[p].Copy? <==> IsAccess(mo.op))
    && forall q | IsPage(q) :: g'.forks[q] == g.forks[q] + ForkCounts(mo, m', q)
  }

  lemma CopiesMove(g: Ghost, g': Ghost)
    requires GhostSized(g) && GhostSized(g') && OnlyCopies(g, g')
    ensures forall p | IsPage(p) && !g.lab[p].Free? :: g'.lab[p] == g.lab[p]
    ensures forall p | IsPage(p) && g.lab[p].Free? && !g'.lab[p].Free? :: g'.lab[p].Copy?
  {
  }

  lemma ForkMoves(mo: MixedOp, s: State, g: Ghost, t: nat, d: int, s': State, g': Ghost)
    requires mo.op.ForkOp? && ForkDone(mo.mode, s, g, t, d, s', g')
    ensures GhostSized(g) && GhostSized(g') && GhostMoves(mo, g, Machine(s', g.roots + [d]), g')
  {
    hide AllocatorOk, TreesOk, RefsOk, ExclusiveOk, InjectiveOk, Closed, View, MarksKept, Mirror2, DstOk, Refers, Maps, SameViews;
    var m' := Machine(s', g.roots + [d]);
    forall q | IsPage(q) ensures g'.forks[q] == g.forks[q] + ForkCounts(mo, m', q) {
      MapsIsRefers(s', g', |g.roots|, q);
    }
  }

  lemma ForkMarks(m: Mode, s: State, g: Ghost, t: nat, d: int, s': State, g': Ghost)
    requires ForkDone(m, s, g, t, d, s', g')
    ensures m.Lazy? && Clean(s, g) ==> Clean(s', g')
  {
    hide Inv, Clean, NoMarks, Tidy, View;
  }

  lemma StepKeepsInv(mo: MixedOp, s: State, g: Ghost, t: nat) returns (g': Ghost, t': nat)
    requires Inv(s, g) && Current(s, g, t) && OpOk(|g.roots|, mo.op)
    ensures MachineOk(Machine(s, g.roots))
    ensures var r := Step(mo.mode, Machine(s, g.roots), mo.op);
      r.Next? ==>
        && Inv(r.m.s, g') && Current(r.m.s, g', t') && GhostMoves(mo, g, r.m, g')
        && (Clean(s, g) && (mo.mode.Lazy? || !mo.op.ForkOp?) ==> Clean(r.m.s, g'))
  {
    hide AllocatorOk, TreesOk, RefsOk, ExclusiveOk, InjectiveOk, Closed, View, LeafSlot, Clean, Tidy, NoMarks, Mirror2, DstOk, Refers,
      Fork, Read, Write, Quiet, MarksKept, Maps, OnlyCopies;
    MachineFine(s, g);
    g', t' := g, t;
    match mo.op
    case ForkOp =>
      if MayFork(s) {
        var d, s1, g1 := ForkWorks(mo.mode, s, g, t);
        g' := g1;
        ForkMarks(mo.mode, s, g, t, d, s1, g1);
        ForkMoves(mo, s, g, t, d, s1, g1);
      } else {
        NoGuardNoFork(mo.mode, s);
      }
    case SwitchTo(n) =>
      SwitchInv(s, g, n);
      t' := n;
    case ReadAt(v, off) =>
      g' := ReadIsSpec(s, g, t, v, off);
      if Read(s, v, off).ReadOk? {
        QuietInv(s, g, Read(s, v, off).state, g');
        QuietMarks(s, g, Read(s, v, off).state, g');
        CopiesMove(g, g');
      }
    case WriteAt(v, off, w) =>
      g' := WriteIsSpec(s, g, t, v, off, w);
      if Write(s, v, off, w).WriteOk? { CopiesMove(g, g'); }
  }

  // ---------------------------------------------------------------- whole runs

  predicate NoEagerFork(ops: seq<MixedOp>) {
    forall i :: 0 <= i < |ops| ==> ops[i].mode.Lazy? || !ops[i].op.ForkOp?
  }

  // The number of copy-on-write forks of a run whose new space maps page q.
  ghost function RunForks(m: Machine, ops: seq<MixedOp>, q: int): nat
    requires MachineOk(m) && MixedOk(|m.roots|, ops)
    decreases |ops|
  {
    if |ops| == 0 then 0 else
    match Step(ops[0].mode, m, ops[0].op)
    case Exit(_) => 0
    case Next(m1, _) => ForkCounts(ops[0], m1, q) + RunForks(m1, ops[1..], q)
  }

  // Page q was taken from the pool during an access, that is, by the handler.
  ghost predicate HandlerMade(m: Machine, ops: seq<MixedOp>, q: int)
    requires MachineOk(m) && MixedOk(|m.roots|, ops) && IsPage(q)
    decreases |ops|
  {
    |ops| > 0 &&
    match Step(ops[0].mode, m, ops[0].op)
    case Exit(_) => false
    case Next(m1, _) => (IsAccess(ops[0].op) && !m.s.alloc[q] && m1.s.alloc[q]) || HandlerMade(m1, ops[1..], q)
  }

  // The auxiliary state after a run is that of the start, moved by the run.
  ghost predicate RunMoves(m: Machine, ops: seq<MixedOp>, g: Ghost, g': Ghost)
    requires MachineOk(m) && MixedOk(|m.roots|, ops) && GhostSized(g) && GhostSized(g')
  {
    && (forall q | IsPage(q) :: g'.forks[q] == g.forks[q] + RunForks(m, ops, q))
    && (forall q | IsPage(q) :: g'.lab[q].Copy? <==> g.lab[q].Copy? || HandlerMade(m, ops, q))
    && (forall q | IsPage(q) && !g.lab[q].Free? :: g'.lab[q] == g.lab[q])
  }

  lemma NoMoves(s: State, g: Ghost)
    requires Inv(s, g) && MachineOk(Machine(s, g.roots))
    ensures GhostSized(g) && RunMoves(Machine(s, g.roots), [], g, g)
  {
  }

  lemma {:induction false} MovesOn(ops: seq<MixedOp>, s: State, g: Ghost, m1: Machine, g1: Ghost, g': Ghost, s': State)
    requires Inv(s, g) && Inv(m1.s, g1) && Inv(s', g') && MachineOk(Machine(s, g.roots)) && |ops| > 0 && MixedOk(|g.roots|, ops)
    requires Step(ops[0].mode, Machine(s, g.roots), ops[0].op).Next? && Step(ops[0].mode, Machine(s, g.roots), ops[0].op).m == m1
    requires GhostMoves(ops[0], g, m1, g1) && RunMoves(m1, ops[1..], g1, g')
    ensures RunMoves(Machine(s, g.roots), ops, g, g')
  {
    hide TreesOk, RefsOk, ExclusiveOk, InjectiveOk, Closed, Step, Maps, ForkCounts;
    forall q | IsPage(q)
      ensures g'.forks[q] == g.forks[q] + RunForks(Machine(s, g.roots), ops, q)
      ensures g'.lab[q].Copy? <==> g.lab[q].Copy? || HandlerMade(Machine(s, g.roots), ops, q)
    {
    }
  }

  lemma MovedRoots(mo: MixedOp, s: State, g: Ghost, m': Machine, g': Ghost)
    requires Inv(s, g) && Inv(m'.s, g') && |m'.roots| == |g.roots| + (if mo.op.ForkOp? then 1 else 0) && GhostMoves(mo, g, m', g')
    ensures g'.roots == m'.roots
  {
  }

  // The ownership, exclusiveness and counting invariant holds after any run, for
  // the fork counts and the copies of that run; and as long as no fork is eager
  // every mark stays backed by a count.
  lemma {:induction false} ReachableInv(s: State, g: Ghost, t: nat, ops: seq<MixedOp>) returns (g': Ghost, t': nat)
    requires Inv(s, g) && Current(s, g, t) && MixedOk(|g.roots|, ops)
    ensures MachineOk(Machine(s, g.roots))
    ensures var r := After(Machine(s, g.roots), ops);
      r.Some? ==>
        && Inv(r.value.s, g') && Current(r.value.s, g', t') && g'.roots == r.value.roots
        && GhostSized(g) && RunMoves(Machine(s, g.roots), ops, g, g')
        && (Clean(s, g) && NoEagerFork(ops) ==> Clean(r.value.s, g'))
    decreases |ops|
  {
    hide Inv, Step, GhostMoves, Clean, RunMoves;
    MachineFine(s, g);
    InvOk(s, g);
    RootPage(s, g, t);
    g', t' := g, t;
    if |ops| > 0 {
      var g1, t1 := StepKeepsInv(ops[0], s, g, t);
      var r := Step(ops[0].mode, Machine(s, g.roots), ops[0].op);
      if r.Next? {
        MovedRoots(ops[0], s, g, r.m, g1);
        assert Machine(r.m.s, g1.roots) == r.m;
        g', t' := ReachableInv(r.m.s, g1, t1, ops[1..]);
        if After(r.m, ops[1..]).Some? {
          MovesOn(ops, s, g, r.m, g1, g', After(r.m, ops[1..]).value.s);
        }
      }
    } else {
      NoMoves(s, g);
    }
  }

  // ---------------------------------------------------------------- ownership

  // A writable leaf is the only valid reference to its page, over all spaces.
  lemma WritableIsExclusive(s: State, g: Ghost, t: nat, v: Vpn, x: Slot, t': nat, v': Vpn, x': Slot)
    requires Inv(s, g) && Reaches(s, g, t, v, x) && Reaches(s, g, t', v', x')
    requires At(s, x.p, x.k).write && At(s, x.p, x.k).page == At(s, x'.p, x'.k).page
    ensures t == t' && v == v'
  {
    hide AllocatorOk, TreesOk, RefsOk, InjectiveOk, Closed;
    ReachesLeaf(s, g, t, v, x);
    ReachesLeaf(s, g, t', v', x');
    assert x == x';
  }

  // Address v leads to the lowest table p in space t.
  ghost predicate ReachesTable(s: State, g: Ghost, t: nat, v: Vpn, p: int) {
    && t < |g.roots| && VpnOk(v)
    && At(s, g.roots[t], v.l2).valid
    && At(s, At(s, g.roots[t], v.l2).page, v.l1).valid
    && p == At(s, At(s, g.roots[t], v.l2).page, v.l1).page
  }

  // Each table page belongs to one place of one space, and is no data page.
  lemma TablesAreOwned(s: State, g: Ghost, t: nat, v: Vpn, p: int, t': nat, v': Vpn, p': int)
    requires Inv(s, g) && ReachesTable(s, g, t, v, p) && ReachesTable(s, g, t', v', p')
    ensures p == p' <==> t == t' && v.l2 == v'.l2 && v.l1 == v'.l1
    ensures At(s, g.roots[t], v.l2).page == At(s, g.roots[t'], v'.l2).page <==> t == t' && v.l2 == v'.l2
    ensures g.roots[t] == g.roots[t'] <==> t == t'
    ensures At(s, p, v.l0).valid ==> At(s, p, v.l0).page !in {g.roots[t'], At(s, g.roots[t'], v'.l2).page, p'}
    ensures |{g.roots[t], At(s, g.roots[t], v.l2).page, p}| == 3
  {
    hide AllocatorOk, TreesOk, RefsOk, ExclusiveOk, InjectiveOk, Closed;
    PathLabels(s, g, t, v);
    PathLabels(s, g, t', v');
  }

  // The references that the counting law counts are exactly the leaves that
  // some address of some space reaches.
  lemma SlotsAreReached(s: State, g: Ghost, q: int, x: Slot)
    requires Inv(s, g)
    ensures x in Slots(s, g, q) <==> exists t, v :: Reaches(s, g, t, v, x) && At(s, x.p, x.k).page == q
  {
    hide AllocatorOk, RefsOk, ExclusiveOk, InjectiveOk, Closed;
    if x in Slots(s, g, q) {
      LeafReached(s, g, x);
      assert g.lab[x.p].t >= 0;
    }
    forall t: nat, v | Reaches(s, g, t, v, x) ensures IsLeaf(s, g, x) {
      ReachesLeaf(s, g, t, v, x);
    }
  }

  // The exact value of ref_num: references plus forks, less one if the page was
  // not made by the fault handler.
  lemma ReferenceLaw(s: State, g: Ghost, q: int)
    requires Inv(s, g) && IsPage(q) && Slots(s, g, q) != {}
    ensures IsData(g.lab[q])
    ensures s.ref[q] == |Slots(s, g, q)| + g.forks[q] - (if g.lab[q].Plain? then 1 else 0)
    ensures |Slots(s, g, q)| >= 2 ==> s.ref[q] >= |Slots(s, g, q)|
    ensures s.ref[q] == 1 && g.forks[q] >= 1 ==> |Slots(s, g, q)| == 1
  {
    var x :| x in Slots(s, g, q);
    assert OwnOk(s, g, x.p);
    assert RefOk(s, g, q);
  }

  // ---------------------------------------------------------------- progress

  // A write fault on a mark is cured by one call of the handler exactly if the
  // mark's page is counted; the handler fails only for want of a page, and only
  // if the page is counted more than once, and then it takes one.
  lemma MarkIsCured(s: State, g: Ghost, x: Slot) returns (g': Ghost)
    requires Inv(s, g) && IsLeaf(s, g, x) && At(s, x.p, x.k).custom && !At(s, x.p, x.k).write
    ensures Handle(s, x.p, x.k).None? <==>
      Ref(s, At(s, x.p, x.k).page) >= 2 && forall p | IsPage(p) :: s.alloc[p]
    ensures Handle(s, x.p, x.k).Some? ==>
      var s' := Handle(s, x.p, x.k).value;
      && Inv(s', g') && s'.used == s.used + (if Ref(s, At(s, x.p, x.k).page) >= 2 then 1 else 0)
      && (At(s', x.p, x.k).write <==> Ref(s, At(s, x.p, x.k).page) >= 1)
  {
    hide AllocatorOk, TreesOk, RefsOk, ExclusiveOk, InjectiveOk, Closed, Handle;
    g' := HandleLeaf(s, g, x);
  }

  // Forks run out of pages exactly when their guard says so.
  lemma ForkNeedsOnlyItsGuard(m: Mode, s: State, g: Ghost, t: nat)
    requires Inv(s, g) && Current(s, g, t)
    ensures IsPage(s.root)
    ensures Fork(m, s).Got? <==> s.used <= MAX_PAGES / 2
    ensures Fork(m, s).Got? ==> Fork(m, s).state.used == s.used + TreeCount(m, s, s.root)
    ensures |TreePages(m, s, s.root)| == TreeCount(m, s, s.root)
  {
    hide AllocatorOk, TreesOk, RefsOk, ExclusiveOk, InjectiveOk, Closed, Fork;
    RootPage(s, g, t);
    TreeSize(m, s, g, t);
    if MayFork(s) {
      var d, s1, g1 := ForkWorks(m, s, g, t);
    } else {
      NoGuardNoFork(m, s);
    }
  }

  // ---------------------------------------------------------------- the allocator

  lemma FreeRest(s: State, g: Ghost, p: int, s': State, g': Ghost)
    requires Inv(s, g) && IsPage(p) && g.lab[p].Spare? && s' == FreePage(s, p) && g' == Relabel(g, p, Free)
    ensures TreesOk(s', g') && RefsOk(s', g') && ExclusiveOk(s', g') && InjectiveOk(s', g')
  {
    hide AllocatorOk, Closed, Slots;
    SameLeaves(s, g, s', g');
    forall q | IsPage(q) ensures OwnOk(s', g', q) {
      if InUse(g.lab[q]) { OwnGrows(s, g, s', g', q); }
    }
    forall q | IsPage(q) ensures RefOk(s', g', q) {
      RefSame(s, g, s', g', q);
    }
  }

  // Freeing a page that no space uses undoes its allocation.
  lemma FreeKeeps(s: State, g: Ghost, p: int)
    requires Inv(s, g) && IsPage(p) && g.lab[p].Spare?
    ensures Inv(FreePage(s, p), Relabel(g, p, Free))
  {
    var s', g' := FreePage(s, p), Relabel(g, p, Free);
    assert AllocatorOk(s', g') by {
      assert Allocated(s) == Allocated(s') + {p};
    }
    FreeRest(s, g, p, s', g');
  }

  lemma AllocateThenFree(s: State, g: Ghost)
    requires Inv(s, g) && NewPage(s).Got?
    ensures FreePage(NewPage(s).state, NewPage(s).page) == s
    ensures forall p | IsPage(p) && !s.alloc[p] :: NewPage(s).page <= p
    ensures g.lab[NewPage(s).page].Free?
  {
    var p := NewPage(s).page;
    assert s.alloc[p := true][p := false] == s.alloc;
    assert s.tab[p := ZeroTable()] == s.tab;
    assert s.bytes[p := ZeroBytes()] == s.bytes;
  }
}
