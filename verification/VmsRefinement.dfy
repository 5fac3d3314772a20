// The two implementations of fork agree: both refine the abstract machine over
// every run.
module VmsRefinement {
  import opened VmsState
  import opened VmsInvariant
  import opened VmsSteps
  import opened VmsForks
  import opened VmsForkLeaf
  import opened VmsForkTree
  import opened VmsForkTheorems
  import opened VmsWalk
  import opened VmsRuns

  // ---------------------------------------------------------------- one step

  ghost predicate StepRefines(mode: Mode, s: State, g: Ghost, a: Spec, op: Op, g': Ghost)
    requires MachineOk(Machine(s, g.roots)) && OpOk(|g.roots|, op) && SpecOk(a) && |a.spaces| == |g.roots|
  {
    var r, q := Step(mode, Machine(s, g.roots), op), SpecStep(a, op);
    if r.Exit? then r.reason.FatalFaultExit? ==> q.None?
    else
      && q.Some? && q.value.1 == r.out
      && Inv(r.m.s, g') && g'.roots == r.m.roots && Clean(r.m.s, g')
      && (mode.Eager? && Tidy(s, g) ==> Tidy(r.m.s, g'))
      && Represents(r.m.s, g', q.value.0)
  }

  lemma MachineFine(s: State, g: Ghost)
    requires Inv(s, g)
    ensures Ok(s) && forall t | 0 <= t < |g.roots| :: IsPage(g.roots[t])
  {
  }

  lemma NoGuardNoFork(mode: Mode, s: State)
    requires Ok(s) && IsPage(s.root) && !MayFork(s)
    ensures Fork(mode, s).OutOfPages?
  {
  }

  lemma NoMarksNoPending(s: State, g: Ghost, t: nat, v: Vpn)
    requires Inv(s, g) && NoMarks(s, g, t) && t < |g.roots| && VpnOk(v)
    ensures !Pending(s, g.roots[t], v)
  {
    hide AllocatorOk, TreesOk, RefsOk, ExclusiveOk, InjectiveOk, Closed, View, LeafSlot;
    if LeafSlot(s, g.roots[t], v).Some? { SlotCell(s, g, t, v); }
  }

  lemma ForkedView(mode: Mode, s: State, g: Ghost, t: nat, d: int, s1: State, g1: Ghost, v: Vpn)
    requires ForkDone(mode, s, g, t, d, s1, g1) && Clean(s, g) && VpnOk(v)
    requires mode.Eager? ==> NoMarks(s, g, t)
    ensures View(s1, d, v) == View(s, g.roots[t], v)
    ensures forall t' | 0 <= t' < |g.roots| :: View(s1, g.roots[t'], v) == View(s, g.roots[t'], v)
  {
    hide AllocatorOk, TreesOk, RefsOk, ExclusiveOk, InjectiveOk, Closed, View, LeafSlot, Clean, Tidy, Mirror2, DstOk;
    if mode.Lazy? {
      LazyForkView(s, g, t, d, s1, g1, v);
    } else {
      EagerCell(s, g, t, d, s1, g1, v);
      NoMarksNoPending(s, g, t, v);
      forall t' | 0 <= t' < |g.roots| ensures View(s1, g.roots[t'], v) == View(s, g.roots[t'], v) {
        assert SameView(s, g, s1, t', v);
      }
    }
  }

  lemma ForkRefines(mode: Mode, s: State, g: Ghost, a: Spec) returns (g': Ghost)
    requires Inv(s, g) && Clean(s, g) && Represents(s, g, a) && SpecOk(a)
    requires mode.Eager? ==> NoMarks(s, g, a.cur)
    ensures MachineOk(Machine(s, g.roots)) && StepRefines(mode, s, g, a, ForkOp, g')
  {
    hide AllocatorOk, TreesOk, RefsOk, ExclusiveOk, InjectiveOk, Closed, View, Clean, NoMarks, Tidy, Mirror2,
      DstOk, Fork;
    MachineFine(s, g);
    g' := g;
    if MayFork(s) {
      var d, s1, g1 := ForkWorks(mode, s, g, a.cur);
      g' := g1;
      forall t, v | 0 <= t < |g1.roots| && VpnOk(v)
        ensures View(s1, g1.roots[t], v) == Get(SpecStep(a, ForkOp).value.0.spaces[t], v)
      {
        ForkedView(mode, s, g, a.cur, d, s1, g1, v);
      }
    } else {
      assert Fork(mode, s).OutOfPages? by { NoGuardNoFork(mode, s); }
    }
  }

  lemma SwitchInv(s: State, g: Ghost, t: nat)
    requires Inv(s, g) && t < |g.roots|
    ensures Inv(s.(root := g.roots[t]), g)
    ensures Clean(s, g) ==> Clean(s.(root := g.roots[t]), g)
    ensures Tidy(s, g) ==> Tidy(s.(root := g.roots[t]), g)
  {
    hide OwnOk, Slots, ExclusiveOk, InjectiveOk;
    var s' := s.(root := g.roots[t]);
    AllocatorSame(s, g, s', g);
    SameLeaves(s, g, s', g);
    StoreTrees(s, g, s');
    StoreMarks(s, g, s');
    forall q | IsPage(q) ensures RefOk(s', g, q) {
      RefSame(s, g, s', g, q);
    }
  }

  lemma SwitchRefines(mode: Mode, s: State, g: Ghost, a: Spec, t: nat) returns (g': Ghost)
    requires Inv(s, g) && Clean(s, g) && Represents(s, g, a) && SpecOk(a) && t < |g.roots|
    ensures MachineOk(Machine(s, g.roots)) && StepRefines(mode, s, g, a, SwitchTo(t), g')
  {
    hide View, LeafSlot, Slots;
    MachineFine(s, g);
    g' := g;
    var s1 := s.(root := g.roots[t]);
    SwitchInv(s, g, t);
    forall t', v | 0 <= t' < |g.roots| && VpnOk(v) ensures View(s1, g.roots[t'], v) == Get(a.spaces[t'], v) {
      SameTabView(s, s1, g.roots[t'], v);
    }
  }

  lemma QuietRepresents(s: State, g: Ghost, a: Spec, s1: State, g1: Ghost)
    requires Quiet(s, g, s1, g1) && Represents(s, g, a)
    ensures Represents(s1, g1, a)
  {
    hide Inv, View, LeafSlot, Clean, Tidy;
  }

  lemma QuietMarks(s: State, g: Ghost, s1: State, g1: Ghost)
    requires Quiet(s, g, s1, g1)
    ensures Clean(s, g) ==> Clean(s1, g1)
    ensures Tidy(s, g) ==> Tidy(s1, g1)
  {
    hide Inv, View, LeafSlot, Clean, Tidy;
  }

  lemma WrittenRepresents(s: State, g: Ghost, a: Spec, op: Op, s1: State, g1: Ghost)
    requires op.WriteAt? && OpOk(|g.roots|, op) && Represents(s, g, a) && SpecOk(a)
    requires Written1(s, g, a.cur, op.v, op.off, op.w, s1, g1)
    ensures SpecStep(a, op).Some? && SpecStep(a, op).value.1 == Written
    ensures Represents(s1, g1, SpecStep(a, op).value.0)
  {
    hide Inv, View, Clean, Tidy;
    assert View(s, g.roots[a.cur], op.v) == Get(a.spaces[a.cur], op.v);
    var a1 := SpecStep(a, op).value.0;
    forall t, v | 0 <= t < |g.roots| && VpnOk(v) ensures View(s1, g.roots[t], v) == Get(a1.spaces[t], v) {
      assert View(s, g.roots[t], v) == Get(a.spaces[t], v);
    }
  }

  lemma AccessRefines(mode: Mode, s: State, g: Ghost, a: Spec, op: Op) returns (g': Ghost)
    requires Inv(s, g) && Clean(s, g) && Represents(s, g, a) && SpecOk(a)
    requires (op.ReadAt? || op.WriteAt?) && OpOk(|g.roots|, op)
    ensures MachineOk(Machine(s, g.roots)) && StepRefines(mode, s, g, a, op, g')
  {
    hide AllocatorOk, TreesOk, RefsOk, ExclusiveOk, InjectiveOk, Closed, View, LeafSlot, Clean, Tidy, Read,
      Write, Quiet;
    MachineFine(s, g);
    assert View(s, g.roots[a.cur], op.v) == Get(a.spaces[a.cur], op.v);
    if op.ReadAt? {
      g' := ReadIsSpec(s, g, a.cur, op.v, op.off);
      var r := Read(s, op.v, op.off);
      if r.ReadOk? {
        QuietInv(s, g, r.state, g');
        QuietMarks(s, g, r.state, g');
        QuietRepresents(s, g, a, r.state, g');
      }
    } else {
      g' := WriteIsSpec(s, g, a.cur, op.v, op.off, op.w);
      var r := Write(s, op.v, op.off, op.w);
      if r.WriteOk? {
        WrittenRepresents(s, g, a, op, r.state, g');
      }
    }
  }

  lemma RepresentsSize(s: State, g: Ghost, a: Spec)
    requires Represents(s, g, a)
    ensures |a.spaces| == |g.roots|
  {
  }

  // Every step of either machine is a step of the abstract one.
  lemma StepSimulates(mode: Mode, s: State, g: Ghost, a: Spec, op: Op) returns (g': Ghost)
    requires Inv(s, g) && Clean(s, g) && Represents(s, g, a) && SpecOk(a) && OpOk(|g.roots|, op)
    requires mode.Eager? && op.ForkOp? ==> NoMarks(s, g, a.cur)
    ensures MachineOk(Machine(s, g.roots)) && StepRefines(mode, s, g, a, op, g')
  {
    hide Inv, View, Clean, Tidy, NoMarks, StepRefines, Represents, SpecOk;
    match op
    case ForkOp => g' := ForkRefines(mode, s, g, a);
    case SwitchTo(t) => RepresentsSize(s, g, a); g' := SwitchRefines(mode, s, g, a, t);
    case ReadAt(_, _) => g' := AccessRefines(mode, s, g, a, op);
    case WriteAt(_, _, _) => g' := AccessRefines(mode, s, g, a, op);
  }

  // ---------------------------------------------------------------- runs

  datatype End = Finished | Stopped(reason: Reason)

  datatype Trace = Trace(outs: seq<Out>, end: End)

  function Cons(o: Out, r: Trace): Trace { Trace([o] + r.outs, r.end) }

  function Run(mode: Mode, m: Machine, ops: seq<Op>): Trace
    requires MachineOk(m) && OpsOk(|m.roots|, ops)
    decreases |ops|
  {
    if |ops| == 0 then Trace([], Finished) else
    match Step(mode, m, ops[0])
    case Exit(reason) => Trace([], Stopped(reason))
    case Next(m1, o) => Cons(o, Run(mode, m1, ops[1..]))
  }

  function SpecRun(a: Spec, ops: seq<Op>): Trace
    requires SpecOk(a) && OpsOk(|a.spaces|, ops)
    decreases |ops|
  {
    if |ops| == 0 then Trace([], Finished) else
    match SpecStep(a, ops[0])
    case None => Trace([], Stopped(FatalFaultExit))
    case Some((a1, o)) => Cons(o, SpecRun(a1, ops[1..]))
  }

  // r is what a run shows if it does not run out of pages, and the beginning of
  // it if it does.
  ghost predicate UpToPages(r: Trace, q: Trace) {
    if r.end == Stopped(OutOfPagesExit) then r.outs <= q.outs else r == q
  }

  // Marks never hurt: with lazy forks only they stay backed, and with eager
  // forks only there are none.
  ghost predicate StartOk(mode: Mode, s: State, g: Ghost) {
    Inv(s, g) && Clean(s, g) && (mode.Eager? ==> Tidy(s, g))
  }

  lemma TidyMeansNoMarks(s: State, g: Ghost, t: nat)
    requires Tidy(s, g)
    ensures NoMarks(s, g, t) && Clean(s, g)
  {
  }

  lemma {:induction false} RunEmpty(mode: Mode, m: Machine, a: Spec)
    requires MachineOk(m) && SpecOk(a)
    ensures UpToPages(Run(mode, m, []), SpecRun(a, []))
  {
  }

  lemma UpToPagesCons(o: Out, x: Trace, y: Trace)
    requires UpToPages(x, y)
    ensures UpToPages(Cons(o, x), Cons(o, y))
  {
  }

  lemma UpToPagesStop(reason: Reason, y: Trace)
    requires reason == FatalFaultExit ==> y == Trace([], Stopped(FatalFaultExit))
    ensures UpToPages(Trace([], Stopped(reason)), y)
  {
  }

  lemma RootFine(s: State, g: Ghost, a: Spec)
    requires Inv(s, g) && Represents(s, g, a)
    ensures IsPage(s.root)
  {
  }

  lemma {:induction false} RunRefines(mode: Mode, s: State, g: Ghost, a: Spec, ops: seq<Op>)
    requires StartOk(mode, s, g) && Represents(s, g, a) && SpecOk(a) && OpsOk(|g.roots|, ops)
    ensures MachineOk(Machine(s, g.roots)) && |a.spaces| == |g.roots|
    ensures UpToPages(Run(mode, Machine(s, g.roots), ops), SpecRun(a, ops))
    decreases |ops|
  {
    hide Inv, View, Clean, Tidy, NoMarks, Represents, SpecOk, Step, SpecStep, UpToPages, Cons;
    RepresentsSize(s, g, a);
    MachineFine(s, g);
    RootFine(s, g, a);
    if |ops| == 0 {
      RunEmpty(mode, Machine(s, g.roots), a);
    } else {
      if mode.Eager? { TidyMeansNoMarks(s, g, a.cur); }
      var g' := StepSimulates(mode, s, g, a, ops[0]);
      var r := Step(mode, Machine(s, g.roots), ops[0]);
      if r.Next? {
        assert Machine(r.m.s, g'.roots) == r.m;
        var q := SpecStep(a, ops[0]).value.0;
        RunRefines(mode, r.m.s, g', q, ops[1..]);
        assert Run(mode, Machine(s, g.roots), ops) == Cons(r.out, Run(mode, r.m, ops[1..]));
        assert SpecRun(a, ops) == Cons(r.out, SpecRun(q, ops[1..]));
        UpToPagesCons(r.out, Run(mode, r.m, ops[1..]), SpecRun(q, ops[1..]));
      } else {
        assert Run(mode, Machine(s, g.roots), ops) == Trace([], Stopped(r.reason));
        if r.reason == FatalFaultExit {
          assert SpecStep(a, ops[0]).None?;
          assert SpecRun(a, ops) == Trace([], Stopped(FatalFaultExit));
        }
        UpToPagesStop(r.reason, SpecRun(a, ops));
      }
    }
  }

  // ---------------------------------------------------------------- the abstraction of a state

  ghost function AllVpns(): (r: set<Vpn>)
    ensures forall v :: v in r <==> VpnOk(v)
  {
    set a, b, c | 0 <= a < NUM_PTE_ENTRIES && 0 <= b < NUM_PTE_ENTRIES && 0 <= c < NUM_PTE_ENTRIES :: Vpn(a, b, c)
  }

  ghost function SpaceOf(s: State, r: int): Space {
    map v | v in AllVpns() && View(s, r, v).Some? :: View(s, r, v).value
  }

  ghost function SpecOf(s: State, g: Ghost, t: nat): (a: Spec)
  {
    Spec(seq(|g.roots|, i requires 0 <= i < |g.roots| => SpaceOf(s, g.roots[i])), t)
  }

  lemma SpecOfRepresents(s: State, g: Ghost, t: nat)
    requires Inv(s, g) && Current(s, g, t)
    ensures SpecOk(SpecOf(s, g, t)) && Represents(s, g, SpecOf(s, g, t))
  {
    hide AllocatorOk, TreesOk, RefsOk, ExclusiveOk, InjectiveOk, Closed, LeafSlot, View;
    var a := SpecOf(s, g, t);
    forall t', v | 0 <= t' < |g.roots| && v in a.spaces[t'] ensures |a.spaces[t'][v].bytes| == PAGE_SIZE {
      ViewSlot(s, g.roots[t'], v);
      SlotCell(s, g, t', v);
    }
  }

  // ---------------------------------------------------------------- the main theorem

  ghost predicate Agree(r: Trace, q: Trace) {
    if r.end != Stopped(OutOfPagesExit) && q.end != Stopped(OutOfPagesExit) then r == q
    else if q.end != Stopped(OutOfPagesExit) then r.outs <= q.outs
    else if r.end != Stopped(OutOfPagesExit) then q.outs <= r.outs
    else r.outs <= q.outs || q.outs <= r.outs
  }

  // Whatever a program does, it cannot tell copy-on-write forks from eager
  // ones: same values read, same fatal faults, as long as pages last.
  lemma {:induction false} LazyRefinesEager(s: State, g: Ghost, t: nat, ops: seq<Op>)
    requires Inv(s, g) && Tidy(s, g) && Current(s, g, t) && OpsOk(|g.roots|, ops)
    ensures MachineOk(Machine(s, g.roots))
    ensures Agree(Run(Lazy, Machine(s, g.roots), ops), Run(Eager, Machine(s, g.roots), ops))
  {
    hide Inv, View, Clean, Tidy, Represents, SpecOk, Run, SpecRun, SpecOf;
    TidyMeansNoMarks(s, g, t);
    SpecOfRepresents(s, g, t);
    RunRefines(Lazy, s, g, SpecOf(s, g, t), ops);
    RunRefines(Eager, s, g, SpecOf(s, g, t), ops);
  }
}
