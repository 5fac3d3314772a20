// Runs that mix eager and copy-on-write forks.
module VmsMixed {
  import opened VmsState
  import opened VmsInvariant
  import opened VmsForks
  import opened VmsForkLeaf
  import opened VmsRuns
  import opened VmsRefinement
  import opened VmsReachable

  // No page of the space with root r waits for its copy.
  ghost predicate NoneMarked(s: State, r: int) {
    forall v, x | Path(s, r, v, x) && At(s, x.p, x.k).custom :: At(s, x.p, x.k).write
  }

  lemma UnmarkedIsNoMarks(s: State, g: Ghost, t: nat)
    requires Inv(s, g) && t < |g.roots|
    ensures NoneMarked(s, g.roots[t]) <==> NoMarks(s, g, t)
  {
    hide Inv, Path;
    if NoneMarked(s, g.roots[t]) {
      forall x | IsLeaf(s, g, x) && g.lab[x.p].t == t && At(s, x.p, x.k).custom ensures At(s, x.p, x.k).write {
        LeafReached(s, g, x);
        assert Path(s, g.roots[t], Vpn(g.lab[x.p].i, g.lab[x.p].j, x.k), x);
      }
    }
    if NoMarks(s, g, t) {
      forall v, x | Path(s, g.roots[t], v, x) && At(s, x.p, x.k).custom ensures At(s, x.p, x.k).write {
        assert Reaches(s, g, t, v, x);
        ReachesLeaf(s, g, t, v, x);
      }
    }
  }

  // What a run with its own kind of fork at each operation shows.
  function RunMixed(m: Machine, ops: seq<MixedOp>): Trace
    requires MachineOk(m) && MixedOk(|m.roots|, ops)
    decreases |ops|
  {
    if |ops| == 0 then Trace([], Finished) else
    match Step(ops[0].mode, m, ops[0].op)
    case Exit(reason) => Trace([], Stopped(reason))
    case Next(m1, o) => Cons(o, RunMixed(m1, ops[1..]))
  }

  // Every eager fork of the run is made from a space without marks.
  ghost predicate EagerForksUnmarked(m: Machine, ops: seq<MixedOp>)
    requires MachineOk(m) && MixedOk(|m.roots|, ops)
    decreases |ops|
  {
    |ops| == 0 || (
      && (ops[0].mode.Eager? && ops[0].op.ForkOp? ==> NoneMarked(m.s, m.s.root))
      && match Step(ops[0].mode, m, ops[0].op)
         case Exit(_) => true
         case Next(m1, _) => EagerForksUnmarked(m1, ops[1..]))
  }

  function OpsOf(ops: seq<MixedOp>): (r: seq<Op>)
    ensures |r| == |ops| && forall i :: 0 <= i < |ops| ==> r[i] == ops[i].op
  {
    seq(|ops|, i requires 0 <= i < |ops| => ops[i].op)
  }

  lemma {:induction false} OpsOfOk(n: nat, ops: seq<MixedOp>)
    requires MixedOk(n, ops)
    ensures OpsOk(n, OpsOf(ops))
    decreases |ops|
  {
    if |ops| > 0 {
      OpsOfOk(if ops[0].op.ForkOp? then n + 1 else n, ops[1..]);
      assert OpsOf(ops)[1..] == OpsOf(ops[1..]);
    }
  }

  lemma CurrentSpace(s: State, g: Ghost, a: Spec)
    requires Represents(s, g, a)
    ensures a.cur < |g.roots| && s.root == g.roots[a.cur]
  {
  }

  // A run with both kinds of fork shows what the abstract machine shows, as long
  // as it makes its eager forks from spaces without marks.
  lemma {:induction false} MixedRunRefines(s: State, g: Ghost, a: Spec, ops: seq<MixedOp>)
    requires Inv(s, g) && Clean(s, g) && Represents(s, g, a) && SpecOk(a) && MixedOk(|g.roots|, ops)
    requires MachineOk(Machine(s, g.roots)) && EagerForksUnmarked(Machine(s, g.roots), ops)
    ensures |a.spaces| == |g.roots| && OpsOk(|g.roots|, OpsOf(ops))
    ensures UpToPages(RunMixed(Machine(s, g.roots), ops), SpecRun(a, OpsOf(ops)))
    decreases |ops|
  {
    hide Inv, View, Clean, Tidy, NoMarks, NoneMarked, Represents, SpecOk, Step, SpecStep, UpToPages, Cons;
    RepresentsSize(s, g, a);
    OpsOfOk(|g.roots|, ops);
    RootFine(s, g, a);
    if |ops| == 0 {
      assert OpsOf(ops) == [];
      RunEmpty(Lazy, Machine(s, g.roots), a);
    } else {
      CurrentSpace(s, g, a);
      UnmarkedIsNoMarks(s, g, a.cur);
      assert OpsOf(ops)[1..] == OpsOf(ops[1..]) && OpsOf(ops)[0] == ops[0].op;
      var g' := StepSimulates(ops[0].mode, s, g, a, ops[0].op);
      var r := Step(ops[0].mode, Machine(s, g.roots), ops[0].op);
      if r.Next? {
        assert Machine(r.m.s, g'.roots) == r.m;
        var q := SpecStep(a, ops[0].op).value.0;
        MixedRunRefines(r.m.s, g', q, ops[1..]);
        UpToPagesCons(r.out, RunMixed(r.m, ops[1..]), SpecRun(q, OpsOf(ops[1..])));
      } else {
        UpToPagesStop(r.reason, SpecRun(a, OpsOf(ops)));
      }
    }
  }
}
