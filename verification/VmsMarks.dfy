// Programs that mix both kinds of fork, against an abstract machine whose cells
// carry the copy-on-write marks: the exact behaviour of every mixed run.
module VmsMarks {
  import opened Common
  import opened VmsState
  import opened VmsInvariant
  import opened VmsForks
  import opened VmsForkLeaf
  import opened VmsForkTree
  import opened VmsForkTheorems
  import opened VmsMmu
  import opened VmsAccess
  import opened VmsWalk
  import opened VmsRuns
  import opened VmsRefinement
  import opened VmsReachable
  import opened VmsMixed
  import opened VmsStart
  import opened VmsLazyFork

  // ---------------------------------------------------------------- the abstract machine

  // A mapped page with its write permission told apart by its mark.
  datatype MarkedCell = MarkedCell(read: bool, mark: Mark, bytes: seq<Byte>)

  function MarkedView(s: State, r: int, v: Vpn): Option<MarkedCell> {
    match View(s, r, v)
    case None => None
    case Some(c) => Some(MarkedCell(c.read, MarkAt(s, r, v), c.bytes))
  }

  type MarkedSpace = map<Vpn, MarkedCell>

  datatype MarkedSpec = MarkedSpec(spaces: seq<MarkedSpace>, cur: nat)

  // The marks of the current space after a fork.
  function SourceMark(mode: Mode, m: Mark): Mark {
    if mode.Lazy? then AfterLazy(m) else m
  }

  // The marks of the new space: a mark copied to a page of its own is lost.
  function CopyMark(mode: Mode, m: Mark): Mark {
    if mode.Lazy? then AfterLazy(m) else if m.Waiting? then Lost else m
  }

  function SourceSpace(mode: Mode, sp: MarkedSpace): MarkedSpace {
    map v | v in sp :: sp[v].(mark := SourceMark(mode, sp[v].mark))
  }

  function CopySpace(mode: Mode, sp: MarkedSpace): MarkedSpace {
    map v | v in sp :: sp[v].(mark := CopyMark(mode, sp[v].mark))
  }

  ghost predicate MarkedOk(a: MarkedSpec) {
    && a.cur < |a.spaces|
    && forall t, v | 0 <= t < |a.spaces| && v in a.spaces[t] :: |a.spaces[t][v].bytes| == PAGE_SIZE
  }

  // None is a fatal fault.
  function MarkedStep(mode: Mode, a: MarkedSpec, op: Op): (r: Option<(MarkedSpec, Out)>)
    requires MarkedOk(a) && OpOk(|a.spaces|, op)
    ensures r.Some? ==> MarkedOk(r.value.0) && |r.value.0.spaces| == |a.spaces| + if op.ForkOp? then 1 else 0
  {
    var sp := a.spaces[a.cur];
    match op
    case ForkOp => Some((a.(spaces := a.spaces[a.cur := SourceSpace(mode, sp)] + [CopySpace(mode, sp)]), Forked))
    case SwitchTo(t) => Some((a.(cur := t), Switched))
    case ReadAt(v, off) =>
      if v in sp && sp[v].read then Some((a, Value(LoadWord(sp[v].bytes, off)))) else None
    case WriteAt(v, off, w) =>
      if v in sp && (sp[v].mark.Granted? || sp[v].mark.Waiting?) then
        var c := MarkedCell(sp[v].read, Granted, StoreWord(sp[v].bytes, off, w));
        Some((a.(spaces := a.spaces[a.cur := sp[v := c]]), Written))
      else None
  }

  function MarkedRun(a: MarkedSpec, ops: seq<MixedOp>): Trace
    requires MarkedOk(a) && MixedOk(|a.spaces|, ops)
    decreases |ops|
  {
    if |ops| == 0 then Trace([], Finished) else
    match MarkedStep(ops[0].mode, a, ops[0].op)
    case None => Trace([], Stopped(FatalFaultExit))
    case Some((a1, o)) => Cons(o, MarkedRun(a1, ops[1..]))
  }

  ghost predicate Shows(s: State, g: Ghost, a: MarkedSpec) {
    && |a.spaces| == |g.roots| && Current(s, g, a.cur)
    && forall t, v | 0 <= t < |g.roots| && VpnOk(v) :: MarkedView(s, g.roots[t], v) == Get(a.spaces[t], v)
  }

  // ---------------------------------------------------------------- forks

  // An eager fork leaves the marks of every old space as they are.
  lemma EagerOldMark(s: State, g: Ghost, t: nat, d: int, s': State, g': Ghost, t': nat, v: Vpn)
    requires ForkDone(Eager, s, g, t, d, s', g') && t' < |g.roots| && VpnOk(v)
    ensures LeafSlot(s', g.roots[t'], v) == LeafSlot(s, g.roots[t'], v)
    ensures LeafSlot(s, g.roots[t'], v).Some? ==>
      var x := LeafSlot(s, g.roots[t'], v).value; At(s', x.p, x.k) == At(s, x.p, x.k)
    ensures MarkedView(s', g.roots[t'], v) == MarkedView(s, g.roots[t'], v)
  {
    hide AllocatorOk, TreesOk, RefsOk, ExclusiveOk, InjectiveOk, Closed, MarksKept, DstOk, Mirror2, LeafSlot, View;
    assert SameView(s, g, s', t', v);
    SlotKept(s, g, s', t', v);
  }

  // Its copy of a waiting page is lost.
  lemma EagerCopyMark(s: State, g: Ghost, t: nat, d: int, s': State, g': Ghost, v: Vpn)
    requires ForkDone(Eager, s, g, t, d, s', g') && VpnOk(v) && View(s, g.roots[t], v).Some?
    ensures MarkAt(s', d, v) == CopyMark(Eager, MarkAt(s, g.roots[t], v))
  {
    hide Inv, Mirror2, LeafSlot, Clean, NoMarks, Tidy, MarksKept, DstOk, SameViews;
    MirrorSlots(Eager, s', g.roots[t], d, v);
    EagerOldMark(s, g, t, d, s', g', t, v);
  }

  // What a fork of either kind does to each address of each space.
  lemma ForkShows(mode: Mode, s: State, g: Ghost, t: nat, d: int, s': State, g': Ghost, v: Vpn)
    requires ForkDone(mode, s, g, t, d, s', g') && VpnOk(v)
    ensures var c := MarkedView(s, g.roots[t], v);
      && MarkedView(s', g.roots[t], v) == (if c.None? then None else Some(c.value.(mark := SourceMark(mode, c.value.mark))))
      && MarkedView(s', d, v) == (if c.None? then None else Some(c.value.(mark := CopyMark(mode, c.value.mark))))
    ensures forall t' | 0 <= t' < |g.roots| && t' != t :: MarkedView(s', g.roots[t'], v) == MarkedView(s, g.roots[t'], v)
  {
    hide Inv, Mirror2, LeafSlot, View, MarkAt, Clean, NoMarks, Tidy, MarksKept, DstOk, SameViews, OldLeaves;
    forall t' | 0 <= t' < |g.roots| && t' != t ensures MarkedView(s', g.roots[t'], v) == MarkedView(s, g.roots[t'], v) {
      if mode.Lazy? { LazyForkOthers(s, g, t, d, s', g', t', v); } else { EagerOldMark(s, g, t, d, s', g', t', v); }
    }
    if mode.Lazy? {
      LazyForkSource(s, g, t, d, s', g', v);
    } else {
      EagerOldMark(s, g, t, d, s', g', t, v);
      EagerCell(s, g, t, d, s', g', v);
      if View(s, g.roots[t], v).Some? { EagerCopyMark(s, g, t, d, s', g', v); }
    }
  }

  // ---------------------------------------------------------------- accesses

  // A successful read leaves the state as it is.
  lemma ReadChangesNothing(s: State, g: Ghost, t: nat, v: Vpn, off: int)
    requires Inv(s, g) && Current(s, g, t) && VpnOk(v) && OffsetOk(off)
    ensures IsPage(s.root)
    ensures Read(s, v, off).ReadOk? ==> Read(s, v, off).state == s
  {
    hide AllocatorOk, TreesOk, RefsOk, ExclusiveOk, InjectiveOk, Closed, LeafSlot, HandlerDone, Handle, Walk;
    RootPage(s, g, t);
    WalkIsLookup(s, g, t, v);
    if Read(s, v, off).ReadOk? {
      var x := LeafSlot(s, s.root, v).value;
      SlotCell(s, g, t, v);
      if !At(s, x.p, x.k).read {
        var g1 := HandleLeaf(s, g, x);
        if Handle(s, x.p, x.k).Some? {
          var s1 := Handle(s, x.p, x.k).value;
          HandlerWrite(s, g, x, s1, g1);
          HandledEntry(s, g, x, s1, g1);
          var g2 := HandleLeaf(s1, g1, x);
          if Handle(s1, x.p, x.k).Some? { HandlerWrite(s1, g1, x, Handle(s1, x.p, x.k).value, g2); }
        }
      }
    }
  }

  // A successful write is a store, after the handler if the leaf is not writable.
  lemma WriteIsStore(s: State, g: Ghost, t: nat, v: Vpn, off: int, w: Word) returns (x: Slot, s1: State, g1: Ghost)
    requires Inv(s, g) && Current(s, g, t) && VpnOk(v) && OffsetOk(off) && IsPage(s.root)
    requires Write(s, v, off, w).WriteOk?
    ensures LeafSlot(s, s.root, v) == Some(x) && IsLeaf(s, g, x) && At(s1, x.p, x.k).write && Ok(s1)
    ensures Write(s, v, off, w).state == StoreAt(s1, At(s1, x.p, x.k).page, off, w)
    ensures (s1 == s && g1 == g) || HandlerDone(s, g, x, s1, g1)
  {
    hide AllocatorOk, TreesOk, RefsOk, ExclusiveOk, InjectiveOk, Closed, LeafSlot, HandlerDone, Handle, Walk;
    WalkIsLookup(s, g, t, v);
    x := LeafSlot(s, s.root, v).value;
    SlotCell(s, g, t, v);
    s1, g1 := s, g;
    if !At(s, x.p, x.k).write {
      g1 := HandleLeaf(s, g, x);
      s1 := Handle(s, x.p, x.k).value;
    }
  }

  lemma HandledMark(s: State, g: Ghost, x: Slot, s1: State, g1: Ghost, y: Slot)
    requires HandlerDone(s, g, x, s1, g1) && IsLeaf(s, g, y)
    ensures y != x ==> MarkOf(s1, At(s1, y.p, y.k)) == MarkOf(s, At(s, y.p, y.k))
  {
    hide Inv, Clean, Tidy, OnlyCopies;
    assert CellOf(s1, At(s1, y.p, y.k)) == CellOf(s, At(s, y.p, y.k));
  }

  lemma SlotsDiffer(s: State, g: Ghost, t: nat, v: Vpn, t': nat, v': Vpn)
    requires Inv(s, g) && t < |g.roots| && t' < |g.roots| && VpnOk(v) && VpnOk(v')
    requires LeafSlot(s, g.roots[t], v).Some? && LeafSlot(s, g.roots[t], v) == LeafSlot(s, g.roots[t'], v')
    ensures t == t' && v == v'
  {
    hide Inv, LeafSlot, View;
    SlotCell(s, g, t, v);
    SlotCell(s, g, t', v');
  }

  lemma StoreMark(s: State, q: int, off: int, w: Word, r: int, v: Vpn)
    requires Ok(s) && OffsetOk(off)
    ensures MarkAt(StoreAt(s, q, off, w), r, v) == MarkAt(s, r, v)
  {
  }

  // A write grants permission at its address and leaves every other mark alone.
  lemma WriteMark(s: State, g: Ghost, t: nat, v: Vpn, off: int, w: Word, t': nat, v': Vpn)
    requires Inv(s, g) && Current(s, g, t) && VpnOk(v) && OffsetOk(off) && IsPage(s.root)
    requires Write(s, v, off, w).WriteOk? && t' < |g.roots| && VpnOk(v') && View(s, g.roots[t'], v').Some?
    ensures MarkAt(Write(s, v, off, w).state, g.roots[t'], v') == if t' == t && v' == v then Granted else MarkAt(s, g.roots[t'], v')
  {
    hide AllocatorOk, TreesOk, RefsOk, ExclusiveOk, InjectiveOk, Closed, LeafSlot, View, HandlerDone, Write, MarkAt, StoreAt;
    var x, s1, g1 := WriteIsStore(s, g, t, v, off, w);
    StoreMark(s1, At(s1, x.p, x.k).page, off, w, g.roots[t'], v');
    ViewSlot(s, g.roots[t'], v');
    SlotCell(s, g, t', v');
    var y := LeafSlot(s, g.roots[t'], v').value;
    CellAt(s, g.roots[t'], v');
    if s1 != s || g1 != g {
      HandlerViews(s, g, x, s1, g1, t', v');
      HandledMark(s, g, x, s1, g1, y);
    }
    CellAt(s1, g.roots[t'], v');
    if x == y { SlotsDiffer(s, g, t, v, t', v'); }
  }

  // ---------------------------------------------------------------- one step

  ghost predicate StepMatches(mode: Mode, s: State, g: Ghost, a: MarkedSpec, op: Op, g': Ghost)
    requires MachineOk(Machine(s, g.roots)) && OpOk(|g.roots|, op) && MarkedOk(a) && |a.spaces| == |g.roots|
  {
    var r, q := Step(mode, Machine(s, g.roots), op), MarkedStep(mode, a, op);
    if r.Exit? then r.reason.FatalFaultExit? ==> q.None?
    else
      && q.Some? && q.value.1 == r.out
      && Inv(r.m.s, g') && g'.roots == r.m.roots
      && Shows(r.m.s, g', q.value.0)
  }

  lemma ForkMatches(mode: Mode, s: State, g: Ghost, a: MarkedSpec) returns (g': Ghost)
    requires Inv(s, g) && Shows(s, g, a) && MarkedOk(a)
    ensures MachineOk(Machine(s, g.roots)) && StepMatches(mode, s, g, a, ForkOp, g')
  {
    hide AllocatorOk, TreesOk, RefsOk, ExclusiveOk, InjectiveOk, Closed, MarkedView, ForkDone, Fork, MayFork, SourceMark, CopyMark;
    MachineFine(s, g);
    RootPage(s, g, a.cur);
    g' := g;
    if MayFork(s) {
      var d, s1, g1 := ForkWorks(mode, s, g, a.cur);
      g' := g1;
      DoneShape(mode, s, g, a.cur, d, s1, g1);
      forall t, v | 0 <= t < |g1.roots| && VpnOk(v)
        ensures MarkedView(s1, g1.roots[t], v) == Get(MarkedStep(mode, a, ForkOp).value.0.spaces[t], v)
      {
        assert MarkedView(s, g.roots[a.cur], v) == Get(a.spaces[a.cur], v);
        ForkShows(mode, s, g, a.cur, d, s1, g1, v);
      }
    } else {
      NoGuardNoFork(mode, s);
    }
  }

  lemma SameTabMarks(s: State, s1: State, r: int, v: Vpn)
    requires s1.tab == s.tab && s1.ref == s.ref && s1.bytes == s.bytes
    ensures MarkedView(s1, r, v) == MarkedView(s, r, v)
  {
  }

  lemma SwitchMatches(mode: Mode, s: State, g: Ghost, a: MarkedSpec, t: nat)
    requires Inv(s, g) && Shows(s, g, a) && MarkedOk(a) && t < |g.roots|
    ensures MachineOk(Machine(s, g.roots)) && StepMatches(mode, s, g, a, SwitchTo(t), g)
  {
    hide AllocatorOk, TreesOk, RefsOk, ExclusiveOk, InjectiveOk, Closed, MarkedView, Clean, Tidy;
    MachineFine(s, g);
    RootPage(s, g, a.cur);
    SwitchInv(s, g, t);
    var s1 := s.(root := g.roots[t]);
    forall t', v | 0 <= t' < |g.roots| && VpnOk(v) ensures MarkedView(s1, g.roots[t'], v) == Get(a.spaces[t'], v) {
      SameTabMarks(s, s1, g.roots[t'], v);
    }
  }

  lemma WriteMatches(s: State, g: Ghost, a: MarkedSpec, op: Op, s': State, g': Ghost)
    requires Inv(s, g) && Shows(s, g, a) && MarkedOk(a) && op.WriteAt? && OpOk(|g.roots|, op)
    requires IsPage(s.root) && Write(s, op.v, op.off, op.w) == WriteOk(s')
    requires Written1(s, g, a.cur, op.v, op.off, op.w, s', g')
    ensures MarkedStep(Lazy, a, op).Some? && MarkedStep(Lazy, a, op).value.1 == Written
    ensures Shows(s', g', MarkedStep(Lazy, a, op).value.0)
  {
    hide Inv, View, MarkAt, Clean, Tidy, Write;
    assert MarkedView(s, s.root, op.v) == Get(a.spaces[a.cur], op.v);
    ViewWrite(s, s.root, op.v);
    var a1 := MarkedStep(Lazy, a, op).value.0;
    forall t, v | 0 <= t < |g.roots| && VpnOk(v) ensures MarkedView(s', g.roots[t], v) == Get(a1.spaces[t], v) {
      assert MarkedView(s, g.roots[t], v) == Get(a.spaces[t], v);
      if View(s, g.roots[t], v).Some? { WriteMark(s, g, a.cur, op.v, op.off, op.w, t, v); }
    }
  }

  lemma AccessMatches(mode: Mode, s: State, g: Ghost, a: MarkedSpec, op: Op) returns (g': Ghost)
    requires Inv(s, g) && Shows(s, g, a) && MarkedOk(a)
    requires (op.ReadAt? || op.WriteAt?) && OpOk(|g.roots|, op)
    ensures MachineOk(Machine(s, g.roots)) && StepMatches(mode, s, g, a, op, g')
  {
    hide AllocatorOk, TreesOk, RefsOk, ExclusiveOk, InjectiveOk, Closed, View, MarkAt, LeafSlot, Clean, Tidy, Read, Write, Quiet;
    MachineFine(s, g);
    RootPage(s, g, a.cur);
    assert MarkedView(s, s.root, op.v) == Get(a.spaces[a.cur], op.v);
    g' := g;
    if op.ReadAt? {
      var g1 := ReadIsSpec(s, g, a.cur, op.v, op.off);
      ReadChangesNothing(s, g, a.cur, op.v, op.off);
    } else {
      g' := WriteIsSpec(s, g, a.cur, op.v, op.off, op.w);
      if View(s, s.root, op.v).Some? { ViewWrite(s, s.root, op.v); }
      if Write(s, op.v, op.off, op.w).WriteOk? {
        WriteMatches(s, g, a, op, Write(s, op.v, op.off, op.w).state, g');
      }
    }
  }

  lemma ShowsSize(s: State, g: Ghost, a: MarkedSpec)
    requires Inv(s, g) && Shows(s, g, a)
    ensures |a.spaces| == |g.roots| && IsPage(s.root)
  {
  }

  // Every step of a mixed run is a step of the machine with marks.
  lemma MarkedStepSimulates(mode: Mode, s: State, g: Ghost, a: MarkedSpec, op: Op) returns (g': Ghost)
    requires Inv(s, g) && Shows(s, g, a) && MarkedOk(a) && OpOk(|g.roots|, op)
    ensures MachineOk(Machine(s, g.roots)) && StepMatches(mode, s, g, a, op, g')
  {
    hide Inv, StepMatches, Shows, MarkedOk;
    ShowsSize(s, g, a);
    g' := g;
    match op
    case ForkOp => g' := ForkMatches(mode, s, g, a);
    case SwitchTo(t) => SwitchMatches(mode, s, g, a, t);
    case ReadAt(_, _) => g' := AccessMatches(mode, s, g, a, op);
    case WriteAt(_, _, _) => g' := AccessMatches(mode, s, g, a, op);
  }

  // ---------------------------------------------------------------- whole runs

  lemma {:induction false} NoOps(m: Machine, a: MarkedSpec)
    requires MachineOk(m) && MarkedOk(a)
    ensures UpToPages(RunMixed(m, []), MarkedRun(a, []))
  {
  }

  // Whatever forks a program mixes, it sees what the machine with marks shows.
  lemma {:induction false} MarkedRunRefines(s: State, g: Ghost, a: MarkedSpec, ops: seq<MixedOp>)
    requires Inv(s, g) && Shows(s, g, a) && MarkedOk(a) && MixedOk(|g.roots|, ops)
    ensures MachineOk(Machine(s, g.roots)) && |a.spaces| == |g.roots|
    ensures UpToPages(RunMixed(Machine(s, g.roots), ops), MarkedRun(a, ops))
    decreases |ops|
  {
    hide Inv, Shows, MarkedOk, Step, MarkedStep, UpToPages, Cons;
    ShowsSize(s, g, a);
    MachineFine(s, g);
    if |ops| == 0 {
      NoOps(Machine(s, g.roots), a);
    } else {
      var g' := MarkedStepSimulates(ops[0].mode, s, g, a, ops[0].op);
      var r := Step(ops[0].mode, Machine(s, g.roots), ops[0].op);
      if r.Next? {
        assert Machine(r.m.s, g'.roots) == r.m;
        var q := MarkedStep(ops[0].mode, a, ops[0].op).value.0;
        MarkedRunRefines(r.m.s, g', q, ops[1..]);
        UpToPagesCons(r.out, RunMixed(r.m, ops[1..]), MarkedRun(q, ops[1..]));
      } else {
        UpToPagesStop(r.reason, MarkedRun(a, ops));
      }
    }
  }

  // ---------------------------------------------------------------- against the plain machine

  // The plain abstract machine does not know that a mark can be lost.
  function PlainCell(c: MarkedCell): Cell { Cell(c.read, !c.mark.Denied?, c.bytes) }

  function PlainSpace(sp: MarkedSpace): Space { map v | v in sp :: PlainCell(sp[v]) }

  function Plainly(a: MarkedSpec): (r: Spec)
    ensures |r.spaces| == |a.spaces|
  {
    Spec(seq(|a.spaces|, i requires 0 <= i < |a.spaces| => PlainSpace(a.spaces[i])), a.cur)
  }

  lemma PlainlyOk(a: MarkedSpec)
    requires MarkedOk(a)
    ensures SpecOk(Plainly(a))
  {
  }

  predicate WriteToLost(a: MarkedSpec, op: Op)
    requires a.cur < |a.spaces|
  {
    op.WriteAt? && op.v in a.spaces[a.cur] && a.spaces[a.cur][op.v].mark.Lost?
  }

  lemma PlainFork(mode: Mode, a: MarkedSpec)
    requires MarkedOk(a)
    ensures SpecOk(Plainly(a)) && SpecStep(Plainly(a), ForkOp).Some?
    ensures SpecStep(Plainly(a), ForkOp).value.0 == Plainly(MarkedStep(mode, a, ForkOp).value.0)
  {
    var sp := a.spaces[a.cur];
    assert PlainSpace(SourceSpace(mode, sp)) == PlainSpace(sp);
    assert PlainSpace(CopySpace(mode, sp)) == PlainSpace(sp);
    assert SpecStep(Plainly(a), ForkOp).value.0.spaces == Plainly(MarkedStep(mode, a, ForkOp).value.0).spaces;
  }

  lemma PlainWrite(mode: Mode, a: MarkedSpec, op: Op)
    requires MarkedOk(a) && op.WriteAt? && OpOk(|a.spaces|, op) && MarkedStep(mode, a, op).Some?
    ensures SpecOk(Plainly(a)) && SpecStep(Plainly(a), op).Some?
    ensures SpecStep(Plainly(a), op).value.0 == Plainly(MarkedStep(mode, a, op).value.0)
  {
    var a1 := MarkedStep(mode, a, op).value.0;
    assert SpecStep(Plainly(a), op).value.0.spaces[a.cur] == PlainSpace(a1.spaces[a.cur]);
    assert SpecStep(Plainly(a), op).value.0.spaces == Plainly(a1).spaces;
  }

  // Both abstract machines take the same step unless it writes to a lost page.
  lemma PlainStep(mode: Mode, a: MarkedSpec, op: Op)
    requires MarkedOk(a) && OpOk(|a.spaces|, op) && !WriteToLost(a, op)
    ensures SpecOk(Plainly(a))
    ensures var q, p := MarkedStep(mode, a, op), SpecStep(Plainly(a), op);
      && (q.Some? <==> p.Some?)
      && (q.Some? ==> p.value == (Plainly(q.value.0), q.value.1))
  {
    hide SourceSpace, CopySpace;
    if op.ForkOp? { PlainFork(mode, a); }
    if op.WriteAt? && MarkedStep(mode, a, op).Some? { PlainWrite(mode, a, op); }
  }

  lemma PlainLostStep(a: MarkedSpec, op: Op)
    requires MarkedOk(a) && OpOk(|a.spaces|, op) && WriteToLost(a, op)
    ensures SpecOk(Plainly(a)) && SpecStep(Plainly(a), op).Some?
  {
  }

  // A write to a page whose mark is lost is fatal, whether or not a page is free.
  lemma LostWriteFatal(s: State, g: Ghost, t: nat, v: Vpn, off: int, w: Word)
    requires Inv(s, g) && Current(s, g, t) && VpnOk(v) && OffsetOk(off) && DeadMark(s, s.root, v)
    ensures IsPage(s.root) && Write(s, v, off, w) == WriteFatal
  {
    hide AllocatorOk, TreesOk, RefsOk, ExclusiveOk, InjectiveOk, Closed, LeafSlot, HandlerDone, Handle, Walk;
    RootPage(s, g, t);
    WalkIsLookup(s, g, t, v);
    SlotCell(s, g, t, v);
    var x := LeafSlot(s, s.root, v).value;
    var g1 := HandleLeaf(s, g, x);
    HandlerWrite(s, g, x, Handle(s, x.p, x.k).value, g1);
  }

  // The run comes to a write at an address whose leaf carries a dead mark.
  ghost predicate HitsDeadMark(m: Machine, ops: seq<MixedOp>)
    requires MachineOk(m) && MixedOk(|m.roots|, ops)
    decreases |ops|
  {
    |ops| > 0 && (
      || (ops[0].op.WriteAt? && DeadMark(m.s, m.s.root, ops[0].op.v))
      || match Step(ops[0].mode, m, ops[0].op)
         case Exit(_) => false
         case Next(m1, _) => HitsDeadMark(m1, ops[1..]))
  }

  lemma DeadIsLost(s: State, g: Ghost, a: MarkedSpec, op: Op)
    requires Inv(s, g) && Shows(s, g, a) && MarkedOk(a) && OpOk(|g.roots|, op)
    ensures WriteToLost(a, op) <==> op.WriteAt? && DeadMark(s, s.root, op.v)
  {
    hide Inv, View, MarkAt;
    if op.WriteAt? { assert MarkedView(s, s.root, op.v) == Get(a.spaces[a.cur], op.v); }
  }

  ghost predicate Cut(r: Trace, q: Trace) { r.end == Stopped(FatalFaultExit) && r.outs < q.outs }

  // The mixed run r against the plain trace q: cut off by a fatal fault if it
  // comes to a dead mark, and otherwise the same up to the shortage of pages.
  ghost predicate Verdict(dead: bool, r: Trace, q: Trace) {
    if dead then Cut(r, q) else UpToPages(r, q)
  }

  lemma VerdictCons(dead: bool, o: Out, r: Trace, q: Trace)
    requires Verdict(dead, r, q)
    ensures Verdict(dead, Cons(o, r), Cons(o, q))
  {
  }

  lemma {:induction false} CutHere(s: State, g: Ghost, a: MarkedSpec, ops: seq<MixedOp>)
    requires Inv(s, g) && Shows(s, g, a) && MarkedOk(a) && MixedOk(|g.roots|, ops) && |ops| > 0
    requires MachineOk(Machine(s, g.roots)) && WriteToLost(a, ops[0].op)
    requires SpecOk(Plainly(a)) && OpsOk(|a.spaces|, OpsOf(ops))
    ensures Verdict(true, RunMixed(Machine(s, g.roots), ops), SpecRun(Plainly(a), OpsOf(ops)))
  {
    hide Inv, View, MarkAt, MarkedView, Write, SpecStep;
    DeadIsLost(s, g, a, ops[0].op);
    LostWriteFatal(s, g, a.cur, ops[0].op.v, ops[0].op.off, ops[0].op.w);
    PlainLostStep(a, ops[0].op);
    assert OpsOf(ops)[0] == ops[0].op;
  }

  // The runs and the condition at a step that all machines take.
  lemma {:induction false} RealRunOn(m: Machine, ops: seq<MixedOp>, m1: Machine, o: Out)
    requires MachineOk(m) && MixedOk(|m.roots|, ops) && |ops| > 0 && !(ops[0].op.WriteAt? && DeadMark(m.s, m.s.root, ops[0].op.v))
    requires Step(ops[0].mode, m, ops[0].op) == Next(m1, o)
    ensures HitsDeadMark(m, ops) == HitsDeadMark(m1, ops[1..]) && RunMixed(m, ops) == Cons(o, RunMixed(m1, ops[1..]))
  {
    hide Step, Cons, DeadMark;
  }

  lemma {:induction false} PlainRunOn(a: Spec, ops: seq<MixedOp>, o: Out, q: Spec)
    requires SpecOk(a) && OpsOk(|a.spaces|, OpsOf(ops)) && |ops| > 0
    requires OpOk(|a.spaces|, ops[0].op) && SpecStep(a, ops[0].op) == Some((q, o))
    ensures OpsOf(ops)[1..] == OpsOf(ops[1..]) && OpsOk(|q.spaces|, OpsOf(ops[1..]))
    ensures SpecOk(q) && SpecRun(a, OpsOf(ops)) == Cons(o, SpecRun(q, OpsOf(ops[1..])))
  {
    hide SpecOk, SpecStep, Cons;
    assert OpsOf(ops)[1..] == OpsOf(ops[1..]) && OpsOf(ops)[0] == ops[0].op;
  }

  // The same at a step at which the process exits.
  lemma {:induction false} RunsStop(m: Machine, a: Spec, ops: seq<MixedOp>, reason: Reason)
    requires MachineOk(m) && SpecOk(a) && MixedOk(|m.roots|, ops) && OpsOk(|a.spaces|, OpsOf(ops)) && |a.spaces| == |m.roots|
    requires |ops| > 0 && !(ops[0].op.WriteAt? && DeadMark(m.s, m.s.root, ops[0].op.v))
    requires Step(ops[0].mode, m, ops[0].op) == Exit(reason) && (reason.FatalFaultExit? ==> SpecStep(a, ops[0].op).None?)
    ensures Verdict(HitsDeadMark(m, ops), RunMixed(m, ops), SpecRun(a, OpsOf(ops)))
  {
    hide SpecOk, Step, SpecStep, Cons, DeadMark;
    assert OpsOf(ops)[0] == ops[0].op;
  }

  lemma MachineMade(m: Machine)
    requires Ok(m.s) && IsPage(m.s.root) && forall t | 0 <= t < |m.roots| :: IsPage(m.roots[t])
    ensures MachineOk(m)
  {
  }

  lemma {:induction false} NothingHit(m: Machine, a: Spec)
    requires MachineOk(m) && SpecOk(a)
    ensures OpsOf([]) == [] && Verdict(HitsDeadMark(m, []), RunMixed(m, []), SpecRun(a, OpsOf([])))
  {
    assert OpsOf([]) == [];
  }

  lemma {:induction false} HitHere(m: Machine, ops: seq<MixedOp>)
    requires MachineOk(m) && MixedOk(|m.roots|, ops) && |ops| > 0
    requires ops[0].op.WriteAt? && DeadMark(m.s, m.s.root, ops[0].op.v)
    ensures HitsDeadMark(m, ops)
  {
  }

  lemma CurSpace(a: MarkedSpec)
    requires MarkedOk(a)
    ensures a.cur < |a.spaces|
  {
  }

  // The exact condition under which a mixed run shows what the plain abstract
  // machine shows: it never comes to a write at an address with a dead mark.
  lemma {:induction false} MixedRunIff(s: State, g: Ghost, a: MarkedSpec, ops: seq<MixedOp>)
    requires Inv(s, g) && Shows(s, g, a) && MarkedOk(a) && MixedOk(|g.roots|, ops)
    ensures MachineOk(Machine(s, g.roots)) && |a.spaces| == |g.roots|
    ensures SpecOk(Plainly(a)) && OpsOk(|a.spaces|, OpsOf(ops))
    ensures Verdict(HitsDeadMark(Machine(s, g.roots), ops), RunMixed(Machine(s, g.roots), ops), SpecRun(Plainly(a), OpsOf(ops)))
    decreases |ops|
  {
    hide Inv, Shows, MarkedOk, SpecOk, Step, MarkedStep, SpecStep, UpToPages, Cut, Cons, Plainly, WriteToLost, DeadMark, MachineOk,
      RunMixed, SpecRun, HitsDeadMark, Verdict;
    var m := Machine(s, g.roots);
    ShowsSize(s, g, a);
    assert MachineOk(m) by { MachineFine(s, g); MachineMade(m); }
    PlainlyOk(a);
    OpsOfOk(|g.roots|, ops);
    if |ops| == 0 {
      NothingHit(m, Plainly(a));
    } else {
      CurSpace(a);
      DeadIsLost(s, g, a, ops[0].op);
      if WriteToLost(a, ops[0].op) {
        CutHere(s, g, a, ops);
        assert HitsDeadMark(m, ops) by { HitHere(m, ops); }
      } else {
        var g' := MarkedStepSimulates(ops[0].mode, s, g, a, ops[0].op);
        PlainStep(ops[0].mode, a, ops[0].op);
        var r := Step(ops[0].mode, m, ops[0].op);
        if r.Next? {
          assert Machine(r.m.s, g'.roots) == r.m;
          var q := MarkedStep(ops[0].mode, a, ops[0].op).value.0;
          MixedRunIff(r.m.s, g', q, ops[1..]);
          RealRunOn(m, ops, r.m, r.out);
          PlainRunOn(Plainly(a), ops, r.out, Plainly(q));
          VerdictCons(HitsDeadMark(r.m, ops[1..]), r.out, RunMixed(r.m, ops[1..]), SpecRun(Plainly(q), OpsOf(ops[1..])));
        } else {
          RunsStop(m, Plainly(a), ops, r.reason);
        }
      }
    }
  }

  // ---------------------------------------------------------------- from a start state

  ghost function MarkedSpaceOf(s: State, r: int): MarkedSpace {
    map v | v in AllVpns() && MarkedView(s, r, v).Some? :: MarkedView(s, r, v).value
  }

  ghost function MarkedSpecOf(s: State, g: Ghost, t: nat): (a: MarkedSpec)
    ensures |a.spaces| == |g.roots| && a.cur == t
  {
    MarkedSpec(seq(|g.roots|, i requires 0 <= i < |g.roots| => MarkedSpaceOf(s, g.roots[i])), t)
  }

  lemma MarkedSpecShows(s: State, g: Ghost, t: nat)
    requires Inv(s, g) && Current(s, g, t)
    ensures MarkedOk(MarkedSpecOf(s, g, t)) && Shows(s, g, MarkedSpecOf(s, g, t))
  {
    hide AllocatorOk, TreesOk, RefsOk, ExclusiveOk, InjectiveOk, Closed, LeafSlot, View, MarkAt;
    var a := MarkedSpecOf(s, g, t);
    forall t', v | 0 <= t' < |g.roots| && v in a.spaces[t'] ensures |a.spaces[t'][v].bytes| == PAGE_SIZE {
      ViewSlot(s, g.roots[t'], v);
      SlotCell(s, g, t', v);
    }
  }

  // Where no mark is dead the plain machine represents the state.
  lemma PlainRepresents(s: State, g: Ghost, a: MarkedSpec)
    requires Inv(s, g) && Shows(s, g, a) && Clean(s, g)
    ensures Represents(s, g, Plainly(a))
  {
    hide AllocatorOk, TreesOk, RefsOk, ExclusiveOk, InjectiveOk, Closed, LeafSlot, View;
    forall t, v | 0 <= t < |g.roots| && VpnOk(v) ensures View(s, g.roots[t], v) == Get(Plainly(a).spaces[t], v) {
      assert MarkedView(s, g.roots[t], v) == Get(a.spaces[t], v);
      if View(s, g.roots[t], v).Some? {
        ViewSlot(s, g.roots[t], v);
        SlotCell(s, g, t, v);
      }
    }
  }

  // From a well-formed start a program that chooses the kind of each of its forks
  // sees what it sees with forks of one kind, if and only if it never comes to
  // a write at an address with a dead mark; there it is cut off.
  lemma {:induction false} MixedForksAgreeIff(s: State, roots: seq<int>, t: nat, mode: Mode, ops: seq<MixedOp>)
    requires WellFormed(s, roots) && t < |roots| && s.root == roots[t] && MixedOk(|roots|, ops)
    ensures MachineOk(Machine(s, roots)) && OpsOk(|roots|, OpsOf(ops))
    ensures var r, q := RunMixed(Machine(s, roots), ops), Run(mode, Machine(s, roots), OpsOf(ops));
      if HitsDeadMark(Machine(s, roots), ops) then
        r.end == Stopped(FatalFaultExit) && (q.end != Stopped(OutOfPagesExit) ==> r.outs < q.outs)
      else Agree(r, q)
  {
    hide WellFormed, Inv, Tidy, Clean, Run, RunMixed, SpecRun, HitsDeadMark, MarkedOk, SpecOk, Shows, Represents, Plainly, MixedOk;
    StartInv(s, roots);
    StartSized(s, roots);
    var g := StartGhost(s, roots);
    TidyMeansNoMarks(s, g, t);
    MarkedSpecShows(s, g, t);
    var a := MarkedSpecOf(s, g, t);
    PlainRepresents(s, g, a);
    MixedRunIff(s, g, a, ops);
    RunRefines(mode, s, g, Plainly(a), OpsOf(ops));
  }
}
