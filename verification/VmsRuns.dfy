// Programs over the memory system, the abstract machine that both kinds of fork
// implement, and what a single read or write does.
module VmsRuns {
  import opened Common
  import opened VmsState
  import opened VmsInvariant
  import opened VmsSteps
  import opened VmsForks
  import opened VmsForkLeaf
  import opened VmsForkTheorems
  import opened VmsMmu
  import opened VmsAccess
  import opened VmsWalk

  // ---------------------------------------------------------------- programs

  datatype Op =
    | ForkOp
    | SwitchTo(t: nat)
    | ReadAt(v: Vpn, off: int)
    | WriteAt(v: Vpn, off: int, w: Word)

  datatype Out = Forked | Switched | Value(w: Word) | Written

  datatype Reason = OutOfPagesExit | FatalFaultExit

  // A program step is given the roots handed out so far and may switch to any
  // of them; n is their number.
  predicate OpOk(n: nat, op: Op) {
    match op
    case ForkOp => true
    case SwitchTo(t) => t < n
    case ReadAt(v, off) => VpnOk(v) && OffsetOk(off)
    case WriteAt(v, off, w) => VpnOk(v) && OffsetOk(off)
  }

  predicate OpsOk(n: nat, ops: seq<Op>)
    decreases |ops|
  {
    |ops| == 0 || (OpOk(n, ops[0]) && OpsOk(if ops[0].ForkOp? then n + 1 else n, ops[1..]))
  }

  // ---------------------------------------------------------------- the real machine

  datatype Machine = Machine(s: State, roots: seq<int>)

  ghost predicate MachineOk(m: Machine) {
    Ok(m.s) && IsPage(m.s.root) && forall t | 0 <= t < |m.roots| :: IsPage(m.roots[t])
  }

  datatype StepResult = Exit(reason: Reason) | Next(m: Machine, out: Out)

  function Step(mode: Mode, m: Machine, op: Op): (r: StepResult)
    requires MachineOk(m) && OpOk(|m.roots|, op)
    ensures r.Next? ==> MachineOk(r.m) && |r.m.roots| == |m.roots| + if op.ForkOp? then 1 else 0
  {
    match op
    case ForkOp =>
      (match Fork(mode, m.s)
       case OutOfPages => Exit(OutOfPagesExit)
       case Got(d, s1) => Next(Machine(s1, m.roots + [d]), Forked))
    case SwitchTo(t) => Next(m.(s := m.s.(root := m.roots[t])), Switched)
    case ReadAt(v, off) =>
      (match Read(m.s, v, off)
       case ReadNoPages => Exit(OutOfPagesExit)
       case ReadFatal => Exit(FatalFaultExit)
       case ReadOk(w, s1) => Next(m.(s := s1), Value(w)))
    case WriteAt(v, off, w) =>
      (match Write(m.s, v, off, w)
       case WriteNoPages => Exit(OutOfPagesExit)
       case WriteFatal => Exit(FatalFaultExit)
       case WriteOk(s1) => Next(m.(s := s1), Written))
  }

  // ---------------------------------------------------------------- the abstract machine

  // An address space maps each mapped page to its permissions and bytes; a fork
  // duplicates the current space and a write changes one page of it.
  type Space = map<Vpn, Cell>

  datatype Spec = Spec(spaces: seq<Space>, cur: nat)

  function Get<T>(sp: map<Vpn, T>, v: Vpn): Option<T> {
    if v in sp then Some(sp[v]) else None
  }

  ghost predicate SpecOk(a: Spec) {
    && a.cur < |a.spaces|
    && forall t, v | 0 <= t < |a.spaces| && v in a.spaces[t] :: |a.spaces[t][v].bytes| == PAGE_SIZE
  }

  // None is a fatal fault.
  function SpecStep(a: Spec, op: Op): (r: Option<(Spec, Out)>)
    requires SpecOk(a) && OpOk(|a.spaces|, op)
    ensures r.Some? ==> SpecOk(r.value.0) && |r.value.0.spaces| == |a.spaces| + if op.ForkOp? then 1 else 0
  {
    var sp := a.spaces[a.cur];
    match op
    case ForkOp => Some((a.(spaces := a.spaces + [sp]), Forked))
    case SwitchTo(t) => Some((a.(cur := t), Switched))
    case ReadAt(v, off) =>
      if v in sp && sp[v].read then Some((a, Value(LoadWord(sp[v].bytes, off)))) else None
    case WriteAt(v, off, w) =>
      if v in sp && sp[v].write then
        Some((a.(spaces := a.spaces[a.cur := sp[v := sp[v].(bytes := StoreWord(sp[v].bytes, off, w))]]), Written))
      else None
  }

  ghost predicate Represents(s: State, g: Ghost, a: Spec) {
    && |a.spaces| == |g.roots| && Current(s, g, a.cur)
    && forall t, v | 0 <= t < |g.roots| && VpnOk(v) :: View(s, g.roots[t], v) == Get(a.spaces[t], v)
  }

  // ---------------------------------------------------------------- steps that nobody sees

  ghost predicate Quiet(s: State, g: Ghost, s1: State, g1: Ghost) {
    && Inv(s, g) && Inv(s1, g1) && g1.roots == g.roots && g1.forks == g.forks && s1.root == s.root
    && s.used <= s1.used && OnlyCopies(g, g1)
    && (forall t, v | 0 <= t < |g.roots| && VpnOk(v) ::
      View(s1, g.roots[t], v) == View(s, g.roots[t], v) && LeafSlot(s1, g.roots[t], v) == LeafSlot(s, g.roots[t], v))
    && (Clean(s, g) ==> Clean(s1, g1)) && (Tidy(s, g) ==> Tidy(s1, g1))
  }

  lemma HandlerQuiet(s: State, g: Ghost, x: Slot, s1: State, g1: Ghost)
    requires HandlerDone(s, g, x, s1, g1)
    ensures Quiet(s, g, s1, g1)
  {
    hide AllocatorOk, TreesOk, RefsOk, ExclusiveOk, InjectiveOk, Closed, View, LeafSlot, Clean, Tidy;
    forall t, v | 0 <= t < |g.roots| && VpnOk(v)
      ensures View(s1, g.roots[t], v) == View(s, g.roots[t], v) && LeafSlot(s1, g.roots[t], v) == LeafSlot(s, g.roots[t], v)
    {
      HandlerViews(s, g, x, s1, g1, t, v);
    }
  }

  lemma QuietTrans(s: State, g: Ghost, s1: State, g1: Ghost, s2: State, g2: Ghost)
    requires Quiet(s, g, s1, g1) && Quiet(s1, g1, s2, g2)
    ensures Quiet(s, g, s2, g2)
  {
    hide Inv, View, LeafSlot, Clean, Tidy;
  }

  lemma QuietRefl(s: State, g: Ghost)
    requires Inv(s, g)
    ensures Quiet(s, g, s, g)
  {
    hide Inv, View, LeafSlot, Clean, Tidy;
  }

  lemma SlotIndex(s: State, r: int, v: Vpn)
    requires LeafSlot(s, r, v).Some?
    ensures LeafSlot(s, r, v).value.k == v.l0
  {
  }

  // The cell of the leaf that the walk finds.
  lemma SlotCell(s: State, g: Ghost, t: nat, v: Vpn)
    requires Inv(s, g) && t < |g.roots| && VpnOk(v) && LeafSlot(s, g.roots[t], v).Some?
    ensures var x := LeafSlot(s, g.roots[t], v).value; var e := At(s, x.p, x.k);
      && x in AllSlots() && g.lab[x.p] == L0Of(t, v.l2, v.l1) && x.k == v.l0
      && (e.valid ==> IsLeaf(s, g, x) && IsPage(e.page) && IsData(g.lab[e.page]) && |BytesOf(s, e.page)| == PAGE_SIZE)
      && (e.valid ==> View(s, g.roots[t], v) == Some(Cell(e.read, Writable(s, e), s.bytes[e.page])))
      && (!e.valid ==> View(s, g.roots[t], v) == None)
  {
    hide AllocatorOk, RefsOk, ExclusiveOk, InjectiveOk, TreesOk, Closed, LeafSlot;
    SlotKept(s, g, s, t, v);
    var x := LeafSlot(s, g.roots[t], v).value;
    SlotIndex(s, g.roots[t], v);
    if At(s, x.p, x.k).valid { LeafOwned(s, g, x); }
  }

  lemma RootPage(s: State, g: Ghost, t: nat)
    requires Inv(s, g) && t < |g.roots|
    ensures IsPage(g.roots[t]) && Ok(s)
  {
  }

  lemma QuietSlot(s: State, g: Ghost, s1: State, g1: Ghost, t: nat, v: Vpn)
    requires Quiet(s, g, s1, g1) && t < |g.roots| && VpnOk(v)
    ensures LeafSlot(s1, g1.roots[t], v) == LeafSlot(s, g.roots[t], v)
    ensures View(s1, g1.roots[t], v) == View(s, g.roots[t], v)
  {
    hide Inv, View, LeafSlot, Clean, Tidy;
  }

  lemma HandlerWrite(s: State, g: Ghost, x: Slot, s1: State, g1: Ghost)
    requires HandlerDone(s, g, x, s1, g1)
    ensures At(s1, x.p, x.k).write == Writable(s, At(s, x.p, x.k))
    ensures At(s1, x.p, x.k).read == At(s, x.p, x.k).read
    ensures IsLeaf(s1, g1, x) && At(s1, x.p, x.k).valid
  {
    hide Inv;
  }

  lemma WalkOutcome(s: State, g: Ghost, t: nat, v: Vpn) returns (g1: Ghost)
    requires Inv(s, g) && Current(s, g, t) && VpnOk(v)
    ensures IsPage(s.root)
    ensures var w := Walk(s, v, MMU_LEVELS - 1, false, s.root); var c := View(s, s.root, v);
      && (w.NoPages? ==> NewPage(s).OutOfPages?)
      && (w.Found? ==> w.state == s || At(w.state, w.slot.p, w.slot.k).write)
      && (w.Fatal? ==> c.None? || (!c.value.read && !c.value.write))
      && (w.Found? ==> Quiet(s, g, w.state, g1) && c.Some? && LeafSlot(w.state, g1.roots[t], v) == Some(w.slot))
  {
    hide AllocatorOk, TreesOk, RefsOk, ExclusiveOk, InjectiveOk, Closed, LeafSlot, View, Clean, Tidy, Quiet,
      HandlerDone, Handle, Walk;
    RootPage(s, g, t);
    WalkIsLookup(s, g, t, v);
    g1 := g;
    QuietRefl(s, g);
    if LeafSlot(s, s.root, v).Some? {
      var x := LeafSlot(s, s.root, v).value;
      SlotCell(s, g, t, v);
      var e := At(s, x.p, x.k);
      if e.valid && !e.read && !e.write {
        g1 := HandleLeaf(s, g, x);
        if Handle(s, x.p, x.k).Some? {
          var s1 := Handle(s, x.p, x.k).value;
          HandlerQuiet(s, g, x, s1, g1);
          QuietSlot(s, g, s1, g1, t, v);
          HandlerWrite(s, g, x, s1, g1);
        }
      }
    } else {
      ViewSlot(s, s.root, v);
    }
  }

  // ---------------------------------------------------------------- reads and writes

  lemma QuietInv(s: State, g: Ghost, s1: State, g1: Ghost)
    requires Quiet(s, g, s1, g1)
    ensures Inv(s1, g1) && g1.roots == g.roots && g1.forks == g.forks && s1.root == s.root
    ensures GhostSized(g) && GhostSized(g1) && OnlyCopies(g, g1)
  {
    hide AllocatorOk, TreesOk, RefsOk, ExclusiveOk, InjectiveOk, View, LeafSlot, Clean, Tidy;
  }

  // A write fault at an address of the current space would need a page, and there
  // is none: no write bit, a page counted twice or more, and no page free.
  predicate WantsPage(s: State, v: Vpn)
    requires Ok(s)
  {
    !MarkAt(s, s.root, v).Granted? && CountAt(s, s.root, v) >= 2 && NewPage(s).OutOfPages?
  }

  // When an access to a mapped address succeeds, and what it runs into otherwise.
  lemma MappedOutcome(s: State, g: Ghost, t: nat, v: Vpn, off: int, w: Word)
    requires Inv(s, g) && Current(s, g, t) && VpnOk(v) && OffsetOk(off) && View(s, s.root, v).Some?
    ensures IsPage(s.root)
    ensures var r, q, c := Read(s, v, off), Write(s, v, off, w), View(s, s.root, v).value;
      && (r.ReadOk? <==> c.read)
      && (r.ReadNoPages? <==> !c.read && WantsPage(s, v))
      && (q.WriteOk? <==> c.write && !WantsPage(s, v))
      && (q.WriteNoPages? <==> WantsPage(s, v))
      && (MarkAt(s, s.root, v).Granted? ==> q.WriteOk?)
  {
    hide AllocatorOk, TreesOk, RefsOk, ExclusiveOk, InjectiveOk, Closed, LeafSlot, View, MarkAt, CountAt, HandlerDone, Handle, Walk;
    RootPage(s, g, t);
    WalkIsLookup(s, g, t, v);
    ViewSlot(s, s.root, v);
    CellAt(s, s.root, v);
    ViewWrite(s, s.root, v);
    SlotCell(s, g, t, v);
    var x := LeafSlot(s, s.root, v).value;
    var g1 := HandleLeaf(s, g, x);
    if Handle(s, x.p, x.k).Some? {
      var s1 := Handle(s, x.p, x.k).value;
      HandlerWrite(s, g, x, s1, g1);
      HandledEntry(s, g, x, s1, g1);
      var g2 := HandleLeaf(s1, g1, x);
      if Handle(s1, x.p, x.k).Some? { HandlerWrite(s1, g1, x, Handle(s1, x.p, x.k).value, g2); }
    }
  }

  lemma UnmappedOutcome(s: State, g: Ghost, t: nat, v: Vpn, off: int, w: Word)
    requires Inv(s, g) && Current(s, g, t) && VpnOk(v) && OffsetOk(off) && View(s, s.root, v).None?
    ensures IsPage(s.root) && Read(s, v, off) == ReadFatal && Write(s, v, off, w) == WriteFatal
  {
    hide AllocatorOk, TreesOk, RefsOk, ExclusiveOk, InjectiveOk, Closed, LeafSlot, View, Handle, Walk;
    RootPage(s, g, t);
    WalkIsLookup(s, g, t, v);
    ViewSlot(s, s.root, v);
  }

  lemma ReadIsSpec(s: State, g: Ghost, t: nat, v: Vpn, off: int) returns (g1: Ghost)
    requires Inv(s, g) && Current(s, g, t) && VpnOk(v) && OffsetOk(off)
    ensures IsPage(s.root)
    ensures var r := Read(s, v, off); var c := View(s, s.root, v);
      && (r.ReadOk? <==> c.Some? && c.value.read)
      && (r.ReadNoPages? <==> c.Some? && !c.value.read && WantsPage(s, v))
      && (r.ReadOk? ==> Quiet(s, g, r.state, g1) && |c.value.bytes| == PAGE_SIZE && r.value == LoadWord(c.value.bytes, off))
  {
    hide AllocatorOk, TreesOk, RefsOk, ExclusiveOk, InjectiveOk, Closed, LeafSlot, View, Clean, Tidy, Quiet,
      HandlerDone, Handle, Walk, WantsPage;
    if View(s, s.root, v).Some? { MappedOutcome(s, g, t, v, off, 0); } else { UnmappedOutcome(s, g, t, v, off, 0); }
    g1 := WalkOutcome(s, g, t, v);
    var w := Walk(s, v, MMU_LEVELS - 1, false, s.root);
    if w.Found? {
      var s1, x := w.state, w.slot;
      QuietSlot(s, g, s1, g1, t, v);
      QuietInv(s, g, s1, g1);
      SlotCell(s1, g1, t, v);
      if !At(s1, x.p, x.k).read {
        var g2 := HandleLeaf(s1, g1, x);
        if Handle(s1, x.p, x.k).Some? {
          HandlerWrite(s1, g1, x, Handle(s1, x.p, x.k).value, g2);
        }
      }
    }
  }

  lemma StoreTrees(s: State, g: Ghost, s': State)
    requires GhostSized(g) && TreesOk(s, g) && s'.tab == s.tab
    ensures TreesOk(s', g)
  {
    forall p | IsPage(p) ensures OwnOk(s', g, p) {
      assert OwnOk(s, g, p);
      if InUse(g.lab[p]) { OwnGrows(s, g, s', g, p); }
    }
  }

  // Storing into a writable leaf changes the bytes of that leaf's cell only.
  lemma StoreInv(s: State, g: Ghost, q: int, off: int, w: Word)
    requires Inv(s, g) && IsPage(q) && IsData(g.lab[q]) && OffsetOk(off)
    ensures Inv(StoreAt(s, q, off, w), g)
  {
    hide Closed, OwnOk, Slots, ExclusiveOk, InjectiveOk;
    var s' := StoreAt(s, q, off, w);
    AllocatorSame(s, g, s', g);
    SameLeaves(s, g, s', g);
    StoreTrees(s, g, s');
    forall q' | IsPage(q') ensures RefOk(s', g, q') {
      RefSame(s, g, s', g, q');
    }
  }

  lemma StoreCell(s: State, g: Ghost, x: Slot, y: Slot, off: int, w: Word)
    requires Inv(s, g) && IsLeaf(s, g, x) && IsLeaf(s, g, y) && At(s, x.p, x.k).write && IsPage(At(s, x.p, x.k).page) && OffsetOk(off)
    requires y != x
    ensures CellOf(StoreAt(s, At(s, x.p, x.k).page, off, w), At(s, y.p, y.k)) == CellOf(s, At(s, y.p, y.k))
  {
    hide AllocatorOk, TreesOk, RefsOk, InjectiveOk, Closed;
    assert At(s, y.p, y.k).page != At(s, x.p, x.k).page;
  }

  // Isolation: a store through the leaf of address v of space t changes four
  // bytes of that cell, and no other cell of any space.
  lemma StoreView(s: State, g: Ghost, t: nat, v: Vpn, off: int, w: Word, t': nat, v': Vpn)
    requires Inv(s, g) && t < |g.roots| && VpnOk(v) && OffsetOk(off) && t' < |g.roots| && VpnOk(v')
    requires LeafSlot(s, g.roots[t], v).Some?
    requires var x := LeafSlot(s, g.roots[t], v).value; At(s, x.p, x.k).valid && At(s, x.p, x.k).write
    ensures var x := LeafSlot(s, g.roots[t], v).value; var q := At(s, x.p, x.k).page;
      && IsPage(q) && View(s, g.roots[t], v).Some?
      && |View(s, g.roots[t], v).value.bytes| == PAGE_SIZE
      && View(StoreAt(s, q, off, w), g.roots[t'], v') ==
          if t' == t && v' == v then Some(View(s, g.roots[t], v).value.(bytes := StoreWord(View(s, g.roots[t], v).value.bytes, off, w)))
          else View(s, g.roots[t'], v')
  {
    hide AllocatorOk, TreesOk, RefsOk, ExclusiveOk, InjectiveOk, Closed, LeafSlot;
    SlotCell(s, g, t, v);
    var x := LeafSlot(s, g.roots[t], v).value;
    var q := At(s, x.p, x.k).page;
    var s' := StoreAt(s, q, off, w);
    SlotKept(s, g, s', t', v');
    if LeafSlot(s, g.roots[t'], v').Some? {
      SlotCell(s, g, t', v');
      var y := LeafSlot(s, g.roots[t'], v').value;
      assert At(s', y.p, y.k) == At(s, y.p, y.k);
      if At(s, y.p, y.k).valid && y != x {
        StoreCell(s, g, x, y, off, w);
      }
    }
  }

  ghost predicate Written1(s: State, g: Ghost, t: nat, v: Vpn, off: int, w: Word, s': State, g': Ghost) {
    && Inv(s, g) && Inv(s', g') && g'.roots == g.roots && g'.forks == g.forks && s'.root == s.root && OnlyCopies(g, g')
    && Current(s, g, t) && OffsetOk(off)
    && (Clean(s, g) ==> Clean(s', g')) && (Tidy(s, g) ==> Tidy(s', g'))
    && View(s, s.root, v).Some? && View(s, s.root, v).value.write && |View(s, s.root, v).value.bytes| == PAGE_SIZE
    && forall t', v' | 0 <= t' < |g.roots| && VpnOk(v') ::
      View(s', g.roots[t'], v') ==
        if t' == t && v' == v then Some(View(s, s.root, v).value.(bytes := StoreWord(View(s, s.root, v).value.bytes, off, w)))
        else View(s, g.roots[t'], v')
  }

  lemma StoreMarks(s: State, g: Ghost, s': State)
    requires s'.tab == s.tab && s'.ref == s.ref
    ensures Clean(s, g) ==> Clean(s', g)
    ensures Tidy(s, g) ==> Tidy(s', g)
  {
    assert forall x :: IsLeaf(s', g, x) <==> IsLeaf(s, g, x);
  }

  lemma StoreDone(s: State, g: Ghost, s1: State, g1: Ghost, t: nat, v: Vpn, off: int, w: Word)
    requires Quiet(s, g, s1, g1) && Current(s, g, t) && VpnOk(v) && OffsetOk(off)
    requires LeafSlot(s1, g1.roots[t], v).Some?
    requires var x := LeafSlot(s1, g1.roots[t], v).value; At(s1, x.p, x.k).valid && At(s1, x.p, x.k).write
    ensures var x := LeafSlot(s1, g1.roots[t], v).value;
      IsPage(At(s1, x.p, x.k).page) && Ok(s1) && Written1(s, g, t, v, off, w, StoreAt(s1, At(s1, x.p, x.k).page, off, w), g1)
  {
    hide AllocatorOk, TreesOk, RefsOk, ExclusiveOk, InjectiveOk, Closed, LeafSlot, View, Clean, Tidy;
    QuietInv(s, g, s1, g1);
    SlotCell(s1, g1, t, v);
    var x := LeafSlot(s1, g1.roots[t], v).value;
    var q := At(s1, x.p, x.k).page;
    var s' := StoreAt(s1, q, off, w);
    StoreInv(s1, g1, q, off, w);
    QuietSlot(s, g, s1, g1, t, v);
    StoreMarks(s1, g1, s');
    forall t', v' | 0 <= t' < |g.roots| && VpnOk(v')
      ensures View(s', g.roots[t'], v') ==
        if t' == t && v' == v then Some(View(s, s.root, v).value.(bytes := StoreWord(View(s, s.root, v).value.bytes, off, w)))
        else View(s, g.roots[t'], v')
    {
      StoreView(s1, g1, t, v, off, w, t', v');
      QuietSlot(s, g, s1, g1, t', v');
    }
  }

  lemma WriteIsSpec(s: State, g: Ghost, t: nat, v: Vpn, off: int, w: Word) returns (g1: Ghost)
    requires Inv(s, g) && Current(s, g, t) && VpnOk(v) && OffsetOk(off)
    ensures IsPage(s.root)
    ensures var r := Write(s, v, off, w); var c := View(s, s.root, v);
      && (r.WriteOk? <==> c.Some? && c.value.write && !WantsPage(s, v))
      && (r.WriteNoPages? <==> c.Some? && WantsPage(s, v))
      && (r.WriteOk? ==> Written1(s, g, t, v, off, w, r.state, g1))
  {
    hide AllocatorOk, TreesOk, RefsOk, ExclusiveOk, InjectiveOk, Closed, LeafSlot, View, Clean, Tidy, Quiet,
      HandlerDone, Handle, Walk, Written1, WantsPage;
    if View(s, s.root, v).Some? { MappedOutcome(s, g, t, v, off, w); } else { UnmappedOutcome(s, g, t, v, off, w); }
    g1 := WalkOutcome(s, g, t, v);
    var wk := Walk(s, v, MMU_LEVELS - 1, false, s.root);
    if wk.Found? {
      var s1, x := wk.state, wk.slot;
      QuietSlot(s, g, s1, g1, t, v);
      QuietInv(s, g, s1, g1);
      SlotCell(s1, g1, t, v);
      if At(s1, x.p, x.k).write {
        StoreDone(s, g, s1, g1, t, v, off, w);
      } else {
        var g2 := HandleLeaf(s1, g1, x);
        if Handle(s1, x.p, x.k).Some? {
          var s2 := Handle(s1, x.p, x.k).value;
          HandlerWrite(s1, g1, x, s2, g2);
          HandlerQuiet(s1, g1, x, s2, g2);
          QuietTrans(s, g, s1, g1, s2, g2);
          QuietSlot(s1, g1, s2, g2, t, v);
          if At(s2, x.p, x.k).write {
            StoreDone(s, g, s2, g2, t, v, off, w);
          }
          g1 := g2;
        }
      }
    }
  }
}
