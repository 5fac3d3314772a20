// Which page belongs to what, how often each data page is referenced, and what
// an address space looks like from outside.
module VmsInvariant {
  import opened Common
  import opened VmsState

  // The use of each page.  `t` numbers the address spaces in the order in which
  // their roots came into being.  Plain data pages were mapped by the set-up
  // code or by an eager fork; Copy pages were made by the fault handler.
  datatype Label =
    | Free
    | Spare
    | RootOf(t: nat)
    | L1Of(t: nat, i: int)
    | L0Of(t: nat, i: int, j: int)
    | Plain
    | Copy

  predicate IsData(l: Label) { l.Plain? || l.Copy? }

  // roots[t] is the root page of space t; forks[q] counts the copy-on-write
  // forks that went through data page q.
  datatype Ghost = Ghost(roots: seq<int>, lab: seq<Label>, forks: seq<nat>)

  ghost predicate IsLeaf(s: State, g: Ghost, x: Slot) {
    x in AllSlots() && 0 <= x.p < |g.lab| && g.lab[x.p].L0Of? && At(s, x.p, x.k).valid
  }

  // The valid L0 entries that refer to page q, over all address spaces.
  ghost function Slots(s: State, g: Ghost, q: int): set<Slot> {
    set x | x in AllSlots() && IsLeaf(s, g, x) && At(s, x.p, x.k).page == q
  }

  ghost function Allocated(s: State): set<int>
    requires Sized(s)
  {
    set p | 0 <= p < MAX_PAGES && s.alloc[p]
  }

  // ---------------------------------------------------------------- invariant

  ghost predicate GhostSized(g: Ghost) { |g.lab| == |g.forks| == MAX_PAGES }

  ghost predicate AllocatorOk(s: State, g: Ghost)
    requires Sized(s) && GhostSized(g)
  {
    && s.used == |Allocated(s)|
    && (forall p | IsPage(p) :: g.lab[p].Free? <==> !s.alloc[p])
    && (forall p | IsPage(p) && g.lab[p].Free? :: s.tab[p] == ZeroTable() && s.bytes[p] == ZeroBytes())
  }

  ghost predicate RootsOk(g: Ghost)
    requires GhostSized(g)
  {
    forall t | 0 <= t < |g.roots| :: IsPage(g.roots[t]) && g.lab[g.roots[t]] == RootOf(t)
  }

  ghost predicate Owns(s: State, g: Ghost, p: int, k: int, l: Label)
    requires GhostSized(g)
  {
    At(s, p, k).valid ==> IsPage(At(s, p, k).page) && g.lab[At(s, p, k).page] == l
  }

  ghost predicate HasL1(s: State, g: Ghost, t: int, i: int, p: int) {
    && 0 <= t < |g.roots| && IsIndex(i)
    && At(s, g.roots[t], i).valid && At(s, g.roots[t], i).page == p
  }

  // A page labelled as part of a tree sits where the label says, and its valid
  // entries refer to pages of the next level down.
  ghost predicate OwnOk(s: State, g: Ghost, p: int)
    requires GhostSized(g) && IsPage(p)
  {
    match g.lab[p]
    case RootOf(t) =>
      && t < |g.roots| && g.roots[t] == p
      && forall i | IsIndex(i) :: Owns(s, g, p, i, L1Of(t, i))
    case L1Of(t, i) =>
      && HasL1(s, g, t, i, p)
      && forall j | IsIndex(j) :: Owns(s, g, p, j, L0Of(t, i, j))
    case L0Of(t, i, j) =>
      && t < |g.roots| && IsIndex(i) && IsIndex(j)
      && var e := At(s, g.roots[t], i);
      && e.valid && IsPage(e.page) && g.lab[e.page] == L1Of(t, i)
      && At(s, e.page, j).valid && At(s, e.page, j).page == p
      && forall k | IsIndex(k) && At(s, p, k).valid :: IsPage(At(s, p, k).page) && IsData(g.lab[At(s, p, k).page])
    case _ => true
  }

  ghost predicate TreesOk(s: State, g: Ghost)
    requires GhostSized(g)
  {
    RootsOk(g) && forall p {:trigger OwnOk(s, g, p)} | IsPage(p) :: OwnOk(s, g, p)
  }

  // The exact meaning of ref_num.
  ghost predicate RefOk(s: State, g: Ghost, q: int)
    requires Sized(s) && GhostSized(g) && IsPage(q)
  {
    if IsData(g.lab[q]) then
      && s.ref[q] == |Slots(s, g, q)| + g.forks[q] - (if g.lab[q].Plain? then 1 else 0)
      && |Slots(s, g, q)| <= g.forks[q] + 1
    else
      s.ref[q] == 0 && g.forks[q] == 0
  }

  ghost predicate RefsOk(s: State, g: Ghost)
    requires Sized(s) && GhostSized(g)
  {
    forall q {:trigger RefOk(s, g, q)} | IsPage(q) :: RefOk(s, g, q)
  }

  // A writable leaf is the only reference to its page.
  ghost predicate ExclusiveOk(s: State, g: Ghost) {
    forall x, y | IsLeaf(s, g, x) && IsLeaf(s, g, y) && At(s, x.p, x.k).write && At(s, x.p, x.k).page == At(s, y.p, y.k).page ::
      x == y
  }

  // Within one address space no two leaves share a page.
  ghost predicate InjectiveOk(s: State, g: Ghost) {
    forall x, y | IsLeaf(s, g, x) && IsLeaf(s, g, y) && g.lab[x.p].t == g.lab[y.p].t && At(s, x.p, x.k).page == At(s, y.p, y.k).page ::
      x == y
  }

  ghost predicate Inv(s: State, g: Ghost) {
    && Ok(s) && GhostSized(g)
    && AllocatorOk(s, g)
    && TreesOk(s, g)
    && RefsOk(s, g)
    && ExclusiveOk(s, g)
    && InjectiveOk(s, g)
  }

  // ---------------------------------------------------------------- views

  // What a program can observe of one virtual page: its permissions and bytes.
  datatype Cell = Cell(read: bool, write: bool, bytes: seq<Byte>)

  predicate PassesInner(e: Entry) { e.valid && !e.read && !e.write }

  // The L0 entry to which the three-level lookup leads, if it does not fault on
  // the way.  A readable or writable inner entry faults.
  function LeafSlot(s: State, r: int, v: Vpn): Option<Slot> {
    var e2 := At(s, r, v.l2);
    if !PassesInner(e2) then None else
    var e1 := At(s, e2.page, v.l1);
    if !PassesInner(e1) then None else Some(Slot(e1.page, v.l0))
  }

  function Ref(s: State, q: int): int { if 0 <= q < |s.ref| then s.ref[q] else 0 }

  function BytesOf(s: State, q: int): seq<Byte> { if 0 <= q < |s.bytes| then s.bytes[q] else [] }

  // A custom entry is a copy-on-write mark.  It stands for write permission as
  // long as its page is counted, because only then does the handler honour it.
  predicate Writable(s: State, e: Entry) { e.write || (e.custom && Ref(s, e.page) >= 1) }

  function CellOf(s: State, e: Entry): Option<Cell> {
    if e.valid then Some(Cell(e.read, Writable(s, e), BytesOf(s, e.page))) else None
  }

  function View(s: State, r: int, v: Vpn): Option<Cell> {
    match LeafSlot(s, r, v)
    case None => None
    case Some(x) => CellOf(s, At(s, x.p, x.k))
  }

  // The write permission of a leaf: given, denied, to be given at the next fault,
  // or lost because the page is not counted.
  datatype Mark = Granted | Denied | Waiting | Lost

  function MarkOf(s: State, e: Entry): Mark {
    if e.write then Granted else if !e.custom then Denied else if Ref(s, e.page) >= 1 then Waiting else Lost
  }

  // The write permission at an address.
  function MarkAt(s: State, r: int, v: Vpn): Mark {
    match LeafSlot(s, r, v)
    case None => Denied
    case Some(x) => MarkOf(s, At(s, x.p, x.k))
  }

  // The count of the page to which the entry at an address refers.
  function CountAt(s: State, r: int, v: Vpn): int {
    match LeafSlot(s, r, v)
    case None => 0
    case Some(x) => Ref(s, At(s, x.p, x.k).page)
  }

  // ---------------------------------------------------------------- basic facts

  ghost predicate InTree(l: Label, t: nat) {
    (l.RootOf? || l.L1Of? || l.L0Of?) && l.t == t
  }

  lemma PathLabels(s: State, g: Ghost, t: nat, v: Vpn)
    requires Inv(s, g) && 0 <= t < |g.roots| && VpnOk(v)
    ensures IsPage(g.roots[t]) && g.lab[g.roots[t]] == RootOf(t)
    ensures At(s, g.roots[t], v.l2).valid ==>
      var p1 := At(s, g.roots[t], v.l2).page;
      && IsPage(p1) && g.lab[p1] == L1Of(t, v.l2)
      && (At(s, p1, v.l1).valid ==>
        var p0 := At(s, p1, v.l1).page;
        && IsPage(p0) && g.lab[p0] == L0Of(t, v.l2, v.l1)
        && (At(s, p0, v.l0).valid ==> IsPage(At(s, p0, v.l0).page) && IsData(g.lab[At(s, p0, v.l0).page])))
  {
    var r := g.roots[t];
    assert OwnOk(s, g, r);
    assert Owns(s, g, r, v.l2, L1Of(t, v.l2));
    if At(s, r, v.l2).valid {
      var p1 := At(s, r, v.l2).page;
      assert OwnOk(s, g, p1);
      assert Owns(s, g, p1, v.l1, L0Of(t, v.l2, v.l1));
      if At(s, p1, v.l1).valid {
        assert OwnOk(s, g, At(s, p1, v.l1).page);
      }
    }
  }

  lemma SlotOnPath(s: State, r: int, v: Vpn)
    requires LeafSlot(s, r, v).Some?
    ensures At(s, r, v.l2).valid && At(s, At(s, r, v.l2).page, v.l1).valid
    ensures LeafSlot(s, r, v).value == Slot(At(s, At(s, r, v.l2).page, v.l1).page, v.l0)
  {
  }

  lemma SlotKept(s: State, g: Ghost, s': State, t: nat, v: Vpn)
    requires Inv(s, g) && Sized(s') && 0 <= t < |g.roots| && VpnOk(v)
    requires forall p | IsPage(p) && (g.lab[p] == RootOf(t) || g.lab[p] == L1Of(t, v.l2)) :: s'.tab[p] == s.tab[p]
    ensures LeafSlot(s', g.roots[t], v) == LeafSlot(s, g.roots[t], v)
    ensures LeafSlot(s, g.roots[t], v).Some? ==>
      var x := LeafSlot(s, g.roots[t], v).value;
      x in AllSlots() && g.lab[x.p] == L0Of(t, v.l2, v.l1)
  {
    PathLabels(s, g, t, v);
    var r := g.roots[t];
    assert At(s', r, v.l2) == At(s, r, v.l2);
    if At(s, r, v.l2).valid {
      var p1 := At(s, r, v.l2).page;
      assert At(s', p1, v.l1) == At(s, p1, v.l1);
    }
  }

  // A view is there exactly if the walk leads to a valid leaf entry.
  lemma ViewSlot(s: State, r: int, v: Vpn)
    ensures View(s, r, v).Some? <==>
      LeafSlot(s, r, v).Some? && At(s, LeafSlot(s, r, v).value.p, LeafSlot(s, r, v).value.k).valid
  {
  }

  lemma ViewWrite(s: State, r: int, v: Vpn)
    requires View(s, r, v).Some?
    ensures View(s, r, v).value.write <==> MarkAt(s, r, v).Granted? || MarkAt(s, r, v).Waiting?
  {
  }

  // The cell of an address in terms of its leaf.
  lemma CellAt(s: State, r: int, v: Vpn)
    requires LeafSlot(s, r, v).Some?
    ensures var e := At(s, LeafSlot(s, r, v).value.p, LeafSlot(s, r, v).value.k);
      && View(s, r, v) == CellOf(s, e) && MarkAt(s, r, v) == MarkOf(s, e) && CountAt(s, r, v) == Ref(s, e.page)
  {
  }

  // A view depends only on the rows of its own tree, and on the content and
  // the liveness of the data pages.
  lemma ViewKept(s: State, g: Ghost, s': State, t: nat, v: Vpn)
    requires Inv(s, g) && Sized(s') && 0 <= t < |g.roots| && VpnOk(v)
    requires forall p | IsPage(p) && InTree(g.lab[p], t) :: s'.tab[p] == s.tab[p]
    requires forall q | IsPage(q) && IsData(g.lab[q]) :: s'.bytes[q] == s.bytes[q] && (s'.ref[q] >= 1 <==> s.ref[q] >= 1)
    ensures View(s', g.roots[t], v) == View(s, g.roots[t], v)
  {
    hide AllocatorOk, TreesOk, RefsOk, ExclusiveOk, InjectiveOk, Closed, LeafSlot;
    PathLabels(s, g, t, v);
    SlotKept(s, g, s', t, v);
    if LeafSlot(s, g.roots[t], v).Some? { SlotOnPath(s, g.roots[t], v); }
    match LeafSlot(s, g.roots[t], v)
    case None =>
    case Some(x) => assert At(s', x.p, x.k) == At(s, x.p, x.k);
  }

  // ref_num 1 is reached only when at most one reference is left.
  lemma RefOneMeansSole(s: State, g: Ghost, q: int)
    requires Inv(s, g) && IsPage(q) && IsData(g.lab[q]) && s.ref[q] == 1
    ensures |Slots(s, g, q)| <= 1
  {
    assert RefOk(s, g, q);
  }

  lemma SharedMeansCounted(s: State, g: Ghost, q: int)
    requires Inv(s, g) && IsPage(q) && |Slots(s, g, q)| >= 2
    ensures s.ref[q] >= |Slots(s, g, q)|
  {
    var x :| x in Slots(s, g, q);
    assert OwnOk(s, g, x.p);
    assert RefOk(s, g, q);
  }

  lemma AtMostOne(a: set<Slot>, x: Slot, y: Slot)
    requires |a| <= 1 && x in a && y in a
    ensures x == y
  {
    if x != y {
      assert {x, y} <= a;
      SubsetSize({x, y}, a);
    }
  }
}
