// The two fork operations and the fault handler as functions on the memory state.
//
// Each function of a fork does the rest of a loop from its index argument on, in the
// order in which the code does it; None is the exit of the process when the
// page pool is exhausted.
module VmsForks {
  import opened Common
  import opened VmsState

  // ---------------------------------------------------------------- entries

  // What a copy-on-write fork makes of a leaf entry, on both sides.
  function Marked(e: Entry): Entry {
    if e.write then e.(write := false, custom := true) else e
  }

  // The entry as the handler leaves it once its page is exclusive.
  function Unmarked(e: Entry): Entry {
    if e.custom then e.(write := true, custom := false) else e
  }

  // ---------------------------------------------------------------- forks

  // Eager is vms_fork_copy, Lazy is vms_fork_copy_on_write.
  datatype Mode = Eager | Lazy

  function ForkLeaf(m: Mode, s: State, ps: int, pd: int, k: int): (r: Option<State>)
    requires Ok(s) && IsPage(ps) && IsPage(pd) && IsIndex(k)
    ensures r.Some? ==> Ok(r.value) && r.value.root == s.root
  {
    var e := At(s, ps, k);
    if !e.valid then Some(s) else
    match m
    case Eager =>
      (match NewPage(s)
       case OutOfPages => None
       case Got(d, s1) => Some(CopyPage(SetEntry(s1, pd, k, e.(page := d)), d, e.page)))
    case Lazy =>
      var s1 := SetEntry(SetEntry(s, pd, k, Marked(e)), ps, k, Marked(e));
      Some(SetRef(s1, e.page, s.ref[e.page] + 2))
  }

  function ForkL0(m: Mode, s: State, ps: int, pd: int, k: int): (r: Option<State>)
    requires Ok(s) && IsPage(ps) && IsPage(pd) && 0 <= k <= NUM_PTE_ENTRIES
    ensures r.Some? ==> Ok(r.value) && r.value.root == s.root
    decreases NUM_PTE_ENTRIES - k
  {
    if k == NUM_PTE_ENTRIES then Some(s) else
    match ForkLeaf(m, s, ps, pd, k)
    case None => None
    case Some(s1) => ForkL0(m, s1, ps, pd, k + 1)
  }

  // A new table page, linked from entry k of table pd with the flags of e.
  function LinkNew(s: State, pd: int, k: int, e: Entry): (r: NewPageResult)
    requires Ok(s) && IsPage(pd) && IsIndex(k)
    ensures r.Got? ==> Ok(r.state) && IsPage(r.page) && r.state.root == s.root
  {
    match NewPage(s)
    case OutOfPages => OutOfPages
    case Got(d, s1) => Got(d, SetEntry(s1, pd, k, e.(page := d)))
  }

  function ForkL1Entry(m: Mode, s: State, ps: int, pd: int, j: int): (r: Option<State>)
    requires Ok(s) && IsPage(ps) && IsPage(pd) && IsIndex(j)
    ensures r.Some? ==> Ok(r.value) && r.value.root == s.root
  {
    var e := At(s, ps, j);
    if !e.valid then Some(s) else
    match LinkNew(s, pd, j, e)
    case OutOfPages => None
    case Got(d, s1) => ForkL0(m, s1, e.page, d, 0)
  }

  function ForkL1(m: Mode, s: State, ps: int, pd: int, j: int): (r: Option<State>)
    requires Ok(s) && IsPage(ps) && IsPage(pd) && 0 <= j <= NUM_PTE_ENTRIES
    ensures r.Some? ==> Ok(r.value) && r.value.root == s.root
    decreases NUM_PTE_ENTRIES - j
  {
    if j == NUM_PTE_ENTRIES then Some(s) else
    match ForkL1Entry(m, s, ps, pd, j)
    case None => None
    case Some(s1) => ForkL1(m, s1, ps, pd, j + 1)
  }

  function ForkL2Entry(m: Mode, s: State, ps: int, pd: int, i: int): (r: Option<State>)
    requires Ok(s) && IsPage(ps) && IsPage(pd) && IsIndex(i)
    ensures r.Some? ==> Ok(r.value) && r.value.root == s.root
  {
    var e := At(s, ps, i);
    if !e.valid then Some(s) else
    match LinkNew(s, pd, i, e)
    case OutOfPages => None
    case Got(d, s1) => ForkL1(m, s1, e.page, d, 0)
  }

  function ForkL2(m: Mode, s: State, ps: int, pd: int, i: int): (r: Option<State>)
    requires Ok(s) && IsPage(ps) && IsPage(pd) && 0 <= i <= NUM_PTE_ENTRIES
    ensures r.Some? ==> Ok(r.value) && r.value.root == s.root
    decreases NUM_PTE_ENTRIES - i
  {
    if i == NUM_PTE_ENTRIES then Some(s) else
    match ForkL2Entry(m, s, ps, pd, i)
    case None => None
    case Some(s1) => ForkL2(m, s1, ps, pd, i + 1)
  }

  // The guard at the head of both forks.
  predicate MayFork(s: State) { s.used <= MAX_PAGES / 2 }

  // The new root page and the state after the fork.
  function Fork(m: Mode, s: State): (r: NewPageResult)
    requires Ok(s) && IsPage(s.root)
    ensures r.Got? ==> Ok(r.state) && IsPage(r.page) && r.state.root == s.root
  {
    if !MayFork(s) then OutOfPages else
    match NewPage(s)
    case OutOfPages => OutOfPages
    case Got(d, s1) =>
      match ForkL2(m, s1, s.root, d, 0)
      case None => OutOfPages
      case Some(s2) => Got(d, s2)
  }

  // ---------------------------------------------------------------- page faults

  // page_fault_handler on entry k of table p; None is the exit of vms_new_page.
  function Handle(s: State, p: int, k: int): (r: Option<State>)
    requires Ok(s) && IsPage(p) && IsIndex(k)
    ensures r.Some? ==> Ok(r.value) && r.value.root == s.root
  {
    var e := At(s, p, k);
    if !e.valid || e.write then Some(s)
    else if s.ref[e.page] <= 0 then Some(s)
    else if s.ref[e.page] == 1 then Some(SetEntry(s, p, k, Unmarked(e)))
    else
      match NewPage(s)
      case OutOfPages => None
      case Got(d, s1) =>
        var s2 := CopyPage(SetEntry(s1, p, k, Unmarked(e.(page := d))), d, e.page);
        var s3 := SetRef(s2, e.page, s2.ref[e.page] - 1);
        Some(SetRef(s3, d, s3.ref[d] + 1))
  }

  // ---------------------------------------------------------------- page counts

  // The number of pages a fork of this mode makes, from index k, j or i on.
  function Count0(m: Mode, s: State, p: int, k: int): nat
    decreases NUM_PTE_ENTRIES - k
  {
    if k >= NUM_PTE_ENTRIES then 0
    else (if m.Eager? && At(s, p, k).valid then 1 else 0) + Count0(m, s, p, k + 1)
  }

  function Count1(m: Mode, s: State, p: int, j: int): nat
    decreases NUM_PTE_ENTRIES - j
  {
    if j >= NUM_PTE_ENTRIES then 0
    else (if At(s, p, j).valid then 1 + Count0(m, s, At(s, p, j).page, 0) else 0) + Count1(m, s, p, j + 1)
  }

  function Count2(m: Mode, s: State, p: int, i: int): nat
    decreases NUM_PTE_ENTRIES - i
  {
    if i >= NUM_PTE_ENTRIES then 0
    else (if At(s, p, i).valid then 1 + Count1(m, s, At(s, p, i).page, 0) else 0) + Count2(m, s, p, i + 1)
  }

  lemma {:induction false} Count0Frame(m: Mode, s: State, s': State, p: int, k: int)
    requires forall k' | k <= k' < NUM_PTE_ENTRIES :: At(s', p, k').valid == At(s, p, k').valid
    ensures Count0(m, s', p, k) == Count0(m, s, p, k)
    decreases NUM_PTE_ENTRIES - k
  {
    if k < NUM_PTE_ENTRIES { Count0Frame(m, s, s', p, k + 1); }
  }

  ghost predicate SameBelow1(s: State, s': State, p: int, j: int) {
    forall j' | j <= j' < NUM_PTE_ENTRIES ::
      && At(s', p, j') == At(s, p, j')
      && (At(s, p, j').valid ==> forall k | IsIndex(k) :: At(s', At(s, p, j').page, k).valid == At(s, At(s, p, j').page, k).valid)
  }

  lemma {:induction false} Count1Frame(m: Mode, s: State, s': State, p: int, j: int)
    requires SameBelow1(s, s', p, j)
    ensures Count1(m, s', p, j) == Count1(m, s, p, j)
    decreases NUM_PTE_ENTRIES - j
  {
    if j < NUM_PTE_ENTRIES {
      Count1Frame(m, s, s', p, j + 1);
      if At(s, p, j).valid { Count0Frame(m, s, s', At(s, p, j).page, 0); }
    }
  }

  lemma {:induction false} Count2Frame(m: Mode, s: State, s': State, p: int, i: int)
    requires forall i' | i <= i' < NUM_PTE_ENTRIES ::
      At(s', p, i') == At(s, p, i') && (At(s, p, i').valid ==> SameBelow1(s, s', At(s, p, i').page, 0))
    ensures Count2(m, s', p, i) == Count2(m, s, p, i)
    decreases NUM_PTE_ENTRIES - i
  {
    if i < NUM_PTE_ENTRIES {
      Count2Frame(m, s, s', p, i + 1);
      if At(s, p, i).valid { Count1Frame(m, s, s', At(s, p, i).page, 0); }
    }
  }

  // The number of pages of the tree below root r that a fork of this mode copies.
  function TreeCount(m: Mode, s: State, r: int): nat { 1 + Count2(m, s, r, 0) }
}
