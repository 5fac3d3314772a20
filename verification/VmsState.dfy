// Physical memory of the virtual-memory simulator: the page pool, the page
// allocator's bookkeeping, the reference counters and the current root.
//
// A page-table entry is a record of the fields that the code ever looks at;
// VmsPte.dfy relates the record to the 64-bit word.  A page has two
// views: a row of entries (used when the page is a table) and a row of bytes
// (used when it holds data).  VmsInvariant.dfy shows that no page is ever used
// both ways, so the two views never have to agree.
module VmsState {
  import opened Common

  const MAX_PAGES: nat := 256
  const NUM_PTE_ENTRIES: nat := 512
  const PAGE_SIZE: nat := 4096

  newtype Byte = x: int | 0 <= x < 256

  // `page` is the index of the referenced page in the pool; a PPN outside the
  // pool (such as the PPN 0 of a zeroed entry) is -1.
  datatype Entry = Entry(page: int, custom: bool, write: bool, read: bool, valid: bool)

  const ZERO_ENTRY := Entry(-1, false, false, false, false)

  datatype State = State(
    tab: seq<seq<Entry>>,
    bytes: seq<seq<Byte>>,
    alloc: seq<bool>,
    used: int,
    ref: seq<int>,
    root: int)

  predicate IsIndex(k: int) { 0 <= k < NUM_PTE_ENTRIES }

  function ZeroTable(): (t: seq<Entry>)
    ensures |t| == NUM_PTE_ENTRIES && forall k | IsIndex(k) :: t[k] == ZERO_ENTRY
  {
    seq(NUM_PTE_ENTRIES, _ => ZERO_ENTRY)
  }

  function ZeroBytes(): (b: seq<Byte>)
    ensures |b| == PAGE_SIZE && forall k | 0 <= k < PAGE_SIZE :: b[k] == 0
  {
    seq(PAGE_SIZE, _ => 0)
  }

  predicate IsPage(p: int) { 0 <= p < MAX_PAGES }

  ghost predicate Sized(s: State) {
    && |s.tab| == |s.bytes| == |s.alloc| == |s.ref| == MAX_PAGES
    && (forall p | IsPage(p) :: |s.tab[p]| == NUM_PTE_ENTRIES && |s.bytes[p]| == PAGE_SIZE)
  }

  // Every valid entry refers to a page of the pool.
  ghost predicate Closed(s: State)
    requires Sized(s)
  {
    forall p, k {:trigger s.tab[p][k]} | IsPage(p) && IsIndex(k) && s.tab[p][k].valid :: IsPage(s.tab[p][k].page)
  }

  ghost predicate Ok(s: State) { Sized(s) && Closed(s) }

  // The entry at index k of table page p.
  function At(s: State, p: int, k: int): Entry {
    if 0 <= p < |s.tab| && 0 <= k < |s.tab[p]| then s.tab[p][k] else ZERO_ENTRY
  }

  function SetEntry(s: State, p: int, k: int, e: Entry): (s': State)
    requires Ok(s) && IsPage(p) && IsIndex(k) && (e.valid ==> IsPage(e.page))
    ensures Ok(s')
    ensures forall p', k' :: At(s', p', k') == if p' == p && k' == k then e else At(s, p', k')
  {
    s.(tab := s.tab[p := s.tab[p][k := e]])
  }

  function SetRef(s: State, p: int, n: int): (s': State)
    requires Ok(s) && IsPage(p)
    ensures Ok(s')
  {
    s.(ref := s.ref[p := n])
  }

  // memcpy of a whole page: both views are copied.
  function CopyPage(s: State, dst: int, src: int): (s': State)
    requires Ok(s) && IsPage(dst) && IsPage(src)
    ensures Ok(s')
  {
    s.(tab := s.tab[dst := s.tab[src]], bytes := s.bytes[dst := s.bytes[src]])
  }

  // An entry of a table page.
  datatype Slot = Slot(p: int, k: int)

  ghost function AllSlots(): (r: set<Slot>)
    ensures forall x :: x in r <==> IsPage(x.p) && IsIndex(x.k)
  {
    set p, k | 0 <= p < MAX_PAGES && 0 <= k < NUM_PTE_ENTRIES :: Slot(p, k)
  }

  // The three table indices of a virtual address.
  datatype Vpn = Vpn(l2: int, l1: int, l0: int)

  predicate VpnOk(v: Vpn) { IsIndex(v.l2) && IsIndex(v.l1) && IsIndex(v.l0) }

  // ---------------------------------------------------------------- allocator

  function LowestFree(a: seq<bool>, i: nat): (r: Option<nat>)
    ensures r.Some? ==> i <= r.value < |a| && !a[r.value] && (forall j | i <= j < r.value :: a[j])
    ensures r.None? ==> forall j | i <= j < |a| :: a[j]
    decreases |a| - i
  {
    if i >= |a| then None else if !a[i] then Some(i) else LowestFree(a, i + 1)
  }

  function Allocate(s: State, p: int): (s': State)
    requires Ok(s) && IsPage(p)
    ensures Ok(s')
  {
    s.(alloc := s.alloc[p := true], used := s.used + 1)
  }

  datatype NewPageResult = OutOfPages | Got(page: int, state: State)

  // The lowest free page, marked allocated; its content is left as it is.
  function NewPage(s: State): (r: NewPageResult)
    requires Ok(s)
    ensures r.OutOfPages? <==> forall p | IsPage(p) :: s.alloc[p]
    ensures r.Got? ==>
      && IsPage(r.page) && !s.alloc[r.page]
      && (forall p | 0 <= p < r.page :: s.alloc[p])
      && r.state == Allocate(s, r.page)
  {
    match LowestFree(s.alloc, 0)
    case None => OutOfPages
    case Some(p) => Got(p, Allocate(s, p))
  }

  function FreePage(s: State, p: int): (s': State)
    requires Ok(s) && IsPage(p)
    ensures Ok(s')
  {
    State(s.tab[p := ZeroTable()], s.bytes[p := ZeroBytes()], s.alloc[p := false], s.used - 1, s.ref, s.root)
  }
}
