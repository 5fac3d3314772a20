// The pages of an address space are pairwise distinct allocated pages, so their
// number is at most the number of used pages.
module VmsPageCount {
  import opened Common
  import opened VmsState
  import opened VmsInvariant
  import opened VmsSteps
  import opened VmsForks
  import opened VmsForkTree

  // The pages below a table that a fork of this mode copies, from index k, j or
  // i on: all of them, or the tables only.
  function Pages0(m: Mode, s: State, p: int, k: int): set<int>
    decreases NUM_PTE_ENTRIES - k
  {
    if k >= NUM_PTE_ENTRIES then {}
    else (if m.Eager? && At(s, p, k).valid then {At(s, p, k).page} else {}) + Pages0(m, s, p, k + 1)
  }

  function Pages1(m: Mode, s: State, p: int, j: int): set<int>
    decreases NUM_PTE_ENTRIES - j
  {
    if j >= NUM_PTE_ENTRIES then {}
    else (if At(s, p, j).valid then {At(s, p, j).page} + Pages0(m, s, At(s, p, j).page, 0) else {}) + Pages1(m, s, p, j + 1)
  }

  function Pages2(m: Mode, s: State, p: int, i: int): set<int>
    decreases NUM_PTE_ENTRIES - i
  {
    if i >= NUM_PTE_ENTRIES then {}
    else (if At(s, p, i).valid then {At(s, p, i).page} + Pages1(m, s, At(s, p, i).page, 0) else {}) + Pages2(m, s, p, i + 1)
  }

  function TreePages(m: Mode, s: State, r: int): set<int> { {r} + Pages2(m, s, r, 0) }

  // x is a data page that a leaf in a table labelled l refers to.
  ghost predicate LeafPage(s: State, g: Ghost, x: int, l: Label) {
    exists z :: IsLeaf(s, g, z) && g.lab[z.p] == l && At(s, z.p, z.k).page == x
  }

  ghost predicate Member0(s: State, g: Ghost, p: int, k: int, x: int) {
    exists k' :: k <= k' < NUM_PTE_ENTRIES && IsLeaf(s, g, Slot(p, k')) && At(s, p, k').page == x
  }

  lemma {:induction false} Pages0Members(m: Mode, s: State, g: Ghost, p: int, k: int, x: int)
    requires Inv(s, g) && IsPage(p) && g.lab[p].L0Of? && 0 <= k && x in Pages0(m, s, p, k)
    ensures Member0(s, g, p, k, x) && m.Eager?
    decreases NUM_PTE_ENTRIES - k
  {
    hide AllocatorOk, TreesOk, RefsOk, ExclusiveOk, InjectiveOk, Closed;
    if m.Eager? && At(s, p, k).valid && x == At(s, p, k).page {
      assert IsLeaf(s, g, Slot(p, k));
    } else {
      Pages0Members(m, s, g, p, k + 1, x);
    }
  }

  lemma {:induction false} Pages0Data(m: Mode, s: State, g: Ghost, p: int, k: int, x: int)
    requires Inv(s, g) && IsPage(p) && g.lab[p].L0Of? && 0 <= k && x in Pages0(m, s, p, k)
    ensures IsPage(x) && IsData(g.lab[x]) && LeafPage(s, g, x, g.lab[p]) && m.Eager?
  {
    hide AllocatorOk, TreesOk, RefsOk, ExclusiveOk, InjectiveOk, Closed;
    Pages0Members(m, s, g, p, k, x);
    var k' :| k <= k' < NUM_PTE_ENTRIES && IsLeaf(s, g, Slot(p, k')) && At(s, p, k').page == x;
    LeafOwned(s, g, Slot(p, k'));
  }

  lemma {:induction false} Pages0Size(m: Mode, s: State, g: Ghost, p: int, k: int)
    requires Inv(s, g) && IsPage(p) && g.lab[p].L0Of? && 0 <= k
    ensures |Pages0(m, s, p, k)| == Count0(m, s, p, k)
    decreases NUM_PTE_ENTRIES - k
  {
    hide AllocatorOk, TreesOk, RefsOk, ExclusiveOk, Closed;
    if k < NUM_PTE_ENTRIES {
      Pages0Size(m, s, g, p, k + 1);
      assert At(s, p, k).valid ==> IsLeaf(s, g, Slot(p, k));
      if At(s, p, k).valid && At(s, p, k).page in Pages0(m, s, p, k + 1) {
        Pages0Members(m, s, g, p, k + 1, At(s, p, k).page);
      }
    }
  }

  lemma UnionSize(c: int, a: set<int>, b: set<int>)
    requires c !in a && forall x | x in {c} + a :: x !in b
    ensures |{c} + a + b| == 1 + |a| + |b|
  {
    assert forall x | x in b :: x !in {c} + a;
    assert ({c} + a) * b == {};
  }

  // ---------------------------------------------------------------- level 1

  // x is the table labelled l or one of its leaf pages.
  ghost predicate InTable(s: State, g: Ghost, x: int, l: Label)
    requires IsPage(x) && GhostSized(g)
  {
    g.lab[x] == l || (IsData(g.lab[x]) && LeafPage(s, g, x, l))
  }

  ghost predicate Member1(s: State, g: Ghost, t: nat, i: int, j: int, x: int) {
    && IsPage(x) && GhostSized(g)
    && exists j' {:trigger L0Of(t, i, j')} :: j <= j' < NUM_PTE_ENTRIES && InTable(s, g, x, L0Of(t, i, j'))
  }

  lemma {:induction false} Pages1Members(m: Mode, s: State, g: Ghost, t: nat, i: int, p: int, j: int, x: int)
    requires Inv(s, g) && IsPage(p) && g.lab[p] == L1Of(t, i) && 0 <= j && x in Pages1(m, s, p, j)
    ensures Member1(s, g, t, i, j, x) && (m.Eager? || g.lab[x].L0Of?)
    decreases NUM_PTE_ENTRIES - j
  {
    hide AllocatorOk, TreesOk, RefsOk, ExclusiveOk, InjectiveOk, Closed, LeafPage;
    if At(s, p, j).valid { ChildOf1(s, g, p, j); }
    if At(s, p, j).valid && x == At(s, p, j).page {
      assert g.lab[x] == L0Of(t, i, j);
    } else if At(s, p, j).valid && x in Pages0(m, s, At(s, p, j).page, 0) {
      Pages0Data(m, s, g, At(s, p, j).page, 0, x);
    } else {
      Pages1Members(m, s, g, t, i, p, j + 1, x);
    }
  }

  // A data page is a leaf page of one table of the space only.
  lemma LeafPageOnce(s: State, g: Ghost, t: nat, x: int, l: Label, l': Label)
    requires Inv(s, g) && LeafPage(s, g, x, l) && LeafPage(s, g, x, l') && l.L0Of? && l'.L0Of? && l.t == l'.t == t
    ensures l == l'
  {
    hide AllocatorOk, TreesOk, RefsOk, ExclusiveOk, Closed;
    var z :| IsLeaf(s, g, z) && g.lab[z.p] == l && At(s, z.p, z.k).page == x;
    var z' :| IsLeaf(s, g, z') && g.lab[z'.p] == l' && At(s, z'.p, z'.k).page == x;
    assert z == z';
  }

  lemma {:induction false} Disjoint1(m: Mode, s: State, g: Ghost, t: nat, i: int, p: int, j: int, x: int)
    requires Inv(s, g) && IsPage(p) && g.lab[p] == L1Of(t, i) && IsIndex(j) && At(s, p, j).valid
    requires x in {At(s, p, j).page} + Pages0(m, s, At(s, p, j).page, 0)
    ensures x !in Pages1(m, s, p, j + 1)
  {
    hide AllocatorOk, TreesOk, RefsOk, ExclusiveOk, InjectiveOk, Closed, LeafPage;
    ChildOf1(s, g, p, j);
    if x in Pages0(m, s, At(s, p, j).page, 0) { Pages0Data(m, s, g, At(s, p, j).page, 0, x); }
    if x in Pages1(m, s, p, j + 1) {
      Pages1Members(m, s, g, t, i, p, j + 1, x);
      var j' :| j + 1 <= j' < NUM_PTE_ENTRIES && InTable(s, g, x, L0Of(t, i, j'));
      if g.lab[x] != L0Of(t, i, j') {
        LeafPageOnce(s, g, t, x, L0Of(t, i, j), L0Of(t, i, j'));
      }
    }
  }

  lemma {:induction false} Pages1Split(m: Mode, s: State, g: Ghost, t: nat, i: int, p: int, j: int)
    requires Inv(s, g) && IsPage(p) && g.lab[p] == L1Of(t, i) && IsIndex(j) && At(s, p, j).valid
    ensures var c := At(s, p, j).page;
      |{c} + Pages0(m, s, c, 0) + Pages1(m, s, p, j + 1)| == 1 + Count0(m, s, c, 0) + |Pages1(m, s, p, j + 1)|
  {
    hide AllocatorOk, TreesOk, RefsOk, ExclusiveOk, InjectiveOk, Closed, LeafPage, Pages0, Pages1, Count0;
    var c := At(s, p, j).page;
    ChildOf1(s, g, p, j);
    Pages0Size(m, s, g, c, 0);
    if c in Pages0(m, s, c, 0) { Pages0Data(m, s, g, c, 0, c); }
    forall x | x in {c} + Pages0(m, s, c, 0) ensures x !in Pages1(m, s, p, j + 1) {
      Disjoint1(m, s, g, t, i, p, j, x);
    }
    UnionSize(c, Pages0(m, s, c, 0), Pages1(m, s, p, j + 1));
  }

  lemma {:induction false} Pages1Size(m: Mode, s: State, g: Ghost, t: nat, i: int, p: int, j: int)
    requires Inv(s, g) && IsPage(p) && g.lab[p] == L1Of(t, i) && 0 <= j
    ensures |Pages1(m, s, p, j)| == Count1(m, s, p, j)
    decreases NUM_PTE_ENTRIES - j
  {
    hide Inv, Pages0, Count0;
    if j < NUM_PTE_ENTRIES {
      Pages1Size(m, s, g, t, i, p, j + 1);
      if At(s, p, j).valid {
        Pages1Split(m, s, g, t, i, p, j);
      } else {
        assert Pages1(m, s, p, j) == Pages1(m, s, p, j + 1);
      }
    }
  }

  // ---------------------------------------------------------------- level 2

  ghost predicate Member2(s: State, g: Ghost, t: nat, i: int, x: int) {
    && IsPage(x) && GhostSized(g)
    && exists i' {:trigger L1Of(t, i')} :: i <= i' < NUM_PTE_ENTRIES && (g.lab[x] == L1Of(t, i') || Member1(s, g, t, i', 0, x))
  }

  lemma Member1Label(s: State, g: Ghost, t: nat, i: int, x: int)
    requires Member1(s, g, t, i, 0, x)
    ensures IsPage(x) && GhostSized(g) && (g.lab[x].L0Of? || IsData(g.lab[x]))
  {
  }

  lemma {:induction false} Pages2Members(m: Mode, s: State, g: Ghost, t: nat, r: int, i: int, x: int)
    requires Inv(s, g) && IsPage(r) && g.lab[r] == RootOf(t) && 0 <= i && x in Pages2(m, s, r, i)
    ensures Member2(s, g, t, i, x) && (m.Eager? || g.lab[x].L1Of? || g.lab[x].L0Of?)
    decreases NUM_PTE_ENTRIES - i
  {
    hide AllocatorOk, TreesOk, RefsOk, ExclusiveOk, InjectiveOk, Closed, Member1;
    if At(s, r, i).valid { ChildOf2(s, g, r, i); }
    if At(s, r, i).valid && x == At(s, r, i).page {
      assert g.lab[x] == L1Of(t, i);
    } else if At(s, r, i).valid && x in Pages1(m, s, At(s, r, i).page, 0) {
      Pages1Members(m, s, g, t, i, At(s, r, i).page, 0, x);
      Member1Label(s, g, t, i, x);
      assert L1Of(t, i).i == i;
    } else {
      Pages2Members(m, s, g, t, r, i + 1, x);
    }
  }

  lemma Member1Once(s: State, g: Ghost, t: nat, i: int, i': int, x: int)
    requires Inv(s, g) && Member1(s, g, t, i, 0, x) && Member1(s, g, t, i', 0, x)
    ensures i == i'
  {
    hide AllocatorOk, TreesOk, RefsOk, ExclusiveOk, InjectiveOk, Closed, LeafPage;
    var j :| 0 <= j < NUM_PTE_ENTRIES && InTable(s, g, x, L0Of(t, i, j));
    var j' :| 0 <= j' < NUM_PTE_ENTRIES && InTable(s, g, x, L0Of(t, i', j'));
    if IsData(g.lab[x]) {
      LeafPageOnce(s, g, t, x, L0Of(t, i, j), L0Of(t, i', j'));
    }
  }

  lemma {:induction false} Disjoint2(m: Mode, s: State, g: Ghost, t: nat, r: int, i: int, x: int)
    requires Inv(s, g) && IsPage(r) && g.lab[r] == RootOf(t) && IsIndex(i) && At(s, r, i).valid
    requires x in {At(s, r, i).page} + Pages1(m, s, At(s, r, i).page, 0)
    ensures x !in Pages2(m, s, r, i + 1)
  {
    hide AllocatorOk, TreesOk, RefsOk, ExclusiveOk, InjectiveOk, Closed, Member1;
    ChildOf2(s, g, r, i);
    if x in Pages1(m, s, At(s, r, i).page, 0) {
      Pages1Members(m, s, g, t, i, At(s, r, i).page, 0, x);
      Member1Label(s, g, t, i, x);
    }
    if x in Pages2(m, s, r, i + 1) {
      Pages2Members(m, s, g, t, r, i + 1, x);
      var i' :| i + 1 <= i' < NUM_PTE_ENTRIES && (g.lab[x] == L1Of(t, i') || Member1(s, g, t, i', 0, x));
      if g.lab[x] != L1Of(t, i') {
        Member1Label(s, g, t, i', x);
        Member1Once(s, g, t, i, i', x);
      }
    }
  }

  lemma {:induction false} Pages2Split(m: Mode, s: State, g: Ghost, t: nat, r: int, i: int)
    requires Inv(s, g) && IsPage(r) && g.lab[r] == RootOf(t) && IsIndex(i) && At(s, r, i).valid
    ensures var c := At(s, r, i).page;
      |{c} + Pages1(m, s, c, 0) + Pages2(m, s, r, i + 1)| == 1 + Count1(m, s, c, 0) + |Pages2(m, s, r, i + 1)|
  {
    hide AllocatorOk, TreesOk, RefsOk, ExclusiveOk, InjectiveOk, Closed, Member1, Pages1, Pages2, Count1;
    var c := At(s, r, i).page;
    ChildOf2(s, g, r, i);
    Pages1Size(m, s, g, t, i, c, 0);
    if c in Pages1(m, s, c, 0) {
      Pages1Members(m, s, g, t, i, c, 0, c);
      Member1Label(s, g, t, i, c);
    }
    forall x | x in {c} + Pages1(m, s, c, 0) ensures x !in Pages2(m, s, r, i + 1) {
      Disjoint2(m, s, g, t, r, i, x);
    }
    UnionSize(c, Pages1(m, s, c, 0), Pages2(m, s, r, i + 1));
  }

  lemma {:induction false} Pages2Size(m: Mode, s: State, g: Ghost, t: nat, r: int, i: int)
    requires Inv(s, g) && IsPage(r) && g.lab[r] == RootOf(t) && 0 <= i
    ensures |Pages2(m, s, r, i)| == Count2(m, s, r, i)
    decreases NUM_PTE_ENTRIES - i
  {
    hide Inv, Pages1, Count1;
    if i < NUM_PTE_ENTRIES {
      Pages2Size(m, s, g, t, r, i + 1);
      if At(s, r, i).valid {
        Pages2Split(m, s, g, t, r, i);
      } else {
        assert Pages2(m, s, r, i) == Pages2(m, s, r, i + 1);
      }
    }
  }

  // ---------------------------------------------------------------- the whole space

  lemma LabelledAllocated(s: State, g: Ghost, x: int)
    requires Ok(s) && GhostSized(g) && AllocatorOk(s, g) && IsPage(x) && !g.lab[x].Free?
    ensures x in Allocated(s)
  {
  }

  lemma {:induction false} TreePageUsed(m: Mode, s: State, g: Ghost, t: nat, r: int, x: int)
    requires Inv(s, g) && IsPage(r) && g.lab[r] == RootOf(t) && x in Pages2(m, s, r, 0)
    ensures x != r && x in Allocated(s)
  {
    hide TreesOk, RefsOk, ExclusiveOk, InjectiveOk, Closed, Member1, AllocatorOk, Allocated, Pages2;
    Pages2Members(m, s, g, t, r, 0, x);
    var i :| 0 <= i < NUM_PTE_ENTRIES && (g.lab[x] == L1Of(t, i) || Member1(s, g, t, i, 0, x));
    if g.lab[x] != L1Of(t, i) { Member1Label(s, g, t, i, x); }
    LabelledAllocated(s, g, x);
  }

  lemma RootLabel(s: State, g: Ghost, t: nat)
    requires Inv(s, g) && t < |g.roots|
    ensures IsPage(g.roots[t]) && g.lab[g.roots[t]] == RootOf(t)
  {
  }

  // TreeCount counts the distinct pages of the space, and all are allocated.
  lemma TreeSize(m: Mode, s: State, g: Ghost, t: nat)
    requires Inv(s, g) && t < |g.roots|
    ensures |TreePages(m, s, g.roots[t])| == TreeCount(m, s, g.roots[t])
    ensures TreePages(m, s, g.roots[t]) <= Allocated(s)
    ensures TreeCount(m, s, g.roots[t]) <= s.used
  {
    hide TreesOk, RefsOk, ExclusiveOk, InjectiveOk, Closed, Member1;
    var r := g.roots[t];
    RootLabel(s, g, t);
    Pages2Size(m, s, g, t, r, 0);
    hide Pages2, Count2, Allocated;
    LabelledAllocated(s, g, r);
    forall x | x in Pages2(m, s, r, 0) ensures x != r && x in Allocated(s) {
      TreePageUsed(m, s, g, t, r, x);
    }
    SubsetSize(TreePages(m, s, r), Allocated(s));
  }

  // ---------------------------------------------------------------- nothing is missed

  lemma {:induction false} Pages0Has(m: Mode, s: State, p: int, k: int, k': int)
    requires 0 <= k <= k' < NUM_PTE_ENTRIES && At(s, p, k').valid && m.Eager?
    ensures At(s, p, k').page in Pages0(m, s, p, k)
    decreases NUM_PTE_ENTRIES - k
  {
    if k < k' { Pages0Has(m, s, p, k + 1, k'); }
  }

  lemma {:induction false} Pages1Has(m: Mode, s: State, p: int, j: int, j': int)
    requires 0 <= j <= j' < NUM_PTE_ENTRIES && At(s, p, j').valid
    ensures {At(s, p, j').page} + Pages0(m, s, At(s, p, j').page, 0) <= Pages1(m, s, p, j)
    decreases NUM_PTE_ENTRIES - j
  {
    if j < j' { Pages1Has(m, s, p, j + 1, j'); }
  }

  lemma {:induction false} Pages2Has(m: Mode, s: State, p: int, i: int, i': int)
    requires 0 <= i <= i' < NUM_PTE_ENTRIES && At(s, p, i').valid
    ensures {At(s, p, i').page} + Pages1(m, s, At(s, p, i').page, 0) <= Pages2(m, s, p, i)
    decreases NUM_PTE_ENTRIES - i
  {
    if i < i' { Pages2Has(m, s, p, i + 1, i'); }
  }

  // An L0 table of space t, and with it its leaf pages, is among the pages.
  lemma {:induction false} TableHas(m: Mode, s: State, g: Ghost, t: nat, p: int)
    requires Inv(s, g) && t < |g.roots| && IsPage(p) && g.lab[p].L0Of? && g.lab[p].t == t
    ensures {p} + Pages0(m, s, p, 0) <= Pages2(m, s, g.roots[t], 0)
  {
    hide AllocatorOk, RefsOk, ExclusiveOk, InjectiveOk, Closed, Pages0, Pages1, Pages2;
    assert OwnOk(s, g, p);
    var i, j, r := g.lab[p].i, g.lab[p].j, g.roots[t];
    Pages2Has(m, s, r, 0, i);
    Pages1Has(m, s, At(s, r, i).page, 0, j);
  }
}
