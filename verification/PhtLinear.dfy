// The concurrent table linearizes to the sequential one.
module PhtLinear {
  import opened Common
  import opened PhtBase
  import opened PhtV2

  ghost predicate Linked(nodes: seq<Node>) {
    forall i :: 0 <= i < |nodes| ==> -1 <= nodes[i].next < i
  }

  // ---------------------------------------------------------------- walks and lists

  lemma {:induction false} FindInNil(k: string)
    ensures FindIn([], k) == 0
  {
  }

  lemma {:induction false} FindInCons(x: Pair, l: seq<Pair>, k: string)
    ensures FindIn([x] + l, k) == if x.key == k then 0 else 1 + FindIn(l, k)
  {
    assert ([x] + l)[1..] == l;
  }

  // A walk finds the key exactly if the list has it, and at the first pair.
  lemma {:induction false} FindIsFindIn(nodes: seq<Node>, n: int, k: string)
    requires Linked(nodes) && -1 <= n < |nodes|
    ensures Find(nodes, n, k) >= 0 <==> Has(ListFrom(nodes, n), k)
    ensures Find(nodes, n, k) >= 0 ==> nodes[Find(nodes, n, k)].value == ListFrom(nodes, n)[FindIn(ListFrom(nodes, n), k)].value
    decreases n
  {
    hide FindIn;
    FindInNil(k);
    if n >= 0 {
      FindInCons(Pair(nodes[n].key, nodes[n].value), ListFrom(nodes, nodes[n].next), k);
      if nodes[n].key != k { FindIsFindIn(nodes, nodes[n].next, k); }
    }
  }

  // Two node stores with the same keys and links on the first m nodes.
  ghost predicate SameShape(nodes: seq<Node>, nodes': seq<Node>) {
    && Linked(nodes) && Linked(nodes') && |nodes| <= |nodes'|
    && forall i :: 0 <= i < |nodes| ==> nodes'[i].key == nodes[i].key && nodes'[i].next == nodes[i].next
  }

  lemma {:induction false} FindKept(nodes: seq<Node>, nodes': seq<Node>, n: int, k: string)
    requires SameShape(nodes, nodes') && -1 <= n < |nodes|
    ensures Find(nodes', n, k) == Find(nodes, n, k)
    decreases n
  {
    if n >= 0 { FindKept(nodes, nodes', nodes[n].next, k); }
  }

  lemma {:induction false} AllInKept(nodes: seq<Node>, nodes': seq<Node>, n: int, b: int)
    requires SameShape(nodes, nodes') && -1 <= n < |nodes| && AllIn(nodes, n, b)
    ensures AllIn(nodes', n, b)
    decreases n
  {
    if n >= 0 { AllInKept(nodes, nodes', nodes[n].next, b); }
  }

  // A list is kept if the values of its bucket's nodes are.
  lemma {:induction false} ListKept(nodes: seq<Node>, nodes': seq<Node>, n: int, b: int)
    requires SameShape(nodes, nodes') && -1 <= n < |nodes| && AllIn(nodes, n, b)
    requires forall i :: 0 <= i < |nodes| && Index(nodes[i].key) == b ==> nodes'[i].value == nodes[i].value
    ensures ListFrom(nodes', n) == ListFrom(nodes, n)
    decreases n
  {
    if n >= 0 { ListKept(nodes, nodes', nodes[n].next, b); }
  }

  lemma {:induction false} ListBelow(nodes: seq<Node>, x: int, v: Word, n: int)
    requires Linked(nodes) && 0 <= x < |nodes| && -1 <= n < x
    requires Linked(nodes[x := nodes[x].(value := v)])
    ensures ListFrom(nodes[x := nodes[x].(value := v)], n) == ListFrom(nodes, n)
    decreases n
  {
    if n >= 0 { ListBelow(nodes, x, v, nodes[n].next); }
  }

  lemma AddToFirst(y: Pair, r: seq<Pair>, v: Word)
    ensures AddTo([y] + r, y.key, v) == [Pair(y.key, v)] + r
  {
  }

  lemma AddToRest(y: Pair, r: seq<Pair>, k: string, v: Word)
    requires y.key != k && Has(r, k)
    ensures AddTo([y] + r, k, v) == [y] + AddTo(r, k, v)
  {
    FindInCons(y, r, k);
  }

  // Storing into the node that a walk finds is the sequential update.
  lemma {:induction false} ListStored(nodes: seq<Node>, x: int, k: string, v: Word, n: int)
    requires Linked(nodes) && -1 <= n < |nodes| && Find(nodes, n, k) == x && x >= 0
    requires Linked(nodes[x := nodes[x].(value := v)])
    ensures ListFrom(nodes[x := nodes[x].(value := v)], n) == AddTo(ListFrom(nodes, n), k, v)
    decreases n
  {
    hide AddTo, Has, FindIn;
    var y := Pair(nodes[n].key, nodes[n].value);
    var r := ListFrom(nodes, nodes[n].next);
    if n == x {
      ListBelow(nodes, x, v, nodes[n].next);
      AddToFirst(y, r, v);
    } else {
      ListStored(nodes, x, k, v, nodes[n].next);
      FindIsFindIn(nodes, nodes[n].next, k);
      AddToRest(y, r, k, v);
    }
  }

  // ---------------------------------------------------------------- unchanged parts

  ghost predicate NodesSame(s: State, s': State) { s'.nodes == s.nodes && s'.heads == s.heads && s'.log == s.log }

  lemma RefinesSame(s: State, s': State)
    requires Sized(s) && Sized(s') && Refines(s) && NodesSame(s, s')
    ensures Refines(s')
  {
  }

  // A thread other than the mover keeps its assertion when nodes keep their
  // shape and its bucket keeps its head.
  lemma PcKept(s: State, s': State, pc: Pc)
    requires Sized(s) && Sized(s') && SameShape(s.nodes, s'.nodes) && PcSized(pc, |s.nodes|) && PcOk(s, pc)
    requires !pc.Idle? && !pc.AddLock? && !pc.AddUnlock? && !pc.HasScan? ==> s'.heads[Index(pc.k)] == s.heads[Index(pc.k)]
    requires pc.AddPublish? ==> s'.nodes[pc.node] == s.nodes[pc.node]
    ensures PcSized(pc, |s'.nodes|) && PcOk(s', pc)
  {
    if !pc.Idle? {
      FindKept(s.nodes, s'.nodes, s.heads[Index(pc.k)], pc.k);
    }
    match pc
    case AddScan(k, _, cur) => FindKept(s.nodes, s'.nodes, cur, k);
    case HasScan(k, cur, _) => FindKept(s.nodes, s'.nodes, cur, k);
    case GetScan(k, cur, _) => FindKept(s.nodes, s'.nodes, cur, k);
    case _ =>
  }

  // Only thread t moves; the others keep their place and their assertion.
  ghost predicate Moves(s: State, s': State, t: int) {
    && 0 <= t < |s.threads| == |s'.threads|
    && forall u :: 0 <= u < |s.threads| && u != t ==> s'.threads[u] == s.threads[u]
  }

  lemma OthersSame(s: State, s': State, t: int)
    requires Inv(s) && |s'.heads| == |s'.locks| == HASH_TABLE_CAPACITY && NodesSame(s, s') && Moves(s, s', t)
    requires PcSized(s'.threads[t].pc, |s'.nodes|)
    ensures Sized(s') && Refines(s')
    ensures PcOk(s', s'.threads[t].pc) ==> ThreadsOk(s')
  {
    hide AllIn, AddAll;
    RefinesSame(s, s');
    forall u | 0 <= u < |s.threads| && u != t ensures PcOk(s', s'.threads[u].pc) {
      PcKept(s, s', s.threads[u].pc);
    }
  }

  // ---------------------------------------------------------------- each step

  lemma BeginKeeps(s: State, t: int)
    requires Inv(s) && Enabled(s, t) && s.threads[t].pc.Idle?
    ensures Inv(Step(s, t))
  {
    var s', c := Step(s, t), s.threads[t].calls[0];
    OthersSame(s, s', t);
    if c.Has_? || c.Get? { FindIsFindIn(s.nodes, s.heads[Index(c.key)], c.key); }
  }

  lemma LockKeeps(s: State, t: int)
    requires Inv(s) && Enabled(s, t) && s.threads[t].pc.AddLock?
    ensures Inv(Step(s, t))
  {
    OthersSame(s, Step(s, t), t);
  }

  lemma ScanKeeps(s: State, t: int)
    requires Inv(s) && Enabled(s, t) && s.threads[t].pc.AddScan? && s.threads[t].pc.cur >= 0
    ensures Inv(Step(s, t))
  {
    OthersSame(s, Step(s, t), t);
  }

  // The new node is private until it is published.
  lemma MakeKeeps(s: State, t: int)
    requires Inv(s) && Enabled(s, t) && s.threads[t].pc.AddScan? && s.threads[t].pc.cur < 0
    ensures Inv(Step(s, t))
  {
    hide AddAll;
    var s' := Step(s, t);
    var k := s.threads[t].pc.k;
    assert SameShape(s.nodes, s'.nodes);
    forall u | 0 <= u < |s.threads| && u != t ensures PcSized(s'.threads[u].pc, |s'.nodes|) && PcOk(s', s'.threads[u].pc) {
      PcKept(s, s', s.threads[u].pc);
    }
    FindKept(s.nodes, s'.nodes, s.heads[Index(k)], k);
    forall b | 0 <= b < HASH_TABLE_CAPACITY
      ensures ListFrom(s'.nodes, s'.heads[b]) == AddAll(s'.log)[b] && AllIn(s'.nodes, s'.heads[b], b)
    {
      ListKept(s.nodes, s'.nodes, s.heads[b], b);
      AllInKept(s.nodes, s'.nodes, s.heads[b], b);
    }
  }

  // The node of an update and the node about to be published by another thread
  // are in different buckets: each thread holds its bucket's lock.
  lemma PublishApart(s: State, t: int, u: int)
    requires Inv(s) && 0 <= t < |s.threads| && 0 <= u < |s.threads| && u != t && s.threads[t].pc.AddStore?
    ensures s.threads[u].pc.AddPublish? ==> s.threads[u].pc.node != s.threads[t].pc.node
  {
    assert PcOk(s, s.threads[u].pc) && PcOk(s, s.threads[t].pc);
    assert Holding(s.threads[t].pc);
  }

  // An update takes effect at its store.
  lemma StoreKeeps(s: State, t: int)
    requires Inv(s) && Enabled(s, t) && s.threads[t].pc.AddStore?
    ensures Inv(Step(s, t))
  {
    hide AddAll;
    var s' := Step(s, t);
    var k, v, n := s.threads[t].pc.k, s.threads[t].pc.v, s.threads[t].pc.node;
    assert SameShape(s.nodes, s'.nodes);
    forall u | 0 <= u < |s.threads| && u != t ensures PcSized(s'.threads[u].pc, |s'.nodes|) && PcOk(s', s'.threads[u].pc) {
      assert s.threads[u].pc.AddPublish? ==> s.threads[u].pc.node != n by { PublishApart(s, t, u); }
      PcKept(s, s', s.threads[u].pc);
    }
    AddAllStep(s.log, k, v);
    forall b | 0 <= b < HASH_TABLE_CAPACITY
      ensures ListFrom(s'.nodes, s'.heads[b]) == AddAll(s'.log)[b] && AllIn(s'.nodes, s'.heads[b], b)
    {
      AllInKept(s.nodes, s'.nodes, s.heads[b], b);
      if b == Index(k) {
        ListStored(s.nodes, n, k, v, s.heads[b]);
      } else {
        ListKept(s.nodes, s'.nodes, s.heads[b], b);
      }
    }
  }

  lemma PublishOther(s: State, t: int, u: int)
    requires Inv(s) && Enabled(s, t) && s.threads[t].pc.AddPublish? && 0 <= u < |s.threads| && u != t
    ensures Sized(Step(s, t)) && PcOk(Step(s, t), s.threads[u].pc)
  {
    var s', pc := Step(s, t), s.threads[u].pc;
    assert PcOk(s, s.threads[t].pc) && PcOk(s, pc);
    if (pc.GetScan? || pc.GetLoad?) && Index(pc.k) == Index(s.threads[t].pc.k) {
    } else {
      assert Holding(pc) ==> Index(pc.k) != Index(s.threads[t].pc.k);
      PcKept(s, s', pc);
    }
  }

  // An insert takes effect when its node is published.
  lemma PublishKeeps(s: State, t: int)
    requires Inv(s) && Enabled(s, t) && s.threads[t].pc.AddPublish?
    ensures Inv(Step(s, t))
  {
    hide AddAll;
    var s' := Step(s, t);
    var k, v, n := s.threads[t].pc.k, s.threads[t].pc.v, s.threads[t].pc.node;
    var c := Index(k);
    assert PcOk(s, s.threads[t].pc);
    forall u | 0 <= u < |s.threads| && u != t ensures PcOk(s', s'.threads[u].pc) {
      PublishOther(s, t, u);
    }
    AddAllStep(s.log, k, v);
    FindIsFindIn(s.nodes, s.heads[c], k);
    forall b | 0 <= b < HASH_TABLE_CAPACITY
      ensures ListFrom(s'.nodes, s'.heads[b]) == AddAll(s'.log)[b] && AllIn(s'.nodes, s'.heads[b], b)
    {
    }
  }

  lemma UnlockKeeps(s: State, t: int)
    requires Inv(s) && Enabled(s, t) && s.threads[t].pc.AddUnlock?
    ensures Inv(Step(s, t))
  {
    OthersSame(s, Step(s, t), t);
  }

  // A reader's answer is the sequential table's: contains as it was at the read
  // of the list head, get_value as it is at the read of the value.
  lemma ReadKeeps(s: State, t: int)
    requires Inv(s) && Enabled(s, t) && (s.threads[t].pc.HasScan? || s.threads[t].pc.GetScan? || s.threads[t].pc.GetLoad?)
    ensures Inv(Step(s, t))
  {
    hide AddAll, AllIn;
    var s', pc := Step(s, t), s.threads[t].pc;
    assert PcOk(s, pc);
    if pc.GetScan? && pc.cur < 0 {
      assert s'.threads == s.threads;
    }
    OthersSame(s, s', t);
    if pc.GetLoad? {
      FindIsFindIn(s.nodes, s.heads[Index(pc.k)], pc.k);
    }
  }

  lemma StepKeeps(s: State, t: int)
    requires Inv(s) && Enabled(s, t)
    ensures Inv(Step(s, t))
  {
    hide Inv, Step, Refines, ThreadsOk, LocksOk, AnswersOk;
    match s.threads[t].pc
    case Idle => BeginKeeps(s, t);
    case AddLock(_, _) => LockKeeps(s, t);
    case AddScan(_, _, cur) => if cur < 0 { MakeKeeps(s, t); } else { ScanKeeps(s, t); }
    case AddStore(_, _, _) => StoreKeeps(s, t);
    case AddPublish(_, _, _) => PublishKeeps(s, t);
    case AddUnlock(_) => UnlockKeeps(s, t);
    case HasScan(_, _, _) => ReadKeeps(s, t);
    case GetScan(_, _, _) => ReadKeeps(s, t);
    case GetLoad(_, _) => ReadKeeps(s, t);
  }
}
