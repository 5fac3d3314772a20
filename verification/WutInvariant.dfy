// The scheduler invariant, the calls that the code handles, and chains of joins.
module WutInvariant {
  import opened WutState

  // ---------------------------------------------------------------- invariant

  ghost predicate Distinct(q: seq<int>) {
    forall a, b :: 0 <= a < b < |q| ==> q[a] != q[b]
  }

  ghost predicate QueueOk(s: State) {
    && Distinct(s.ready)
    && (forall i :: Alive(s, i) <==> i in s.ready)
  }

  ghost predicate SlotsOk(s: State) {
    && (forall i :: IsTaken(s, i) ==> Get(s, i).id == i && (Alive(s, i) || Blocked(s, i) || 0 <= Get(s, i).state < 256))
    && (forall i :: IsTaken(s, i) ==> Get(s, i).serial < s.count)
    && (forall i, j :: IsTaken(s, i) && IsTaken(s, j) && Get(s, i).serial == Get(s, j).serial ==> i == j)
  }

  // A thread that has to fetch the status of j is the one j will wake, and it is
  // blocked exactly while j has not terminated.
  ghost predicate WaitsFor(s: State, w: int, j: int) {
    && Live(s, w) && IsTaken(s, j) && j != w && Get(s, j).blockId == w
    && (Blocked(s, w) <==> Live(s, j))
  }

  ghost predicate JoinsOk(s: State) {
    && (forall w :: IsTaken(s, w) && Get(s, w).pending >= 0 ==> WaitsFor(s, w, Get(s, w).pending))
    && (forall w :: Blocked(s, w) ==> Get(s, w).pending >= 0)
    && (forall j :: Live(s, j) && Get(s, j).blockId >= 0 ==> IsTaken(s, Get(s, j).blockId) && Get(s, Get(s, j).blockId).pending == j)
    && (forall j :: IsTaken(s, j) ==> Get(s, j).blockId >= -1 && Get(s, j).pending >= -1)
  }

  // Thread w leads to the ready thread r through n joins.
  ghost predicate Leads(s: State, w: int, r: int, n: nat)
    decreases n
  {
    if n == 0 then w == r && Alive(s, w)
    else Blocked(s, w) && Leads(s, Get(s, w).pending, r, n - 1)
  }

  ghost predicate EndsReady(s: State, w: int) {
    exists r, n: nat :: Leads(s, w, r, n)
  }

  // The chain of joins from w ends at r.
  ghost predicate LeadsTo(s: State, w: int, r: int) {
    exists n: nat :: Leads(s, w, r, n)
  }

  ghost predicate ChainsOk(s: State) {
    forall w :: Live(s, w) ==> EndsReady(s, w)
  }

  // What holds between a switch and the resumption of the next thread.
  ghost predicate Core(s: State) {
    QueueOk(s) && SlotsOk(s) && JoinsOk(s) && ChainsOk(s)
  }

  ghost predicate Inv(s: State) {
    && Core(s) && |s.ready| > 0 && Get(s, s.ready[0]).pending == -1
    && |s.threads| > 0
  }

  // ---------------------------------------------------------------- legal calls

  // The calls that the code handles.  An id equal to the capacity reads past the
  // table; a terminated thread cannot be cancelled; a blocked thread can be
  // cancelled only while the thread it waits for is in the ready queue, the
  // only place that is searched, and only by the thread that followed it in the
  // queue when it blocked (WutCancel.dfy); a join must not close a cycle.
  ghost predicate Legal(s: State, op: Op)
    requires |s.ready| > 0
  {
    match op
    case Cancel(id) =>
      && id != |s.threads|
      && (!CancelRefused(s, id) ==>
        && Live(s, id)
        && (Blocked(s, id) ==> Alive(s, Get(s, id).pending) && Get(s, id).follower == Get(s, s.ready[0]).serial))
    case Join(id) =>
      && id != |s.threads|
      && (JoinBlocks(s, id) ==> !LeadsTo(s, id, s.ready[0]))
    case _ => true
  }

  // ---------------------------------------------------------------- chains

  lemma {:induction false} LeadsEnd(s: State, w: int, r: int, n: nat)
    requires Leads(s, w, r, n)
    ensures Alive(s, r) && Live(s, w)
    decreases n
  {
    if n > 0 { LeadsEnd(s, Get(s, w).pending, r, n - 1); }
  }

  // The end and the length of a chain are determined.
  lemma {:induction false} LeadsUnique(s: State, w: int, r: int, n: nat, r': int, n': nat)
    requires Leads(s, w, r, n) && Leads(s, w, r', n')
    ensures r == r' && n == n'
    decreases n
  {
    if n > 0 && n' > 0 { LeadsUnique(s, Get(s, w).pending, r, n - 1, r', n' - 1); }
  }

  // A chain depends only on which threads are live and what they wait for.
  ghost predicate SameChains(s: State, s': State) {
    forall w :: (Alive(s, w) ==> Alive(s', w)) && (Blocked(s, w) ==> Blocked(s', w) && Get(s', w).pending == Get(s, w).pending)
  }

  lemma {:induction false} LeadsKept(s: State, s': State, w: int, r: int, n: nat)
    requires SameChains(s, s') && Leads(s, w, r, n)
    ensures Leads(s', w, r, n)
    decreases n
  {
    if n > 0 { LeadsKept(s, s', Get(s, w).pending, r, n - 1); }
  }

  lemma ChainsKept(s: State, s': State)
    requires ChainsOk(s) && SameChains(s, s')
    requires forall w :: Live(s', w) ==> Live(s, w) || Alive(s', w)
    ensures ChainsOk(s')
  {
    forall w | Live(s', w) ensures EndsReady(s', w) {
      if Live(s, w) {
        var r, n: nat :| Leads(s, w, r, n);
        LeadsKept(s, s', w, r, n);
      } else {
        assert Leads(s', w, w, 0);
      }
    }
  }

  // Thread a goes away and its waiter, if any, becomes ready.
  ghost predicate Removed(s: State, a: int, s': State) {
    && !Live(s', a)
    && forall w :: w != a && Live(s, w) ==>
      if Get(s, w).pending == a && Blocked(s, w) then Alive(s', w)
      else Get(s', w).state == Get(s, w).state && Get(s', w).pending == Get(s, w).pending && Live(s', w)
  }

  lemma {:induction false} LeadsAround(s: State, a: int, s': State, w: int, r: int, n: nat)
    requires Removed(s, a, s') && Leads(s, w, r, n) && w != a
    ensures EndsReady(s', w)
    decreases n
  {
    if n == 0 || Get(s, w).pending == a {
      assert Leads(s', w, w, 0);
    } else {
      LeadsEnd(s, Get(s, w).pending, r, n - 1);
      LeadsAround(s, a, s', Get(s, w).pending, r, n - 1);
      var r', n': nat :| Leads(s', Get(s, w).pending, r', n');
      assert Leads(s', w, r', n' + 1);
    }
  }

  lemma ChainsAround(s: State, a: int, s': State)
    requires ChainsOk(s) && Removed(s, a, s')
    requires forall w :: Live(s', w) ==> Live(s, w)
    ensures ChainsOk(s')
  {
    forall w | Live(s', w) ensures EndsReady(s', w) {
      var r, n: nat :| Leads(s, w, r, n);
      LeadsAround(s, a, s', w, r, n);
    }
  }

  // ---------------------------------------------------------------- queues

  lemma DistinctCons(x: int, q: seq<int>)
    requires Distinct(q) && x !in q
    ensures Distinct([x] + q)
  {
    forall a, b | 0 <= a < b < |q| + 1 ensures ([x] + q)[a] != ([x] + q)[b] {
      if a > 0 { assert q[a - 1] != q[b - 1]; }
    }
  }

  lemma {:induction false} RemoveFrom(q: seq<int>, i: int)
    requires Distinct(q)
    ensures Distinct(Remove(q, i))
    ensures forall x :: x in Remove(q, i) <==> x in q && x != i
    ensures |Remove(q, i)| == |q| - if i in q then 1 else 0
  {
    if |q| > 0 {
      var t := q[1..];
      assert forall x :: x in q <==> x == q[0] || x in t;
      if q[0] != i {
        RemoveFrom(t, i);
        DistinctCons(q[0], Remove(t, i));
      } else {
        assert forall x :: x in t ==> x != i;
      }
    }
  }

  lemma {:induction false} RemoveHead(q: seq<int>)
    requires |q| > 0
    ensures Remove(q, q[0]) == q[1..]
  {
  }
}
