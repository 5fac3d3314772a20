// The ready queue as the doubly linked list that it is: the macros TAILQ_INSERT_TAIL
// and TAILQ_REMOVE of <sys/queue.h>, and the proof that the queue of ids in the
// scheduler model is that list.
module WutTailq {
  import opened WutState
  import opened WutInvariant
  import opened WutSteps
  import opened WutRuns
  import opened WutCancel

  // Where a link is stored: in the head of the list or in an entry.
  datatype Loc = First | NextOf(e: int)

  // Entries are numbered by the serial of their thread; -1 is a null link.
  // `last` and `prev` hold the place of a link, as the C structures do.
  datatype Tailq = Tailq(first: int, last: Loc, next: seq<int>, prev: seq<Loc>)

  predicate IsEntry(q: Tailq, e: int) { 0 <= e < |q.next| && |q.next| == |q.prev| }

  // *loc = e
  function Store(q: Tailq, loc: Loc, e: int): (q': Tailq)
    ensures |q'.next| == |q.next| && |q'.prev| == |q.prev|
  {
    match loc
    case First => q.(first := e)
    case NextOf(p) => if 0 <= p < |q.next| then q.(next := q.next[p := e]) else q
  }

  function InsertTail(q: Tailq, e: int): (q': Tailq)
    requires IsEntry(q, e)
    ensures |q'.next| == |q.next| && |q'.prev| == |q.prev|
  {
    var q1 := q.(next := q.next[e := -1], prev := q.prev[e := q.last]);
    Store(q1, q1.last, e).(last := NextOf(e))
  }

  function RemoveEntry(q: Tailq, e: int): (q': Tailq)
    requires IsEntry(q, e)
    ensures |q'.next| == |q.next| && |q'.prev| == |q.prev|
  {
    var n := q.next[e];
    var q1 :=
      if n == -1 then q.(last := q.prev[e])
      else if 0 <= n < |q.prev| then q.(prev := q.prev[n := q.prev[e]])
      else q;
    Store(q1, q1.prev[e], n)
  }

  // A new thread's entry, not yet linked.
  function Grow(q: Tailq): Tailq { q.(next := q.next + [-1], prev := q.prev + [First]) }

  // ---------------------------------------------------------------- lists

  function LocBefore(l: seq<int>, k: int): Loc
    requires 0 <= k <= |l|
  {
    if k == 0 then First else NextOf(l[k - 1])
  }

  function EntryAt(l: seq<int>, k: int): int { if 0 <= k < |l| then l[k] else -1 }

  ghost predicate LinkedAt(q: Tailq, l: seq<int>, k: int)
    requires 0 <= k < |l|
  {
    IsEntry(q, l[k]) && q.next[l[k]] == EntryAt(l, k + 1) && q.prev[l[k]] == LocBefore(l, k)
  }

  // The list holds exactly the entries l, in this order, and all links agree.
  ghost predicate IsList(q: Tailq, l: seq<int>) {
    && Distinct(l)
    && (forall k :: 0 <= k < |l| ==> LinkedAt(q, l, k))
    && q.first == EntryAt(l, 0) && q.last == LocBefore(l, |l|)
  }

  // Entries off the list keep their links.
  ghost predicate OthersKeep(q: Tailq, l: seq<int>, q': Tailq) {
    && |q'.next| == |q.next| && |q'.prev| == |q.prev| && |q.next| == |q.prev|
    && forall e :: IsEntry(q, e) && e !in l ==> q'.next[e] == q.next[e] && q'.prev[e] == q.prev[e]
  }

  lemma InsertTailFields(q: Tailq, l: seq<int>, e: int)
    requires IsList(q, l) && IsEntry(q, e) && e !in l
    ensures var q' := InsertTail(q, e);
      && q'.first == (if |l| == 0 then e else q.first) && q'.last == NextOf(e)
      && |q'.next| == |q'.prev| == |q.next|
      && q'.prev == q.prev[e := q.last]
      && forall d :: IsEntry(q, d) ==> q'.next[d] == if d == e then -1 else if |l| > 0 && d == l[|l| - 1] then e else q.next[d]
  {
    if |l| > 0 { assert LinkedAt(q, l, |l| - 1); }
  }

  lemma InsertTailIs(q: Tailq, l: seq<int>, e: int)
    requires IsList(q, l) && IsEntry(q, e) && e !in l
    ensures IsList(InsertTail(q, e), l + [e])
    ensures OthersKeep(q, l + [e], InsertTail(q, e))
  {
    var q', l' := InsertTail(q, e), l + [e];
    assert |l| > 0 ==> LinkedAt(q, l, |l| - 1);
    InsertTailFields(q, l, e);
    forall k | 0 <= k < |l'| ensures LinkedAt(q', l', k) {
      if k < |l| { assert LinkedAt(q, l, k) && l'[k] == l[k]; }
    }
  }

  function Without(l: seq<int>, k: int): seq<int>
    requires 0 <= k < |l|
  {
    l[..k] + l[k + 1..]
  }

  ghost predicate TakenOut(q: Tailq, l: seq<int>, k: int, q': Tailq) {
    && IsList(q, l) && 0 <= k < |l| && LinkedAt(q, l, k)
    && (k > 0 ==> LinkedAt(q, l, k - 1)) && (k + 1 < |l| ==> LinkedAt(q, l, k + 1))
    && q'.first == (if k == 0 then EntryAt(l, 1) else q.first)
    && q'.last == (if k + 1 < |l| then q.last else LocBefore(l, k))
    && q'.next == (if k > 0 then q.next[l[k - 1] := EntryAt(l, k + 1)] else q.next)
    && q'.prev == (if k + 1 < |l| then q.prev[l[k + 1] := LocBefore(l, k)] else q.prev)
  }

  lemma RemoveFields(q: Tailq, l: seq<int>, k: int)
    requires IsList(q, l) && 0 <= k < |l| && IsEntry(q, l[k])
    ensures TakenOut(q, l, k, RemoveEntry(q, l[k]))
  {
    assert LinkedAt(q, l, k);
    if k > 0 { assert LinkedAt(q, l, k - 1); }
    if k + 1 < |l| { assert LinkedAt(q, l, k + 1) && l[k + 1] != l[k]; }
  }

  lemma RemovedAt(q: Tailq, l: seq<int>, k: int, q': Tailq, l': seq<int>, a: int)
    requires TakenOut(q, l, k, q') && l' == Without(l, k) && 0 <= a < |l'|
    ensures LinkedAt(q', l', a)
  {
    var b := if a < k then a else a + 1;
    assert l'[a] == l[b] && LinkedAt(q, l, b);
    assert EntryAt(l', a + 1) == if a + 1 < k then l[a + 1] else EntryAt(l, a + 2);
    assert LocBefore(l', a) == if a <= k then LocBefore(l, a) else NextOf(l[a]);
  }

  lemma RemovedEnds(q: Tailq, l: seq<int>, k: int, q': Tailq, l': seq<int>)
    requires TakenOut(q, l, k, q') && l' == Without(l, k)
    ensures q'.first == EntryAt(l', 0) && q'.last == LocBefore(l', |l'|) && Distinct(l')
  {
    assert forall a :: 0 <= a < |l'| ==> l'[a] == if a < k then l[a] else l[a + 1];
  }

  lemma OthersUntouched(q: Tailq, l: seq<int>, k: int, q': Tailq, l': seq<int>)
    requires TakenOut(q, l, k, q') && l' == Without(l, k)
    ensures OthersKeep(q, l', q')
  {
    if k > 0 { assert l'[k - 1] == l[k - 1]; }
    if k + 1 < |l| { assert l'[k] == l[k + 1]; }
  }

  // An entry that is in the list is taken out, and keeps its links.
  lemma RemoveIs(q: Tailq, l: seq<int>, k: int)
    requires IsList(q, l) && 0 <= k < |l| && IsEntry(q, l[k])
    ensures IsList(RemoveEntry(q, l[k]), Without(l, k))
    ensures OthersKeep(q, Without(l, k), RemoveEntry(q, l[k]))
  {
    hide RemoveEntry, TakenOut, LinkedAt, Without, OthersKeep;
    var q', l' := RemoveEntry(q, l[k]), Without(l, k);
    RemoveFields(q, l, k);
    forall a | 0 <= a < |l'| ensures LinkedAt(q', l', a) {
      RemovedAt(q, l, k, q', l', a);
    }
    RemovedEnds(q, l, k, q', l');
    OthersUntouched(q, l, k, q', l');
  }

  // ---------------------------------------------------------------- removing twice

  // Entry e was the first of the list when it was taken off.
  ghost predicate Stale(q: Tailq, l: seq<int>, e: int) {
    IsEntry(q, e) && e !in l && q.prev[e] == First && IsEntry(q, q.next[e])
  }

  // Removing it once more changes nothing exactly if the entry that followed it
  // is the first one again.
  lemma StaleRemoveIff(q: Tailq, l: seq<int>, e: int)
    requires IsList(q, l) && Stale(q, l, e)
    ensures RemoveEntry(q, e) == q <==> q.first == q.next[e]
    ensures RemoveEntry(q, e).first == q.next[e]
  {
    var n := q.next[e];
    if q.first == n {
      assert LinkedAt(q, l, 0) && l[0] == n;
      assert q.prev[n := First] == q.prev;
    }
  }

  // If the follower is further down, everything before it drops out.
  lemma StaleRemoveDrops(q: Tailq, l: seq<int>, e: int, k: int)
    requires IsList(q, l) && Stale(q, l, e) && 0 <= k < |l| && l[k] == q.next[e]
    ensures IsList(RemoveEntry(q, e), l[k..])
  {
    var q', l' := RemoveEntry(q, e), l[k..];
    assert LinkedAt(q, l, k);
    forall a | 0 <= a < |l'| ensures LinkedAt(q', l', a) {
      assert l'[a] == l[k + a] && LinkedAt(q, l, k + a);
    }
  }

  // ---------------------------------------------------------------- the list behind the model

  ghost function SerialsOf(s: State, ids: seq<int>): (l: seq<int>)
    ensures |l| == |ids| && forall k :: 0 <= k < |ids| ==> l[k] == Get(s, ids[k]).serial
  {
    seq(|ids|, k requires 0 <= k < |ids| => Get(s, ids[k]).serial)
  }

  // The entry of a blocked thread still has the links of the first entry, with
  // the recorded follower behind it.
  ghost predicate StaleAt(s: State, q: Tailq, w: int) {
    var e := Get(s, w).serial;
    IsEntry(q, e) && q.prev[e] == First && q.next[e] == Get(s, w).follower && IsEntry(q, q.next[e])
  }

  ghost predicate Links(s: State, q: Tailq) {
    && |q.next| == |q.prev| == s.count
    && IsList(q, SerialsOf(s, s.ready))
    && forall w :: Blocked(s, w) ==> StaleAt(s, q, w)
  }

  function WakeEntry(s: State, q: Tailq, w: int): (q': Tailq)
    requires w >= 0 ==> IsEntry(q, Get(s, w).serial)
    ensures |q'.next| == |q.next| && |q'.prev| == |q.prev|
  {
    if w >= 0 then InsertTail(q, Get(s, w).serial) else q
  }

  lemma HasEntry(s: State, i: int)
    requires Inv(s)
    ensures Get(s, i).serial < s.count
  {
    HeadAlive(s);
    assert IsTaken(s, s.ready[0]);
  }

  // What each call does to the list, macro by macro.
  function LinkStep(s: State, q: Tailq, op: Op): Tailq
    requires Inv(s) && |q.next| == |q.prev| == s.count
  {
    HasEntry(s, s.ready[0]);
    var h := Get(s, s.ready[0]).serial;
    match op
    case Create => InsertTail(Grow(q), s.count)
    case Cancel(id) =>
      if CancelRefused(s, id) then q
      else
        var w := Get(Unblock(s, 0, id), id).blockId;
        HasEntry(s, w);
        HasEntry(s, id);
        RemoveEntry(WakeEntry(s, q, w), Get(s, id).serial)
    case Join(id) => if JoinBlocks(s, id) then RemoveEntry(q, h) else q
    case Yield => if |s.ready| == 1 then q else InsertTail(RemoveEntry(q, h), h)
    case Exit(_) =>
      var w := Get(s, s.ready[0]).blockId;
      HasEntry(s, w);
      RemoveEntry(WakeEntry(s, q, w), h)
  }

  lemma LinksFrom(s: State, q: Tailq, s': State, q': Tailq, l: seq<int>)
    requires Links(s, q) && OthersKeep(q, l, q') && IsList(q', SerialsOf(s', s'.ready)) && s'.count == s.count
    requires forall w :: Blocked(s', w) ==>
      Blocked(s, w) && Get(s', w).serial == Get(s, w).serial && Get(s', w).follower == Get(s, w).follower && Get(s, w).serial !in l
    ensures Links(s', q')
  {
    hide IsList;
    forall w | Blocked(s', w) ensures StaleAt(s', q', w) {
      assert StaleAt(s, q, w);
    }
  }

  lemma LinksSame(s: State, s': State, q: Tailq)
    requires Links(s, q) && s'.count == s.count && SerialsOf(s', s'.ready) == SerialsOf(s, s.ready)
    requires forall w :: Blocked(s', w) ==>
      Blocked(s, w) && Get(s', w).serial == Get(s, w).serial && Get(s', w).follower == Get(s, w).follower
    ensures Links(s', q)
  {
    hide IsList;
    forall w | Blocked(s', w) ensures StaleAt(s', q, w) {
      assert StaleAt(s, q, w);
    }
  }

  // Blocked threads have no entry in the list.
  lemma BlockedOff(s: State, w: int, ids: seq<int>)
    requires SlotsOk(s) && IsTaken(s, w) && w !in ids && forall k :: 0 <= k < |ids| ==> IsTaken(s, ids[k])
    ensures Get(s, w).serial !in SerialsOf(s, ids)
  {
    forall k | 0 <= k < |ids| ensures Get(s, ids[k]).serial != Get(s, w).serial {
      assert IsTaken(s, ids[k]);
    }
  }

  lemma ReadyTaken(s: State)
    requires QueueOk(s)
    ensures forall k :: 0 <= k < |s.ready| ==> Alive(s, s.ready[k])
    ensures forall w :: Blocked(s, w) ==> w !in s.ready
  {
    forall w | Blocked(s, w) ensures w !in s.ready {
      assert Alive(s, w) <==> w in s.ready;
    }
  }

  lemma {:induction false} RemoveIsWithout(q: seq<int>, i: int, k: int)
    requires Distinct(q) && 0 <= k < |q| && q[k] == i
    ensures Remove(q, i) == Without(q, k)
  {
    if k == 0 {
      assert Without(q, 0) == q[1..];
    } else {
      assert q[0] != i;
      RemoveIsWithout(q[1..], i, k - 1);
      assert Without(q, k) == [q[0]] + Without(q[1..], k - 1);
    }
  }

  lemma SerialsWithout(s: State, s': State, ids: seq<int>, k: int)
    requires 0 <= k < |ids| && forall a :: 0 <= a < |ids| && a != k ==> Get(s', ids[a]).serial == Get(s, ids[a]).serial
    ensures SerialsOf(s', Without(ids, k)) == Without(SerialsOf(s, ids), k)
  {
  }

  lemma NothingMoved(q: Tailq, l: seq<int>)
    requires |q.next| == |q.prev|
    ensures OthersKeep(q, l, q)
  {
  }

  lemma WokenIds(s: State, w: int, ids: seq<int>)
    requires QueueOk(s) && SlotsOk(s) && (w >= 0 ==> Blocked(s, w)) && ids == if w >= 0 then s.ready + [w] else s.ready
    ensures Distinct(ids) && forall k :: 0 <= k < |ids| ==> IsTaken(s, ids[k])
    ensures w >= 0 ==> w !in s.ready && Get(s, w).serial < s.count
    ensures forall k :: 0 <= k < |s.ready| ==> IsTaken(s, s.ready[k])
  {
    ReadyTaken(s);
    if w >= 0 { assert IsTaken(s, w); }
  }

  // Waking thread w puts its entry at the tail.
  lemma WakeLinks(s: State, q: Tailq, w: int) returns (ids: seq<int>)
    requires QueueOk(s) && SlotsOk(s) && Links(s, q) && (w >= 0 ==> Blocked(s, w))
    ensures ids == (if w >= 0 then s.ready + [w] else s.ready) && Distinct(ids)
    ensures forall k :: 0 <= k < |ids| ==> IsTaken(s, ids[k])
    ensures w >= 0 ==> IsEntry(q, Get(s, w).serial)
    ensures IsList(WakeEntry(s, q, w), SerialsOf(s, ids)) && OthersKeep(q, SerialsOf(s, ids), WakeEntry(s, q, w))
  {
    hide IsList, InsertTail, OthersKeep, StaleAt;
    ids := if w >= 0 then s.ready + [w] else s.ready;
    WokenIds(s, w, ids);
    if w >= 0 {
      BlockedOff(s, w, s.ready);
      InsertTailIs(q, SerialsOf(s, s.ready), Get(s, w).serial);
      assert SerialsOf(s, ids) == SerialsOf(s, s.ready) + [Get(s, w).serial];
    } else {
      NothingMoved(q, SerialsOf(s, ids));
    }
  }

  lemma WithoutIn(l: seq<int>, k: int)
    requires 0 <= k < |l|
    ensures forall e :: e in Without(l, k) ==> e in l
  {
  }

  lemma TerminatedSerials(s: State, s': State, a: int, w: int, st: int, ids: seq<int>, k: int)
    requires Terminated(s, s', a, w, st) && Distinct(ids) && 0 <= k < |ids| && ids[k] == a
    requires ids == if w >= 0 then s.ready + [w] else s.ready
    ensures SerialsOf(s', s'.ready) == Without(SerialsOf(s, ids), k) && s'.count == s.count
  {
    RemoveIsWithout(ids, a, k);
    SerialsWithout(s, s', ids, k);
  }

  lemma ListEntry(q: Tailq, l: seq<int>, k: int)
    requires IsList(q, l) && 0 <= k < |l|
    ensures IsEntry(q, l[k])
  {
    assert LinkedAt(q, l, k);
  }

  lemma OthersChain(q: Tailq, l: seq<int>, q1: Tailq, l1: seq<int>, q': Tailq)
    requires OthersKeep(q, l, q1) && OthersKeep(q1, l1, q') && forall e :: e in l1 ==> e in l
    ensures OthersKeep(q, l, q')
  {
  }

  lemma TerminatedBlocked(s: State, s': State, a: int, w: int, st: int, ids: seq<int>, v: int)
    requires QueueOk(s) && SlotsOk(s) && Terminated(s, s', a, w, st) && Blocked(s', v)
    requires ids == (if w >= 0 then s.ready + [w] else s.ready) && forall k :: 0 <= k < |ids| ==> IsTaken(s, ids[k])
    ensures Blocked(s, v) && Get(s', v) == Get(s, v) && Get(s, v).serial !in SerialsOf(s, ids)
  {
    assert v != a && v != w;
    ReadyTaken(s);
    BlockedOff(s, v, ids);
  }

  // A thread in the queue terminates and its waiter becomes ready.
  lemma TerminateLinks(s: State, q: Tailq, s': State, a: int, w: int, st: int, k: int)
    requires QueueOk(s) && SlotsOk(s) && Links(s, q) && Terminated(s, s', a, w, st) && (w >= 0 ==> Blocked(s, w) && w != a)
    requires 0 <= k < |s.ready| && s.ready[k] == a
    ensures w >= 0 ==> IsEntry(q, Get(s, w).serial)
    ensures IsEntry(q, Get(s, a).serial) && Links(s', RemoveEntry(WakeEntry(s, q, w), Get(s, a).serial))
  {
    hide IsList, RemoveEntry, WakeEntry, StaleAt, SlotsOk, QueueOk, Links, OthersKeep, Without, Terminated;
    var ids := WakeLinks(s, q, w);
    var q1, l := WakeEntry(s, q, w), SerialsOf(s, ids);
    ListEntry(q1, l, k);
    RemoveIs(q1, l, k);
    var q' := RemoveEntry(q1, l[k]);
    TerminatedSerials(s, s', a, w, st, ids, k);
    forall v | Blocked(s', v) ensures Blocked(s, v) && Get(s', v) == Get(s, v) && Get(s, v).serial !in l {
      TerminatedBlocked(s, s', a, w, st, ids, v);
    }
    WithoutIn(l, k);
    OthersChain(q, l, q1, Without(l, k), q');
    LinksFrom(s, q, s', q', l);
  }

  lemma StaleStays(s: State, q: Tailq, a: int, l: seq<int>, q1: Tailq)
    requires Links(s, q) && Blocked(s, a) && OthersKeep(q, l, q1) && Get(s, a).serial !in l
    ensures IsEntry(q, Get(s, a).serial)
    ensures Stale(q1, l, Get(s, a).serial) && q1.next[Get(s, a).serial] == Get(s, a).follower
  {
    hide IsList;
    assert StaleAt(s, q, a);
  }

  lemma ListFirst(q: Tailq, l: seq<int>)
    requires IsList(q, l) && |l| > 0
    ensures q.first == l[0]
  {
  }

  lemma {:induction false} RemoveAbsent(q: seq<int>, i: int)
    requires i !in q
    ensures Remove(q, i) == q
  {
  }

  // A blocked thread is cancelled by its follower: the second removal of its
  // entry leaves the list as it is.
  lemma CancelBlockedLinks(s: State, q: Tailq, s': State, a: int, w: int, st: int)
    requires QueueOk(s) && SlotsOk(s) && Links(s, q) && Terminated(s, s', a, w, st) && (w >= 0 ==> Blocked(s, w) && w != a)
    requires Blocked(s, a) && |s.ready| > 0 && Get(s, a).follower == Get(s, s.ready[0]).serial
    ensures w >= 0 ==> IsEntry(q, Get(s, w).serial)
    ensures IsEntry(q, Get(s, a).serial) && Links(s', RemoveEntry(WakeEntry(s, q, w), Get(s, a).serial))
  {
    hide IsList, RemoveEntry, WakeEntry, SlotsOk, StaleAt, Stale, QueueOk, OthersKeep;
    var ids := WakeLinks(s, q, w);
    var q1, l := WakeEntry(s, q, w), SerialsOf(s, ids);
    assert a !in ids by { ReadyTaken(s); }
    BlockedOff(s, a, ids);
    StaleStays(s, q, a, l, q1);
    ListFirst(q1, l);
    assert l[0] == Get(s, s.ready[0]).serial;
    StaleRemoveIff(q1, l, Get(s, a).serial);
    RemoveAbsent(ids, a);
    assert SerialsOf(s', ids) == l;
    forall v | Blocked(s', v) ensures Blocked(s, v) && Get(s', v) == Get(s, v) && Get(s, v).serial !in l {
      TerminatedBlocked(s, s', a, w, st, ids, v);
    }
    LinksFrom(s, q, s', q1, l);
  }

  lemma ResumeLinks(s: State, q: Tailq, ret: int)
    requires Core(s) && |s.ready| > 0 && Links(s, q)
    ensures Resume(s, ret).Next? && Links(Resume(s, ret).s, q)
  {
    hide IsList;
    var s', h := Resume(s, ret).s, s.ready[0];
    ReadyTaken(s);
    var j := Get(s, h).pending;
    if j >= 0 {
      assert WaitsFor(s, h, j);
      assert j !in s.ready;
    }
    assert SerialsOf(s', s'.ready) == SerialsOf(s, s.ready);
    LinksSame(s, s', q);
  }

  // ---------------------------------------------------------------- every call

  lemma GrowList(q: Tailq, l: seq<int>)
    requires IsList(q, l)
    ensures IsList(Grow(q), l)
  {
    forall k | 0 <= k < |l| ensures LinkedAt(Grow(q), l, k) {
      assert LinkedAt(q, l, k);
    }
  }

  lemma GrowStale(s: State, q: Tailq, s': State, q': Tailq, w: int, l: seq<int>)
    requires Inv(s) && Links(s, q) && Blocked(s, w) && Get(s', w) == Get(s, w) && l == SerialsOf(s, s.ready)
    requires OthersKeep(Grow(q), l + [s.count], q')
    ensures StaleAt(s', q', w)
  {
    hide IsList;
    ReadyTaken(s);
    BlockedOff(s, w, s.ready);
    assert StaleAt(s, q, w);
  }

  lemma CreateLinks(s: State, q: Tailq)
    requires Inv(s) && Links(s, q)
    ensures CreateOp(s).Next? && Links(CreateOp(s).s, InsertTail(Grow(q), s.count))
  {
    hide IsList, InsertTail, StaleAt;
    CreateWorks(s);
    var s', e, q0 := CreateOp(s).s, s.count, Grow(q);
    var l := SerialsOf(s, s.ready);
    ReadyTaken(s);
    GrowList(q, l);
    assert e !in l;
    InsertTailIs(q0, l, e);
    assert SerialsOf(s', s'.ready) == l + [e];
    forall w | Blocked(s', w) ensures StaleAt(s', InsertTail(q0, e), w) {
      GrowStale(s, q, s', InsertTail(q0, e), w, l);
    }
  }

  lemma BlockStale(s: State, q: Tailq, l: seq<int>, q1: Tailq, id: int)
    requires Inv(s) && JoinBlocks(s, id) && |s.ready| > 1 && l == SerialsOf(s, s.ready) && IsList(q, l) && OthersKeep(q, Without(l, 0), q1)
    requires |q.next| == |q.prev| == s.count
    ensures StaleAt(BlockOn(s, id), q1, s.ready[0])
  {
    assert LinkedAt(q, l, 0) && LinkedAt(q, l, 1);
    ReadyTaken(s);
    assert l[0] !in Without(l, 0);
  }

  lemma StillStale(s: State, q: Tailq, l: seq<int>, q1: Tailq, s1: State, w: int)
    requires QueueOk(s) && SlotsOk(s) && Links(s, q) && Blocked(s, w)
    requires |l| > 0 && l == SerialsOf(s, s.ready) && OthersKeep(q, Without(l, 0), q1)
    requires Get(s1, w).serial == Get(s, w).serial && Get(s1, w).follower == Get(s, w).follower
    ensures StaleAt(s1, q1, w)
  {
    hide IsList;
    ReadyTaken(s);
    BlockedOff(s, w, s.ready);
    assert StaleAt(s, q, w);
  }

  // The entry of the thread that blocks keeps its place before its follower.
  lemma BlockLinks(s: State, q: Tailq, id: int)
    requires Inv(s) && Links(s, q) && JoinBlocks(s, id) && |s.ready| > 1
    ensures IsEntry(q, Get(s, s.ready[0]).serial) && Links(BlockOn(s, id), RemoveEntry(q, Get(s, s.ready[0]).serial))
  {
    hide IsList, RemoveEntry, StaleAt;
    var s1, l := BlockOn(s, id), SerialsOf(s, s.ready);
    ReadyTaken(s);
    ListEntry(q, l, 0);
    var q1 := RemoveEntry(q, l[0]);
    RemoveIs(q, l, 0);
    assert SerialsOf(s1, s1.ready) == Without(l, 0);
    BlockStale(s, q, l, q1, id);
    forall w | Blocked(s1, w) ensures StaleAt(s1, q1, w) {
      if w != s.ready[0] { StillStale(s, q, l, q1, s1, w); }
    }
  }

  lemma ListOnce(q: Tailq, l: seq<int>)
    requires IsList(q, l)
    ensures Distinct(l)
  {
  }

  lemma OthersWider(q: Tailq, l: seq<int>, q': Tailq, m: seq<int>)
    requires OthersKeep(q, l, q') && forall e :: e in l ==> e in m
    ensures OthersKeep(q, m, q')
  {
  }

  lemma YieldLinks(s: State, q: Tailq)
    requires Inv(s) && Links(s, q) && |s.ready| > 1
    ensures var s1, h := s.(ready := s.ready[1..] + [s.ready[0]]), Get(s, s.ready[0]).serial;
      IsEntry(q, h) && Links(s1, InsertTail(RemoveEntry(q, h), h))
  {
    hide IsList, RemoveEntry, InsertTail, StaleAt, OthersKeep;
    var s1, l := s.(ready := s.ready[1..] + [s.ready[0]]), SerialsOf(s, s.ready);
    ReadyTaken(s);
    ListEntry(q, l, 0);
    RemoveIs(q, l, 0);
    var q1, l1 := RemoveEntry(q, l[0]), Without(l, 0);
    ListOnce(q, l);
    assert l1 == l[1..] && l[0] !in l1;
    InsertTailIs(q1, l1, l[0]);
    assert SerialsOf(s1, s1.ready) == l1 + [l[0]];
    OthersWider(q, l1, q1, l);
    OthersWider(q1, l1 + [l[0]], InsertTail(q1, l[0]), l);
    OthersChain(q, l, q1, l, InsertTail(q1, l[0]));
    forall w | Blocked(s, w) ensures Get(s, w).serial !in l {
      BlockedOff(s, w, s.ready);
    }
    LinksFrom(s, q, s1, InsertTail(q1, l[0]), l);
  }

  lemma UnblockedCancel(s1: State, q: Tailq, s': State, id: int)
    requires QueueOk(s1) && SlotsOk(s1) && Links(s1, q) && Terminated(s1, s', id, Get(s1, id).blockId, CANCELLED)
    requires Get(s1, id).blockId >= 0 ==> Blocked(s1, Get(s1, id).blockId) && Get(s1, id).blockId != id
    requires |s1.ready| > 0 && (Blocked(s1, id) ==> Get(s1, id).follower == Get(s1, s1.ready[0]).serial)
    ensures var w := Get(s1, id).blockId;
      && (w >= 0 ==> IsEntry(q, Get(s1, w).serial)) && IsEntry(q, Get(s1, id).serial)
      && Links(s', RemoveEntry(WakeEntry(s1, q, w), Get(s1, id).serial))
  {
    hide IsList, RemoveEntry, StaleAt, WakeEntry;
    var w := Get(s1, id).blockId;
    if Blocked(s1, id) {
      CancelBlockedLinks(s1, q, s', id, w, CANCELLED);
    } else {
      assert Alive(s1, id) <==> id in s1.ready;
      var k :| 0 <= k < |s1.ready| && s1.ready[k] == id;
      TerminateLinks(s1, q, s', id, w, CANCELLED, k);
    }
  }

  lemma RefusedLinks(s: State, q: Tailq, id: int)
    requires Inv(s) && Links(s, q) && CancelRefused(s, id)
    ensures CancelOp(s, id) == Next(s, -1, Nothing) && LinkStep(s, q, Cancel(id)) == q
  {
  }

  lemma SerialKept(s: State, s1: State, id: int, w: int)
    requires Unblocked(s, s1, id)
    ensures Get(s1, w).serial == Get(s, w).serial && Get(s1, id).serial == Get(s, id).serial
    ensures Blocked(s1, id) <==> Blocked(s, id)
    ensures Get(s1, id).follower == Get(s, id).follower && s1.ready == s.ready
    ensures Live(s, id)
    ensures |s.ready| > 0 ==> Get(s1, s1.ready[0]).serial == Get(s, s.ready[0]).serial
    ensures Alive(s1, id) <==> Alive(s, id)
  {
  }

  lemma {:induction false} CancelLinkIs(s: State, s1: State, q: Tailq, id: int)
    requires Inv(s) && Links(s, q) && !CancelRefused(s, id) && s1 == Unblock(s, 0, id) && Unblocked(s, s1, id)
    ensures var w := Get(s1, id).blockId;
      && (w >= 0 ==> IsEntry(q, Get(s1, w).serial)) && IsEntry(q, Get(s1, id).serial)
      && LinkStep(s, q, Cancel(id)) == RemoveEntry(WakeEntry(s1, q, w), Get(s1, id).serial)
  {
    hide Unblock, RemoveEntry, IsList;
    var w := Get(s1, id).blockId;
    SerialKept(s, s1, id, w);
    HasEntry(s, w);
    HasEntry(s, id);
  }

  lemma UnblockedLinks(s: State, s1: State, q: Tailq, id: int)
    requires Links(s, q) && Unblocked(s, s1, id)
    ensures Links(s1, q)
  {
    hide IsList;
    assert SerialsOf(s1, s1.ready) == SerialsOf(s, s.ready);
    LinksSame(s, s1, q);
  }

  lemma CancelLinks(s: State, q: Tailq, id: int)
    requires Inv(s) && Links(s, q) && Legal(s, Cancel(id))
    ensures CancelOp(s, id).Next? && Links(CancelOp(s, id).s, LinkStep(s, q, Cancel(id)))
  {
    hide IsList, RemoveEntry, Terminated, Unblocked, StaleAt, CancelOp, WakeEntry, JoinsBut, NobodyNames, LinkStep, Unblock;
    CancelKeeps(s, id);
    if CancelRefused(s, id) {
      RefusedLinks(s, q, id);
    } else {
      var s1, s' := Unblock(s, 0, id), CancelOp(s, id).s;
      CancelParts(s, s1, id);
      UnblockedLinks(s, s1, q, id);
      CancelLinkIs(s, s1, q, id);
      SerialKept(s, s1, id, Get(s1, id).blockId);
      UnblockedCancel(s1, q, s', id);
    }
  }

  lemma ExitLinks(s: State, q: Tailq, status: int)
    requires Inv(s) && Links(s, q)
    ensures Links(Finish(s, status), LinkStep(s, q, Exit(status)))
  {
    hide IsList, InsertTail, RemoveEntry, Terminated, StaleAt, Finish, JoinsBut;
    var h := s.ready[0];
    var w := Get(s, h).blockId;
    FinishKeeps(s, status);
    HeadAlive(s);
    if w >= 0 {
      JoinsButSelf(s, h);
      OwnWaiter(s, h);
    }
    TerminateLinks(s, q, Finish(s, status), h, w, status % 256, 0);
  }

  lemma LinksEmpty(s: State, q: Tailq)
    requires Links(s, q) && |s.ready| == 0
    ensures q.first == -1
  {
  }

  lemma StepIs(s: State, q: Tailq, op: Op)
    requires Inv(s) && Links(s, q)
    ensures IsEntry(q, Get(s, s.ready[0]).serial) && |q.next| == |q.prev| == s.count
    ensures op.Create? ==> LinkStep(s, q, op) == InsertTail(Grow(q), s.count)
    ensures op.Join? ==> LinkStep(s, q, op) == if JoinBlocks(s, op.id) then RemoveEntry(q, Get(s, s.ready[0]).serial) else q
    ensures op.Yield? ==>
      var h := Get(s, s.ready[0]).serial;
      LinkStep(s, q, op) == if |s.ready| == 1 then q else InsertTail(RemoveEntry(q, h), h)
  {
    HasEntry(s, s.ready[0]);
  }

  lemma CollectLinks(s: State, q: Tailq, id: int)
    requires Inv(s) && Links(s, q) && !JoinRefused(s, id) && Get(s, id).state >= 0
    ensures Links(FreeSlot(s, id), q)
  {
    hide IsList;
    ReadyTaken(s);
    assert SerialsOf(FreeSlot(s, id), s.ready) == SerialsOf(s, s.ready);
    LinksSame(s, FreeSlot(s, id), q);
  }

  // The queue of the model is the linked list of the code: every legal call does
  // to the list what it does to the queue, and the process ends on the empty list.
  lemma StepLinks(s: State, q: Tailq, op: Op)
    requires Inv(s) && Links(s, q) && Legal(s, op)
    ensures op.Join? && JoinBlocks(s, op.id) ==> |s.ready| > 1
    ensures Step(s, op).Next? ==> Links(Step(s, op).s, LinkStep(s, q, op))
    ensures Step(s, op).ProcessEnds? ==> LinkStep(s, q, op).first == -1
  {
    hide Core, Links, Legal, LinkStep, Finish, BlockOn, CreateOp, CancelOp, Resume;
    StepKeeps(s, op);
    match op
    case Create => CreateLinks(s, q); StepIs(s, q, op);
    case Cancel(id) => CancelLinks(s, q, id);
    case Join(id) =>
      StepIs(s, q, op);
      if JoinBlocks(s, id) {
        BlockLinks(s, q, id);
        JoinBlockWorks(s, id);
        ResumeLinks(BlockOn(s, id), RemoveEntry(q, Get(s, s.ready[0]).serial), 0);
      } else if !JoinRefused(s, id) {
        CollectLinks(s, q, id);
      }
    case Yield =>
      StepIs(s, q, op);
      if |s.ready| > 1 {
        YieldLinks(s, q);
        YieldCore(s, s.(ready := s.ready[1..] + [s.ready[0]]));
        var h := Get(s, s.ready[0]).serial;
        ResumeLinks(s.(ready := s.ready[1..] + [s.ready[0]]), InsertTail(RemoveEntry(q, h), h), 0);
      }
    case Exit(status) =>
      ExitLinks(s, q, status);
      FinishKeeps(s, status);
      StepIs(s, q, op);
      if |Finish(s, status).ready| > 0 {
        ResumeLinks(Finish(s, status), LinkStep(s, q, op), 0);
      } else {
        LinksEmpty(Finish(s, status), LinkStep(s, q, op));
      }
  }

  // ---------------------------------------------------------------- cancels outside the legal ones

  lemma SerialsSuffix(s: State, s': State, ids: seq<int>, k: int)
    requires 0 <= k <= |ids| && forall i :: Get(s', i).serial == Get(s, i).serial
    ensures SerialsOf(s', ids[k..]) == SerialsOf(s, ids)[k..]
  {
  }

  lemma {:induction false} UnblockedIs(s: State, s1: State, id: int)
    requires CancelsBlocked(s, id) && s1 == Unblock(s, 0, id)
    ensures Unblocked(s, s1, id)
  {
    UnblockWorks(s, id);
  }

  lemma {:induction false} SerialsPrefix(s: State, s1: State, id: int, ids: seq<int>, f: int)
    requires CancelsBlocked(s, id) && s1 == Unblock(s, 0, id)
    requires ids == (if Get(s1, id).blockId >= 0 then s1.ready + [Get(s1, id).blockId] else s1.ready)
    requires forall a :: 0 <= a < |ids| ==> Get(s1, ids[a]).serial != f
    ensures f !in SerialsOf(s, s.ready)
  {
    UnblockedIs(s, s1, id);
    forall k | 0 <= k < |s.ready| ensures Get(s, s.ready[k]).serial != f {
      assert ids[k] == s1.ready[k];
    }
  }

  lemma BlockedKept(s: State, s1: State, id: int, w: int)
    requires Unblocked(s, s1, id) && w == Get(s1, id).blockId && (Get(s, id).blockId >= 0 ==> Blocked(s, Get(s, id).blockId) && Get(s, id).blockId != id)
    ensures w >= 0 ==> Blocked(s1, w) && w != id
    ensures Blocked(s, id) ==> w == Get(s, id).blockId
  {
  }

  lemma {:induction false} UnblockedFacts(s: State, s1: State, q: Tailq, id: int)
    requires CancelsBlocked(s, id) && Links(s, q) && s1 == Unblock(s, 0, id)
    ensures Inv(s) && Unblocked(s, s1, id) && QueueOk(s1) && SlotsOk(s1) && Links(s1, q) && Blocked(s1, id)
    ensures Get(s1, id).follower == Get(s, id).follower && Get(s1, id).blockId >= -1
    ensures Get(s1, id).blockId >= 0 ==> Blocked(s1, Get(s1, id).blockId) && Get(s1, id).blockId != id
  {
    hide IsList, Unblock, ChainsOk, WaitsFor, Links;
    UnblockedIs(s, s1, id);
    UnblockedParts(s, s1, id);
    UnblockedLinks(s, s1, q, id);
    SerialKept(s, s1, id, id);
    if Get(s, id).blockId >= 0 { NamedBlocked(s, id); }
    BlockedKept(s, s1, id, Get(s1, id).blockId);
  }

  lemma StaleNext(q: Tailq, l: seq<int>, e: int)
    requires Stale(q, l, e)
    ensures q.next[e] >= 0
  {
  }

  lemma StaleSetup(s: State, q: Tailq, id: int) returns (ids: seq<int>)
    requires CancelsBlocked(s, id) && Links(s, q)
    ensures var s1 := Unblock(s, 0, id); var w, e := Get(s1, id).blockId, Get(s1, id).serial;
      && ids == (if w >= 0 then s1.ready + [w] else s1.ready) && id !in ids
      && (w >= 0 ==> Blocked(s1, w) && w != id && IsEntry(q, Get(s1, w).serial)) && Blocked(s1, id)
      && IsEntry(q, e) && LinkStep(s, q, Cancel(id)) == RemoveEntry(WakeEntry(s1, q, w), e)
      && IsList(WakeEntry(s1, q, w), SerialsOf(s1, ids)) && Stale(WakeEntry(s1, q, w), SerialsOf(s1, ids), e)
      && WakeEntry(s1, q, w).next[e] == Get(s1, id).follower == Get(s, id).follower && Get(s1, id).follower >= 0
  {
    hide IsList, RemoveEntry, StaleAt, WakeEntry, LinkStep, Unblock, Unblocked, Inv, CancelOp, Stale, QueueOk, SlotsOk, Links;
    var s1 := Unblock(s, 0, id);
    UnblockedFacts(s, s1, q, id);
    CancelLinkIs(s, s1, q, id);
    var w := Get(s1, id).blockId;
    ids := WakeLinks(s1, q, w);
    var q1, l := WakeEntry(s1, q, w), SerialsOf(s1, ids);
    assert id !in ids by { ReadyTaken(s1); }
    BlockedOff(s1, id, ids);
    StaleStays(s1, q, id, l, q1);
    StaleNext(q1, l, Get(s1, id).serial);
  }

  // The outcome of such a cancel, with the queue after the wake-up as ids.
  lemma {:induction false} UnlinkIs(s: State, s1: State, id: int, ids: seq<int>)
    requires CancelsBlocked(s, id) && s1 == Unblock(s, 0, id) && Blocked(s1, id) && Get(s1, id).follower >= 0
    requires var w := Get(s1, id).blockId; (w >= 0 ==> Blocked(s1, w) && w != id) && ids == (if w >= 0 then s1.ready + [w] else s1.ready)
    requires id !in ids
    ensures var k := Position(Wake(s1, Get(s1, id).blockId), Get(s1, id).follower, 0);
      if k < |ids| then
        && CancelOp(s, id).Next? && CancelOp(s, id).s.ready == ids[k..] && Get(s1, ids[k]).serial == Get(s1, id).follower
        && forall i :: Get(CancelOp(s, id).s, i).serial == Get(s1, i).serial
      else
        CancelOp(s, id).Breaks? && forall a :: 0 <= a < |ids| ==> Get(s1, ids[a]).serial != Get(s1, id).follower
  {
    hide Inv, Unblock;
    var s2 := Wake(s1, Get(s1, id).blockId);
    assert s2.ready == ids && forall i :: Get(s2, i).serial == Get(s1, i).serial;
  }

  // Also when a blocked thread is cancelled by another than its follower, the
  // model's queue is what the macro makes of the list; and when the model gives
  // up, the list is headed by an entry that was not in it.
  lemma CancelListIs(s: State, q: Tailq, id: int)
    requires CancelsBlocked(s, id) && Links(s, q)
    ensures CancelOp(s, id).Next? ==>
      IsList(LinkStep(s, q, Cancel(id)), SerialsOf(CancelOp(s, id).s, CancelOp(s, id).s.ready))
    ensures CancelOp(s, id).Breaks? ==>
      LinkStep(s, q, Cancel(id)).first == Get(s, id).follower && Get(s, id).follower !in SerialsOf(s, s.ready)
    ensures CancelOp(s, id).Next? || CancelOp(s, id).Breaks?
  {
    hide IsList, RemoveEntry, StaleAt, WakeEntry, LinkStep, Unblock, Unblocked, CancelOp, Stale, Links, Wake, Core, Distinct;
    var s1 := Unblock(s, 0, id);
    var ids := StaleSetup(s, q, id);
    var q1, l, e := WakeEntry(s1, q, Get(s1, id).blockId), SerialsOf(s1, ids), Get(s1, id).serial;
    StaleRemoveIff(q1, l, e);
    UnlinkIs(s, s1, id, ids);
    var f := Get(s1, id).follower;
    var k := Position(Wake(s1, Get(s1, id).blockId), f, 0);
    if k < |ids| {
      StaleRemoveDrops(q1, l, e, k);
      SerialsSuffix(s1, CancelOp(s, id).s, ids, k);
    } else {
      SerialsPrefix(s, s1, id, ids, f);
    }
  }

  // ---------------------------------------------------------------- runs

  // The list at the start: the entry of the main thread only.
  function InitList(): Tailq { InsertTail(Tailq(-1, First, [-1], [First]), 0) }

  lemma OneEntry()
    ensures IsList(InitList(), [0]) && |InitList().next| == |InitList().prev| == 1
  {
    assert LinkedAt(InitList(), [0], 0);
  }

  lemma NoneBlocked()
    ensures forall w :: !Blocked(Init(), w)
  {
    forall w ensures !Blocked(Init(), w) {
      if IsTaken(Init(), w) { assert w == 0; }
    }
  }

  lemma InitLinks()
    ensures Links(Init(), InitList())
  {
    hide IsList;
    assert SerialsOf(Init(), Init().ready) == [0];
    OneEntry();
    NoneBlocked();
  }

  lemma LinksSizes(s: State, q: Tailq)
    requires Links(s, q)
    ensures |q.next| == |q.prev| == s.count
  {
  }

  // The list after a run.
  ghost function ListAfter(s: State, q: Tailq, ops: seq<Op>): Tailq
    requires Inv(s) && LegalRun(s, ops) && Links(s, q)
    decreases |ops|
  {
    if |ops| == 0 then q else
    StepKeeps(s, ops[0]);
    StepLinks(s, q, ops[0]);
    match Step(s, ops[0])
    case Next(s', _, _) => ListAfter(s', LinkStep(s, q, ops[0]), ops[1..])
    case _ => LinkStep(s, q, ops[0])
  }

  // Over any legal run the macros keep the list equal to the queue of the model;
  // when the process has ended the list is empty.
  lemma {:induction false} RunLinks(s: State, q: Tailq, ops: seq<Op>)
    requires Inv(s) && LegalRun(s, ops) && Links(s, q)
    ensures
      match After(s, ops)
      case Some(s') => Links(s', ListAfter(s, q, ops))
      case None => ListAfter(s, q, ops).first == -1
    decreases |ops|
  {
    hide Core, Links, Legal, LinkStep, Step;
    if |ops| > 0 {
      LinksSizes(s, q);
      StepKeeps(s, ops[0]);
      StepLinks(s, q, ops[0]);
      if Step(s, ops[0]).Next? {
        RunLinks(Step(s, ops[0]).s, LinkStep(s, q, ops[0]), ops[1..]);
      }
    }
  }
}
