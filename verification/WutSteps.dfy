// Every legal call keeps the scheduler invariant; none gets stuck.
module WutSteps {
  import opened Common
  import opened WutState
  import opened WutInvariant

  // s' differs from s at most in the slots of a and b.
  ghost predicate SameBut(s: State, s': State, a: int, b: int) {
    forall w :: w != a && w != b ==> Get(s', w) == Get(s, w) && (IsTaken(s', w) <==> IsTaken(s, w))
  }

  // ---------------------------------------------------------------- resuming

  ghost predicate Resumed(s: State, s': State, h: int, j: int) {
    && Alive(s, h) && IsTaken(s, j) && !Live(s, j) && j != h
    && SameBut(s, s', h, j) && !IsTaken(s', j) && IsTaken(s', h) && Get(s', h) == Get(s, h).(pending := -1)
  }

  lemma ResumeQueue(s: State, s': State, h: int, j: int)
    requires QueueOk(s) && SlotsOk(s) && Resumed(s, s', h, j) && s'.ready == s.ready && s'.count == s.count
    ensures QueueOk(s') && SlotsOk(s')
  {
    forall i ensures Alive(s', i) <==> i in s'.ready {
      assert Alive(s, i) <==> i in s.ready;
    }
    forall i | IsTaken(s', i)
      ensures IsTaken(s, i) && Get(s', i).serial == Get(s, i).serial && Get(s', i).id == Get(s, i).id && Get(s', i).state == Get(s, i).state
    {
    }
  }

  lemma ResumeChains(s: State, s': State, h: int, j: int)
    requires ChainsOk(s) && Resumed(s, s', h, j)
    ensures ChainsOk(s')
  {
    ChainsKept(s, s');
  }

  lemma ResumeJoins(s: State, s': State, h: int, j: int)
    requires Core(s) && Alive(s, h) && Get(s, h).pending == j && j >= 0 && WaitsFor(s, h, j)
    requires SameBut(s, s', h, j) && !IsTaken(s', j) && IsTaken(s', h) && Get(s', h) == Get(s, h).(pending := -1)
    ensures JoinsOk(s')
  {
    forall w | IsTaken(s', w) && Get(s', w).pending >= 0 ensures WaitsFor(s', w, Get(s', w).pending) {
      assert WaitsFor(s, w, Get(s, w).pending);
    }
    forall k | Live(s', k) && Get(s', k).blockId >= 0
      ensures IsTaken(s', Get(s', k).blockId) && Get(s', Get(s', k).blockId).pending == k
    {
      assert Live(s, k);
      assert WaitsFor(s, Get(s, k).blockId, k);
    }
  }

  // After a switch the thread at the head takes up a pending join.
  lemma ResumeKeeps(s: State, ret: int)
    requires Core(s) && |s.ready| > 0 && |s.threads| > 0
    ensures Resume(s, ret).Next? && Inv(Resume(s, ret).s)
    ensures Resume(s, ret).s.ready == s.ready && Resume(s, ret).s.count == s.count && |Resume(s, ret).s.threads| == |s.threads|
  {
    var h := s.ready[0];
    assert Alive(s, h);
    var j := Get(s, h).pending;
    if j >= 0 {
      assert WaitsFor(s, h, j);
      var s' := Resume(s, ret).s;
      assert SameBut(s, s', h, j) && IsTaken(s', h);
      assert Get(s', h) == Get(s, h).(pending := -1) && !IsTaken(s', j);
      hide WaitsFor, JoinsOk, ChainsOk, QueueOk, SlotsOk, Resume;
      ResumeJoins(s, s', h, j);
      ResumeQueue(s, s', h, j);
      ResumeChains(s, s', h, j);
    }
  }

  // ---------------------------------------------------------------- creating

  ghost function Serials(s: State, n: nat): set<nat>
    requires n <= |s.threads|
  {
    if n == 0 then {} else Serials(s, n - 1) + {Get(s, n - 1).serial}
  }

  lemma {:induction false} SerialOf(s: State, n: nat, x: nat) returns (i: int)
    requires n <= |s.threads| && x in Serials(s, n)
    ensures 0 <= i < n && Get(s, i).serial == x
  {
    if x == Get(s, n - 1).serial { i := n - 1; } else { i := SerialOf(s, n - 1, x); }
  }

  lemma {:induction false} SerialsSize(s: State, n: nat)
    requires SlotsOk(s) && n <= |s.threads| && forall i :: 0 <= i < n ==> s.threads[i].Taken?
    ensures |Serials(s, n)| == n
  {
    if n > 0 {
      SerialsSize(s, n - 1);
      if Get(s, n - 1).serial in Serials(s, n - 1) {
        var i := SerialOf(s, n - 1, Get(s, n - 1).serial);
        assert IsTaken(s, i) && IsTaken(s, n - 1);
      }
    }
  }

  // The table is full only if as many threads have been created as it has slots.
  lemma FullMeansCount(s: State)
    requires SlotsOk(s) && forall i :: 0 <= i < |s.threads| ==> s.threads[i].Taken?
    ensures |s.threads| <= s.count
  {
    SerialsSize(s, |s.threads|);
    forall x | x in Serials(s, |s.threads|) ensures x < s.count {
      var i := SerialOf(s, |s.threads|, x);
      assert IsTaken(s, i);
    }
    SubsetSize(Serials(s, |s.threads|), Below(s.count));
  }

  function Roomy(s: State): State { if s.count >= |s.threads| then Expand(s) else s }

  // wut_create never fails; it takes the least free id and leaves every other
  // thread as it is.
  lemma CreateWorks(s: State)
    requires Inv(s)
    ensures var id := MinAvailable(Roomy(s).threads, 0);
      && CreateOp(s).Next? && CreateOp(s).ret == id && CreateOp(s).event == Nothing
      && 0 <= id < |Roomy(s).threads| && !IsTaken(s, id)
      && (forall k :: 0 <= k < id ==> IsTaken(s, k))
      && CreateOp(s).s.ready == s.ready + [id] && CreateOp(s).s.count == s.count + 1
      && Get(CreateOp(s).s, id) == Tcb(id, -1, ALIVE, -1, s.count, -1) && IsTaken(CreateOp(s).s, id)
      && SameBut(s, CreateOp(s).s, id, id)
      && |CreateOp(s).s.threads| == if s.count >= |s.threads| then 2 * |s.threads| else |s.threads|
  {
    var s1 := Roomy(s);
    var id := MinAvailable(s1.threads, 0);
    if s.count >= |s.threads| {
      assert s1.threads[|s.threads|] == Empty;
    } else if id == -1 {
      FullMeansCount(s);
    }
    assert forall k :: 0 <= k < id ==> s1.threads[k].Taken?;
  }

  ghost predicate Created(s: State, s': State, id: int) {
    && Inv(s) && !IsTaken(s, id) && IsTaken(s', id) && SameBut(s, s', id, id)
    && Get(s', id) == Tcb(id, -1, ALIVE, -1, s.count, -1)
    && s'.ready == s.ready + [id] && s'.count == s.count + 1
  }

  lemma CreateQueue(s: State, s': State, id: int)
    requires Created(s, s', id)
    ensures QueueOk(s') && SlotsOk(s')
  {
    assert id !in s.ready;
    forall i ensures Alive(s', i) <==> i in s'.ready {
      assert Alive(s, i) <==> i in s.ready;
      if i == id {
        assert s'.ready[|s.ready|] == id;
      } else {
        assert i in s'.ready <==> i in s.ready;
      }
    }
  }

  lemma CreateJoins(s: State, s': State, id: int)
    requires Created(s, s', id)
    ensures JoinsOk(s')
  {
    forall w | IsTaken(s', w) && Get(s', w).pending >= 0 ensures WaitsFor(s', w, Get(s', w).pending) {
      assert WaitsFor(s, w, Get(s, w).pending);
    }
  }

  lemma CreateKeeps(s: State)
    requires Inv(s)
    ensures CreateOp(s).Next? && Inv(CreateOp(s).s)
  {
    CreateWorks(s);
    var s', id := CreateOp(s).s, MinAvailable(Roomy(s).threads, 0);
    CreateQueue(s, s', id);
    CreateJoins(s, s', id);
    ChainsKept(s, s');
  }

  // ---------------------------------------------------------------- leaving

  // Thread a terminates with status st and its waiter w, if any (else -1),
  // becomes ready.
  ghost predicate Terminated(s: State, s': State, a: int, w: int, st: int) {
    && Live(s, a) && IsTaken(s', a) && 0 <= st < 256
    && Get(s', a) == Get(s, a).(state := st, pending := Get(s', a).pending) && Get(s', a).pending == -1
    && w == Get(s, a).blockId
    && SameBut(s, s', a, w)
    && (w >= 0 ==> IsTaken(s', w) && Get(s', w) == Get(s, w).(state := ALIVE))
    && s'.ready == Remove(if w >= 0 then s.ready + [w] else s.ready, a)
    && s'.count == s.count && |s'.threads| == |s.threads|
  }

  // The join invariant, leaving open what thread a itself waits for.
  ghost predicate JoinsBut(s: State, a: int) {
    && (forall w :: w != a && IsTaken(s, w) && Get(s, w).pending >= 0 ==> WaitsFor(s, w, Get(s, w).pending))
    && (forall w :: Blocked(s, w) ==> Get(s, w).pending >= 0)
    && (forall j :: Live(s, j) && Get(s, j).blockId >= 0 ==> IsTaken(s, Get(s, j).blockId) && Get(s, Get(s, j).blockId).pending == j)
    && (forall j :: IsTaken(s, j) ==> Get(s, j).blockId >= -1 && Get(s, j).pending >= -1)
    && Get(s, a).pending != a
  }

  ghost predicate NobodyNames(s: State, a: int) {
    forall k :: Live(s, k) ==> Get(s, k).blockId != a
  }

  lemma JoinsButSelf(s: State, a: int)
    requires JoinsOk(s) && IsTaken(s, a)
    ensures JoinsBut(s, a)
  {
    if Get(s, a).pending >= 0 { assert WaitsFor(s, a, Get(s, a).pending); }
  }

  lemma WaiterBlocked(s: State, a: int, k: int)
    requires JoinsBut(s, a) && Live(s, k) && Get(s, k).blockId >= 0 && Get(s, k).blockId != a
    ensures Blocked(s, Get(s, k).blockId) && Get(s, Get(s, k).blockId).pending == k && Get(s, k).blockId != k
  {
    assert WaitsFor(s, Get(s, k).blockId, k);
  }

  lemma OwnWaiter(s: State, a: int)
    requires JoinsBut(s, a) && Live(s, a) && Get(s, a).blockId >= 0
    ensures Blocked(s, Get(s, a).blockId) && Get(s, Get(s, a).blockId).pending == a && Get(s, a).blockId != a
  {
    WaiterBlocked(s, a, a);
  }

  lemma TerminatedSlots(s: State, s': State, a: int, w: int, st: int)
    requires SlotsOk(s) && Terminated(s, s', a, w, st) && (w >= 0 ==> Blocked(s, w) && w != a)
    ensures SlotsOk(s')
  {
    forall i | IsTaken(s', i)
      ensures IsTaken(s, i) && Get(s', i).serial == Get(s, i).serial && Get(s', i).id == Get(s, i).id
    {
    }
  }

  lemma TerminatedQueue(s: State, s': State, a: int, w: int, st: int)
    requires QueueOk(s) && Terminated(s, s', a, w, st) && (w >= 0 ==> Blocked(s, w) && w != a)
    ensures QueueOk(s')
  {
    var q := if w >= 0 then s.ready + [w] else s.ready;
    if w >= 0 {
      assert Alive(s, w) <==> w in s.ready;
      assert q[|s.ready|] == w;
      assert forall i :: i in q <==> i in s.ready || i == w;
    }
    assert Distinct(q);
    RemoveFrom(q, a);
    forall i ensures Alive(s', i) <==> i in s'.ready {
      assert Alive(s, i) <==> i in s.ready;
    }
  }

  lemma TerminatedPending(s: State, s': State, a: int, w: int, st: int, x: int)
    requires JoinsBut(s, a) && Terminated(s, s', a, w, st) && IsTaken(s', x) && Get(s', x).pending >= 0
    ensures WaitsFor(s', x, Get(s', x).pending)
  {
    if w >= 0 { OwnWaiter(s, a); }
    assert WaitsFor(s, x, Get(s, x).pending);
  }

  lemma TerminatedWaiter(s: State, s': State, a: int, w: int, st: int, k: int)
    requires JoinsBut(s, a) && Terminated(s, s', a, w, st) && Live(s', k) && Get(s', k).blockId >= 0
    requires NobodyNames(s, a)
    ensures IsTaken(s', Get(s', k).blockId) && Get(s', Get(s', k).blockId).pending == k
  {
    if w >= 0 { OwnWaiter(s, a); }
    assert Live(s, k);
    WaiterBlocked(s, a, k);
  }

  lemma TerminatedJoins(s: State, s': State, a: int, w: int, st: int)
    requires JoinsBut(s, a) && Terminated(s, s', a, w, st)
    requires NobodyNames(s, a)
    ensures JoinsOk(s')
  {
    hide WaitsFor;
    forall x | IsTaken(s', x) && Get(s', x).pending >= 0 ensures WaitsFor(s', x, Get(s', x).pending) {
      TerminatedPending(s, s', a, w, st, x);
    }
    forall k | Live(s', k) && Get(s', k).blockId >= 0
      ensures IsTaken(s', Get(s', k).blockId) && Get(s', Get(s', k).blockId).pending == k
    {
      TerminatedWaiter(s, s', a, w, st, k);
    }
    if w >= 0 { OwnWaiter(s, a); }
  }

  lemma TerminatedChains(s: State, s': State, a: int, w: int, st: int)
    requires JoinsBut(s, a) && ChainsOk(s) && Terminated(s, s', a, w, st)
    ensures ChainsOk(s')
  {
    if w >= 0 { OwnWaiter(s, a); }
    forall x | x != a && Live(s, x) && Get(s, x).pending == a && Blocked(s, x) ensures x == w {
      assert WaitsFor(s, x, a);
    }
    ChainsAround(s, a, s');
  }

  // ---------------------------------------------------------------- exit

  lemma FinishKeeps(s: State, status: int)
    requires Inv(s)
    ensures var h := s.ready[0]; Terminated(s, Finish(s, status), h, Get(s, h).blockId, status % 256)
    ensures Core(Finish(s, status))
  {
    var h := s.ready[0];
    assert Alive(s, h);
    var w := Get(s, h).blockId;
    JoinsButSelf(s, h);
    if w >= 0 { OwnWaiter(s, h); }
    assert NobodyNames(s, h);
    var s' := Finish(s, status);
    hide WaitsFor, JoinsOk, JoinsBut, NobodyNames, ChainsOk, QueueOk, SlotsOk, Finish;
    TerminatedQueue(s, s', h, w, status % 256);
    TerminatedSlots(s, s', h, w, status % 256);
    TerminatedJoins(s, s', h, w, status % 256);
    TerminatedChains(s, s', h, w, status % 256);
  }

  lemma ExitKeeps(s: State, status: int)
    requires Inv(s)
    ensures ExitOp(s, status).Next? ==> Inv(ExitOp(s, status).s)
  {
    FinishKeeps(s, status);
    if |Finish(s, status).ready| > 0 { ResumeKeeps(Finish(s, status), 0); }
  }

  // The scheduler ends the process exactly when the last live thread leaves.
  lemma ExitEndsOnlyAtTheEnd(s: State, status: int)
    requires Inv(s)
    ensures ExitOp(s, status).ProcessEnds? <==> forall i :: Live(s, i) ==> i == s.ready[0]
  {
    var h, s' := s.ready[0], Finish(s, status);
    assert Alive(s, h);
    FinishKeeps(s, status);
    if |s'.ready| == 0 {
      assert forall x :: Alive(s', x) <==> x in s'.ready;
      forall i | Live(s, i) ensures i == h {
        if i != h {
          assert Live(s', i);
          var r, n: nat :| Leads(s', i, r, n);
          LeadsEnd(s', i, r, n);
        }
      }
    } else {
      assert Alive(s', s'.ready[0]);
      assert Live(s, s'.ready[0]);
    }
  }

  // ---------------------------------------------------------------- cancel

  lemma {:induction false} UnblockNone(s: State, i: nat, id: int)
    requires i <= |s.ready| && forall k :: i <= k < |s.ready| ==> Get(s, s.ready[k]).blockId != id
    ensures Unblock(s, i, id) == s
    decreases |s.ready| - i
  {
    if i < |s.ready| { UnblockNone(s, i + 1, id); }
  }

  lemma {:induction false} UnblockOne(s: State, i: nat, id: int, j: int)
    requires i <= |s.ready| && j in s.ready[i..] && Get(s, j).blockId == id
    requires forall k :: i <= k < |s.ready| && Get(s, s.ready[k]).blockId == id ==> s.ready[k] == j
    ensures Unblock(s, i, id) == Put(s, j, Get(s, j).(blockId := -1))
    decreases |s.ready| - i
  {
    if Get(s, s.ready[i]).blockId != id {
      assert s.ready[i..] == [s.ready[i]] + s.ready[i + 1..];
      UnblockOne(s, i + 1, id, j);
    }
  }

  // After the search nobody names the cancelled thread as its waiter.
  lemma {:induction false} UnblockWorks(s: State, id: int)
    requires Inv(s) && Live(s, id) && (Blocked(s, id) ==> Alive(s, Get(s, id).pending))
    ensures var s1 := Unblock(s, 0, id); var j := Get(s, id).pending;
      && s1 == (if Blocked(s, id) then Put(s, j, Get(s, j).(blockId := -1)) else s)
      && (Blocked(s, id) ==> WaitsFor(s, id, j))
  {
    var j := Get(s, id).pending;
    if j >= 0 { assert WaitsFor(s, id, j); }
    forall k | 0 <= k < |s.ready| && Get(s, s.ready[k]).blockId == id ensures Blocked(s, id) && s.ready[k] == j {
      assert Alive(s, s.ready[k]);
      assert WaitsFor(s, id, s.ready[k]);
    }
    if Blocked(s, id) {
      assert j in s.ready;
      assert s.ready[0..] == s.ready;
      UnblockOne(s, 0, id, j);
    } else {
      UnblockNone(s, 0, id);
    }
  }

  ghost predicate Unblocked(s: State, s1: State, id: int) {
    && Live(s, id) && s1.ready == s.ready && s1.count == s.count && |s1.threads| == |s.threads|
    && if Blocked(s, id) then
      var j := Get(s, id).pending;
      Alive(s, j) && j != id && IsTaken(s1, j) && Get(s1, j) == Get(s, j).(blockId := -1) && SameBut(s, s1, j, j) && Get(s, j).blockId == id
    else s1 == s
  }

  lemma UnblockedParts(s: State, s1: State, id: int)
    requires QueueOk(s) && SlotsOk(s) && ChainsOk(s) && Unblocked(s, s1, id)
    ensures QueueOk(s1) && SlotsOk(s1) && ChainsOk(s1)
  {
    forall i ensures Alive(s1, i) <==> i in s1.ready {
      assert Alive(s, i) <==> i in s.ready;
    }
    forall i | IsTaken(s1, i)
      ensures IsTaken(s, i) && Get(s1, i).serial == Get(s, i).serial && Get(s1, i).id == Get(s, i).id && Get(s1, i).state == Get(s, i).state
    {
    }
    ChainsKept(s, s1);
  }

  lemma UnblockedPending(s: State, s1: State, id: int, w: int)
    requires JoinsOk(s) && Unblocked(s, s1, id) && w != id && IsTaken(s1, w) && Get(s1, w).pending >= 0
    ensures WaitsFor(s1, w, Get(s1, w).pending)
  {
    assert WaitsFor(s, w, Get(s, w).pending);
  }

  lemma UnblockedJoins(s: State, s1: State, id: int)
    requires JoinsOk(s) && Unblocked(s, s1, id)
    ensures JoinsBut(s1, id) && NobodyNames(s1, id)
  {
    JoinsButSelf(s, id);
    forall k | Live(s1, k) ensures Get(s1, k).blockId != id {
      if Get(s, k).blockId == id { assert WaitsFor(s, id, k); }
    }
    hide WaitsFor;
    forall w | w != id && IsTaken(s1, w) && Get(s1, w).pending >= 0 ensures WaitsFor(s1, w, Get(s1, w).pending) {
      UnblockedPending(s, s1, id, w);
    }
  }

  lemma {:induction false} CancelParts(s: State, s1: State, id: int)
    requires Inv(s) && Legal(s, Cancel(id)) && !CancelRefused(s, id) && s1 == Unblock(s, 0, id)
    ensures Unblocked(s, s1, id) && QueueOk(s1) && SlotsOk(s1) && ChainsOk(s1) && JoinsBut(s1, id) && NobodyNames(s1, id)
    ensures Live(s1, id) && (Get(s1, id).blockId >= 0 ==> Blocked(s1, Get(s1, id).blockId) && Get(s1, id).blockId != id)
    ensures var h := s.ready[0];
      |s1.ready| > 0 && s1.ready[0] == h && h != id && Alive(s1, h) && Get(s1, h).pending == -1 && |s1.threads| > 0
  {
    assert Alive(s, s.ready[0]);
    UnblockWorks(s, id);
    assert Unblocked(s, s1, id);
    UnblockedParts(s, s1, id);
    UnblockedJoins(s, s1, id);
    if Get(s1, id).blockId >= 0 { OwnWaiter(s1, id); }
  }

  // Of a legal target only the entry goes that is in the queue.
  lemma {:induction false} UnlinkRemoves(s: State, s1: State, id: int)
    requires Inv(s) && Legal(s, Cancel(id)) && !CancelRefused(s, id) && Unblocked(s, s1, id)
    requires Get(s1, id).blockId >= 0 ==> Blocked(s1, Get(s1, id).blockId) && Get(s1, id).blockId != id
    ensures var s2 := Wake(s1, Get(s1, id).blockId); Unlink(s2, id) == Some(Remove(s2.ready, id))
  {
    var w, h := Get(s1, id).blockId, s.ready[0];
    var s2 := Wake(s1, w);
    assert Alive(s, h) && (Alive(s, id) <==> id in s.ready);
    if Blocked(s, id) {
      assert w >= 0 ==> w != h;
      assert id !in s2.ready && Blocked(s2, id) && Get(s2, id).follower == Get(s, id).follower;
      assert s2.ready[0] == h && Get(s2, h).serial == Get(s, h).serial;
      assert s2.ready[0..] == s2.ready;
    }
  }

  lemma {:induction false} CancelTerminates(s1: State, id: int, s': State)
    requires Live(s1, id) && SlotsOk(s1)
    requires Get(s1, id).blockId >= 0 ==> IsTaken(s1, Get(s1, id).blockId) && Get(s1, id).blockId != id
    requires var s2 := Wake(s1, Get(s1, id).blockId);
      var s3 := s2.(ready := Remove(s2.ready, id));
      s' == Put(s3, id, Get(s3, id).(state := CANCELLED, pending := -1))
    ensures Terminated(s1, s', id, Get(s1, id).blockId, CANCELLED)
  {
  }

  lemma {:induction false} CancelIs(s: State, s1: State, id: int)
    requires Inv(s) && Legal(s, Cancel(id)) && !CancelRefused(s, id) && s1 == Unblock(s, 0, id)
    requires Unblocked(s, s1, id) && Live(s1, id) && SlotsOk(s1)
    requires Get(s1, id).blockId >= 0 ==> Blocked(s1, Get(s1, id).blockId) && Get(s1, id).blockId != id
    ensures CancelOp(s, id).Next? && CancelOp(s, id).ret == 0 && CancelOp(s, id).event == Nothing
    ensures Terminated(s1, CancelOp(s, id).s, id, Get(s1, id).blockId, CANCELLED)
  {
    hide Core, Legal, Unblock, Unlink, Unblocked, Terminated, SlotsOk;
    UnlinkRemoves(s, s1, id);
    CancelTerminates(s1, id, CancelOp(s, id).s);
  }

  lemma CancelCore(s1: State, id: int, s': State, h: int)
    requires QueueOk(s1) && SlotsOk(s1) && ChainsOk(s1) && JoinsBut(s1, id) && NobodyNames(s1, id)
    requires Terminated(s1, s', id, Get(s1, id).blockId, CANCELLED)
    requires |s1.ready| > 0 && s1.ready[0] == h && h != id && Alive(s1, h) && Get(s1, h).pending == -1 && |s1.threads| > 0
    ensures Inv(s')
  {
    var w := Get(s1, id).blockId;
    if w >= 0 { OwnWaiter(s1, id); }
    assert s'.ready[0] == h;
    assert Get(s', h).pending == -1;
    hide WaitsFor, JoinsOk, JoinsBut, NobodyNames, ChainsOk, QueueOk, SlotsOk;
    TerminatedQueue(s1, s', id, w, CANCELLED);
    TerminatedSlots(s1, s', id, w, CANCELLED);
    TerminatedJoins(s1, s', id, w, CANCELLED);
    TerminatedChains(s1, s', id, w, CANCELLED);
  }

  lemma {:induction false} CancelKeeps(s: State, id: int)
    requires Inv(s) && Legal(s, Cancel(id))
    ensures CancelOp(s, id).Next? && Inv(CancelOp(s, id).s)
    ensures CancelRefused(s, id) ==> CancelOp(s, id) == Next(s, -1, Nothing)
    ensures !CancelRefused(s, id) ==>
      var s1 := Unblock(s, 0, id);
      Unblocked(s, s1, id) && Terminated(s1, CancelOp(s, id).s, id, Get(s1, id).blockId, CANCELLED)
  {
    if !CancelRefused(s, id) {
      var s1, h := Unblock(s, 0, id), s.ready[0];
      CancelParts(s, s1, id);
      CancelIs(s, s1, id);
      var s' := CancelOp(s, id).s;
      hide Unblock, CancelOp, Inv, QueueOk, SlotsOk, ChainsOk, JoinsBut, NobodyNames, WaitsFor, Unblocked, Terminated;
      CancelCore(s1, id, s', h);
    }
  }

  // ---------------------------------------------------------------- yield

  lemma RotateSlots(s: State, s': State)
    requires SlotsOk(s) && s'.count == s.count && forall i :: Get(s', i) == Get(s, i) && (IsTaken(s', i) <==> IsTaken(s, i))
    ensures SlotsOk(s')
  {
  }

  lemma RotateJoins(s: State, s': State)
    requires JoinsOk(s) && forall i :: Get(s', i) == Get(s, i) && (IsTaken(s', i) <==> IsTaken(s, i))
    ensures JoinsOk(s')
  {
    forall w | IsTaken(s', w) && Get(s', w).pending >= 0 ensures WaitsFor(s', w, Get(s', w).pending) {
      assert WaitsFor(s, w, Get(s, w).pending);
    }
  }

  lemma RotateRest(s: State, s': State)
    requires SlotsOk(s) && JoinsOk(s) && ChainsOk(s) && s'.threads == s.threads && s'.count == s.count
    ensures SlotsOk(s') && JoinsOk(s') && ChainsOk(s')
  {
    assert forall i :: Get(s', i) == Get(s, i) && (IsTaken(s', i) <==> IsTaken(s, i));
    RotateSlots(s, s');
    RotateJoins(s, s');
    hide SlotsOk, JoinsOk;
    ChainsKept(s, s');
  }

  lemma YieldCore(s: State, s': State)
    requires Inv(s) && s' == s.(ready := s.ready[1..] + [s.ready[0]])
    ensures Core(s')
  {
    assert s.ready == [s.ready[0]] + s.ready[1..];
    forall i ensures Alive(s', i) <==> i in s'.ready {
      assert Alive(s, i) <==> i in s.ready;
    }
    RotateRest(s, s');
  }

  lemma YieldKeeps(s: State)
    requires Inv(s)
    ensures YieldOp(s).Next? && Inv(YieldOp(s).s)
  {
    if |s.ready| > 1 {
      var s' := s.(ready := s.ready[1..] + [s.ready[0]]);
      YieldCore(s, s');
      ResumeKeeps(s', 0);
    }
  }

  // ---------------------------------------------------------------- join

  ghost predicate BlockedOn(s: State, s1: State, h: int, id: int) {
    && Alive(s, h) && Live(s, id) && h != id && Get(s, id).blockId == -1 && Get(s, h).pending == -1
    && IsTaken(s1, h) && Get(s1, h) == Get(s, h).(state := BLOCKED, pending := id, follower := Get(s1, h).follower)
    && IsTaken(s1, id) && Get(s1, id) == Get(s, id).(blockId := h)
    && SameBut(s, s1, h, id)
    && |s.ready| > 0 && s.ready[0] == h && s1.ready == s.ready[1..] && s1.count == s.count && |s1.threads| == |s.threads|
  }

  lemma BlockOnIs(s: State, id: int)
    requires Inv(s) && JoinBlocks(s, id)
    ensures BlockedOn(s, BlockOn(s, id), s.ready[0], id)
  {
    assert Alive(s, s.ready[0]);
  }

  lemma BlockQueue(s: State, s1: State, h: int, id: int)
    requires QueueOk(s) && SlotsOk(s) && BlockedOn(s, s1, h, id)
    ensures QueueOk(s1) && SlotsOk(s1)
  {
    assert s.ready == [h] + s.ready[1..];
    forall i ensures Alive(s1, i) <==> i in s1.ready {
      assert Alive(s, i) <==> i in s.ready;
    }
    forall i | IsTaken(s1, i) ensures IsTaken(s, i) && Get(s1, i).serial == Get(s, i).serial && Get(s1, i).id == Get(s, i).id {
    }
  }

  lemma BlockPending(s: State, s1: State, h: int, id: int, w: int)
    requires JoinsOk(s) && BlockedOn(s, s1, h, id) && IsTaken(s1, w) && Get(s1, w).pending >= 0
    ensures WaitsFor(s1, w, Get(s1, w).pending)
  {
    if w != h { assert WaitsFor(s, w, Get(s, w).pending); }
  }

  lemma BlockWaiter(s: State, s1: State, h: int, id: int, k: int)
    requires JoinsOk(s) && BlockedOn(s, s1, h, id) && Live(s1, k) && Get(s1, k).blockId >= 0
    ensures IsTaken(s1, Get(s1, k).blockId) && Get(s1, Get(s1, k).blockId).pending == k
  {
    assert Live(s, k);
  }

  lemma BlockJoins(s: State, s1: State, h: int, id: int)
    requires JoinsOk(s) && SlotsOk(s) && BlockedOn(s, s1, h, id)
    ensures JoinsOk(s1)
  {
    hide WaitsFor;
    assert h >= 0;
    forall w | IsTaken(s1, w) && Get(s1, w).pending >= 0 ensures WaitsFor(s1, w, Get(s1, w).pending) {
      BlockPending(s, s1, h, id, w);
    }
    forall k | Live(s1, k) && Get(s1, k).blockId >= 0
      ensures IsTaken(s1, Get(s1, k).blockId) && Get(s1, Get(s1, k).blockId).pending == k
    {
      BlockWaiter(s, s1, h, id, k);
    }
  }

  // A chain that does not end at the joining thread is still there.
  lemma {:induction false} LeadsPast(s: State, s1: State, h: int, id: int, w: int, r: int, n: nat)
    requires BlockedOn(s, s1, h, id) && Leads(s, w, r, n) && r != h
    ensures Leads(s1, w, r, n)
    decreases n
  {
    if n > 0 { LeadsPast(s, s1, h, id, Get(s, w).pending, r, n - 1); }
  }

  // A chain that ended at the joining thread goes on to its target.
  lemma {:induction false} LeadsThrough(s: State, s1: State, h: int, id: int, w: int, n: nat, r: int, m: nat)
    requires BlockedOn(s, s1, h, id) && Leads(s, w, h, n) && Leads(s1, id, r, m)
    ensures Leads(s1, w, r, n + 1 + m)
    decreases n
  {
    if n > 0 { LeadsThrough(s, s1, h, id, Get(s, w).pending, n - 1, r, m); }
  }

  lemma {:induction false} LeadsBack(s: State, s1: State, h: int, id: int, w: int, n: nat, r: int, m: nat)
    requires BlockedOn(s, s1, h, id) && Leads(s, w, h, n) && Leads(s1, w, r, m)
    ensures m >= n && Leads(s1, h, r, m - n)
    decreases n
  {
    if n > 0 { LeadsBack(s, s1, h, id, Get(s, w).pending, n - 1, r, m - 1); }
  }

  // A closed cycle leads nowhere.
  lemma {:induction false} CycleNeverEnds(s: State, s1: State, h: int, id: int, n: nat, r: int, m: nat)
    requires BlockedOn(s, s1, h, id) && Leads(s, id, h, n)
    ensures !Leads(s1, h, r, m)
    decreases m
  {
    if m > 0 && Leads(s1, h, r, m) {
      LeadsBack(s, s1, h, id, id, n, r, m - 1);
      CycleNeverEnds(s, s1, h, id, n, r, m - 1 - n);
    }
  }

  // The exact condition under which a blocking join is safe: afterwards every
  // thread still leads to a ready one if and only if the target did not itself
  // wait, directly or through others, for the joining thread.
  lemma JoinSafeIff(s: State, s1: State, h: int, id: int)
    requires ChainsOk(s) && BlockedOn(s, s1, h, id)
    ensures ChainsOk(s1) <==> !LeadsTo(s, id, h)
  {
    if LeadsTo(s, id, h) {
      var n: nat :| Leads(s, id, h, n);
      forall r, m: nat ensures !Leads(s1, h, r, m) {
        CycleNeverEnds(s, s1, h, id, n, r, m);
      }
      assert Live(s1, h);
      assert !EndsReady(s1, h);
      assert !ChainsOk(s1);
    } else {
      var r, m: nat :| Leads(s, id, r, m);
      LeadsPast(s, s1, h, id, id, r, m);
      forall w | Live(s1, w) ensures EndsReady(s1, w) {
        assert Live(s, w);
        var r', n': nat :| Leads(s, w, r', n');
        if r' == h {
          LeadsThrough(s, s1, h, id, w, n', r, m);
        } else {
          LeadsPast(s, s1, h, id, w, r', n');
        }
      }
    }
  }

  // A safe blocking join always finds a next thread to run.
  lemma JoinBlockWorks(s: State, id: int)
    requires Inv(s) && Legal(s, Join(id)) && JoinBlocks(s, id)
    ensures |s.ready| > 1 && Core(BlockOn(s, id))
  {
    var h, s1 := s.ready[0], BlockOn(s, id);
    BlockOnIs(s, id);
    BlockQueue(s, s1, h, id);
    BlockJoins(s, s1, h, id);
    JoinSafeIff(s, s1, h, id);
    var r, m: nat :| Leads(s1, id, r, m);
    LeadsEnd(s1, id, r, m);
    assert r in s1.ready;
  }

  lemma CollectQueue(s: State, s': State, id: int)
    requires QueueOk(s) && SameBut(s, s', id, id) && !IsTaken(s', id) && !Live(s, id) && s'.ready == s.ready
    ensures QueueOk(s')
  {
    forall i ensures Alive(s', i) <==> i in s'.ready {
      assert Alive(s, i) <==> i in s.ready;
    }
  }

  lemma CollectChains(s: State, s': State, id: int)
    requires ChainsOk(s) && SameBut(s, s', id, id) && !IsTaken(s', id) && !Live(s, id)
    ensures ChainsOk(s')
  {
    ChainsKept(s, s');
  }

  lemma CollectSlots(s: State, s': State, id: int)
    requires SlotsOk(s) && SameBut(s, s', id, id) && !IsTaken(s', id) && s'.count == s.count
    ensures SlotsOk(s')
  {
    forall i | IsTaken(s', i) ensures IsTaken(s, i) && Get(s', i) == Get(s, i) {
    }
  }

  lemma CollectJoins(s: State, s': State, id: int)
    requires JoinsOk(s) && SameBut(s, s', id, id) && !IsTaken(s', id) && IsTaken(s, id) && !Live(s, id) && Get(s, id).blockId < 0
    ensures JoinsOk(s')
  {
    forall w | IsTaken(s', w) && Get(s', w).pending >= 0 ensures WaitsFor(s', w, Get(s', w).pending) {
      assert WaitsFor(s, w, Get(s, w).pending);
    }
    forall k | Live(s', k) && Get(s', k).blockId >= 0
      ensures IsTaken(s', Get(s', k).blockId) && Get(s', Get(s', k).blockId).pending == k
    {
      assert Live(s, k);
      assert WaitsFor(s, Get(s, k).blockId, k);
    }
  }

  lemma CollectKeeps(s: State, id: int)
    requires Inv(s) && !JoinRefused(s, id) && Get(s, id).state >= 0
    ensures Inv(FreeSlot(s, id))
  {
    var s', h := FreeSlot(s, id), s.ready[0];
    assert Alive(s, h);
    assert SameBut(s, s', id, id) && !IsTaken(s', id) && !Live(s, id) && h != id;
    hide SlotsOk, JoinsOk, QueueOk, ChainsOk, FreeSlot;
    CollectQueue(s, s', id);
    CollectJoins(s, s', id);
    CollectSlots(s, s', id);
    CollectChains(s, s', id);
  }

  lemma JoinKeeps(s: State, id: int)
    requires Inv(s) && Legal(s, Join(id))
    ensures JoinBlocks(s, id) ==> |s.ready| > 1
    ensures JoinOp(s, id).Next? && Inv(JoinOp(s, id).s)
  {
    if JoinBlocks(s, id) {
      JoinBlockWorks(s, id);
      ResumeKeeps(BlockOn(s, id), 0);
    } else if !JoinRefused(s, id) {
      CollectKeeps(s, id);
    }
  }

  // ---------------------------------------------------------------- every call

  // Every legal call finds a next thread to run and keeps the invariant; the
  // process ends only when the last live thread exits.
  lemma StepKeeps(s: State, op: Op)
    requires Inv(s) && Legal(s, op)
    ensures op.Join? && JoinBlocks(s, op.id) ==> |s.ready| > 1
    ensures !Step(s, op).Breaks?
    ensures Step(s, op).Next? ==> Inv(Step(s, op).s)
    ensures Step(s, op).ProcessEnds? <==> op.Exit? && forall i :: Live(s, i) ==> i == s.ready[0]
  {
    match op
    case Create => CreateKeeps(s);
    case Cancel(id) => CancelKeeps(s, id);
    case Join(id) => JoinKeeps(s, id);
    case Yield => YieldKeeps(s);
    case Exit(status) =>
      ExitKeeps(s, status);
      ExitEndsOnlyAtTheEnd(s, status);
  }

  lemma OneThread(s: State)
    requires s.ready == [0] && s.count == 1 && |s.threads| > 0
    requires forall i :: IsTaken(s, i) <==> i == 0
    requires Get(s, 0) == Tcb(0, -1, ALIVE, -1, 0, -1)
    ensures Inv(s)
  {
    forall w | Live(s, w) ensures EndsReady(s, w) {
      assert Leads(s, w, w, 0);
    }
  }

  lemma InitInv()
    ensures Inv(Init()) && |Init().threads| == 10 && Init().ready == [0]
  {
    var s := Init();
    assert forall i :: IsTaken(s, i) <==> i == 0;
    assert Get(s, 0) == Tcb(0, -1, ALIVE, -1, 0, -1);
    OneThread(s);
  }
}
