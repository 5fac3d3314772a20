// Slots that can never be reused: which terminated threads can still be joined.
module WutLeaks {
  import opened Common
  import opened WutState
  import opened WutInvariant
  import opened WutSteps
  import opened WutRuns
  import opened WutCancel

  // Thread j has terminated and names a waiter that does not wait for it.
  ghost predicate Leaked(s: State, j: int) {
    && IsTaken(s, j) && !Live(s, j) && Get(s, j).blockId >= 0
    && Get(s, Get(s, j).blockId).pending != j
  }

  // ---------------------------------------------------------------- one call

  lemma LiveNotLeaked(s: State, j: int)
    requires IsTaken(s, j) ==> Live(s, j) || Get(s, j).blockId < 0
    ensures !Leaked(s, j)
  {
  }

  // Slot j is as it was, and the same thread waits for it.
  ghost predicate SameWaiter(s: State, s': State, j: int) {
    && IsTaken(s, j) && IsTaken(s', j) && Get(s', j) == Get(s, j)
    && (Get(s, j).blockId >= 0 ==> (Get(s', Get(s, j).blockId).pending == j <==> Get(s, Get(s, j).blockId).pending == j))
  }

  lemma SameLeak(s: State, s': State, j: int)
    requires SameWaiter(s, s', j)
    ensures Leaked(s', j) <==> Leaked(s, j)
  {
  }

  lemma DeadPending(s: State, k: int)
    requires JoinsOk(s) && !Live(s, k)
    ensures Get(s, k).pending == -1
  {
  }

  lemma ResumeLeak(s: State, ret: int, j: int)
    requires Core(s) && |s.ready| > 0
    ensures Resume(s, ret).Next? && (Leaked(Resume(s, ret).s, j) <==> Leaked(s, j))
  {
    hide ChainsOk;
    var h := s.ready[0];
    assert Alive(s, h);
    var k := Get(s, h).pending;
    if k >= 0 {
      assert WaitsFor(s, h, k);
      DeadPending(s, k);
      var s' := Resume(s, ret).s;
      assert Get(s', h) == Get(s, h).(pending := -1) && !IsTaken(s', k) && SameBut(s, s', h, k);
      if k != j && j != h && IsTaken(s, j) {
        assert SameWaiter(s, s', j);
        SameLeak(s, s', j);
      }
    }
  }

  lemma CreateLeak(s: State, j: int)
    requires Inv(s)
    ensures CreateOp(s).Next? && (Leaked(CreateOp(s).s, j) <==> Leaked(s, j))
  {
    hide Core;
    CreateWorks(s);
    var id := MinAvailable(Roomy(s).threads, 0);
    if IsTaken(s, j) { SameLeak(s, CreateOp(s).s, j); }
  }

  lemma YieldLeak(s: State, j: int)
    requires Inv(s)
    ensures YieldOp(s).Next? && (Leaked(YieldOp(s).s, j) <==> Leaked(s, j))
  {
    hide Core, Resume;
    if |s.ready| > 1 {
      var s1 := s.(ready := s.ready[1..] + [s.ready[0]]);
      YieldCore(s, s1);
      ResumeLeak(s1, 0, j);
    }
  }

  lemma CollectLeak(s: State, id: int, j: int)
    requires Inv(s) && !JoinRefused(s, id) && Get(s, id).state >= 0
    ensures Leaked(FreeSlot(s, id), j) <==> Leaked(s, j)
  {
    hide ChainsOk, QueueOk;
    DeadPending(s, id);
    var s' := FreeSlot(s, id);
    assert SameBut(s, s', id, id) && !IsTaken(s', id);
    if j != id && IsTaken(s, j) { SameLeak(s, s', j); }
  }

  lemma BlockLeak(s: State, id: int, j: int)
    requires Inv(s) && JoinBlocks(s, id)
    ensures Leaked(BlockOn(s, id), j) <==> Leaked(s, j)
  {
    BlockOnIs(s, id);
    var h, s1 := s.ready[0], BlockOn(s, id);
    hide Inv, BlockOn;
    if IsTaken(s, j) && j != h && j != id { SameLeak(s, s1, j); }
  }

  lemma JoinLeak(s: State, id: int, j: int)
    requires Inv(s) && Legal(s, Join(id)) && (JoinBlocks(s, id) ==> |s.ready| > 1)
    ensures JoinOp(s, id).Next? && (Leaked(JoinOp(s, id).s, j) <==> Leaked(s, j))
  {
    hide Core, Resume, Leaked;
    if JoinBlocks(s, id) {
      JoinBlockWorks(s, id);
      BlockLeak(s, id, j);
      ResumeLeak(BlockOn(s, id), 0, j);
    } else if !JoinRefused(s, id) {
      CollectLeak(s, id, j);
    }
  }

  // A thread that terminates leaves its waiter waiting for it; another slot is
  // leaked if the terminated thread was to collect it.
  lemma TerminateLeak(s: State, s': State, a: int, w: int, st: int, j: int)
    requires JoinsBut(s, a) && Terminated(s, s', a, w, st) && a >= 0
    ensures Leaked(s', j) <==> Leaked(s, j) || (IsTaken(s, j) && !Live(s, j) && Get(s, j).blockId == a && Get(s, a).pending == j)
  {
    if w >= 0 { OwnWaiter(s, a); }
    hide WaitsFor;
    if j != a && IsTaken(s, j) && !Live(s, j) && Get(s, j).blockId != a { SameLeak(s, s', j); }
  }

  lemma ExitLeak(s: State, status: int, j: int)
    requires Inv(s) && ExitOp(s, status).Next?
    ensures Leaked(ExitOp(s, status).s, j) <==> Leaked(s, j)
  {
    hide ChainsOk, QueueOk, Resume, Finish, Leaked;
    var h := s.ready[0];
    HeadAlive(s);
    JoinsButSelf(s, h);
    FinishKeeps(s, status);
    TerminateLeak(s, Finish(s, status), h, Get(s, h).blockId, status % 256, j);
    ResumeLeak(Finish(s, status), 0, j);
  }

  lemma WokenIs(s: State, id: int, j: int)
    requires Inv(s) && !CancelRefused(s, id) && Live(s, id)
    ensures Woken(s, id, j) <==> IsTaken(s, j) && !Live(s, j) && Get(s, j).blockId == id && Get(s, id).pending == j
  {
    HeadAlive(s);
    if Get(s, id).pending >= 0 { assert WaitsFor(s, id, Get(s, id).pending); }
  }

  lemma UnblockedLeak(s: State, s1: State, id: int, j: int)
    requires Inv(s) && Unblocked(s, s1, id)
    ensures Leaked(s1, j) <==> Leaked(s, j)
    ensures !Live(s, j) ==> (IsTaken(s1, j) <==> IsTaken(s, j)) && Get(s1, j) == Get(s, j) && !Live(s1, j)
    ensures Live(s, j) ==> Live(s1, j)
    ensures Get(s1, id) == Get(s, id)
  {
    hide Core;
    if IsTaken(s, j) && !Live(s, j) { SameLeak(s, s1, j); }
  }

  lemma NotWoken(s: State, id: int, j: int)
    requires Inv(s) && CancelRefused(s, id)
    ensures !Woken(s, id, j)
  {
    HeadAlive(s);
  }

  lemma CancelLeak(s: State, id: int, j: int)
    requires Inv(s) && Legal(s, Cancel(id))
    ensures CancelOp(s, id).Next? && (Leaked(CancelOp(s, id).s, j) <==> Leaked(s, j) || Woken(s, id, j))
  {
    hide ChainsOk, QueueOk, Leaked, Unblock, CancelOp;
    CancelKeeps(s, id);
    if CancelRefused(s, id) {
      NotWoken(s, id, j);
    } else {
      var s1 := Unblock(s, 0, id);
      UnblockedJoins(s, s1, id);
      UnblockedLeak(s, s1, id, j);
      TerminateLeak(s1, CancelOp(s, id).s, id, Get(s1, id).blockId, CANCELLED, j);
      WokenIs(s, id, j);
    }
  }

  // A legal call leaks the slot of j exactly if it cancels the thread that j has
  // woken before that thread has run; no call mends a leak.
  lemma LeakStep(s: State, op: Op, j: int)
    requires Inv(s) && Legal(s, op)
    ensures op.Join? && JoinBlocks(s, op.id) ==> |s.ready| > 1
    ensures Step(s, op).Next? ==> (Leaked(Step(s, op).s, j) <==> Leaked(s, j) || (op.Cancel? && Woken(s, op.id, j)))
  {
    hide Core, Leaked, Woken;
    StepKeeps(s, op);
    match op
    case Create => CreateLeak(s, j);
    case Cancel(id) => CancelLeak(s, id, j);
    case Join(id) => JoinLeak(s, id, j);
    case Yield => YieldLeak(s, j);
    case Exit(status) => if ExitOp(s, status).Next? { ExitLeak(s, status, j); }
  }

  // ---------------------------------------------------------------- runs

  lemma {:induction false} LeakedStays(s: State, ops: seq<Op>, j: int)
    requires Inv(s) && LegalRun(s, ops) && Leaked(s, j) && After(s, ops).Some?
    ensures Leaked(After(s, ops).value, j)
    decreases |ops|
  {
    hide Core, Legal, Step, Leaked, Woken;
    if |ops| > 0 {
      StepKeeps(s, ops[0]);
      LeakStep(s, ops[0], j);
      LeakedStays(Step(s, ops[0]).s, ops[1..], j);
    }
  }

  function Yields(k: nat): (r: seq<Op>)
    ensures |r| == k && forall i :: 0 <= i < k ==> r[i] == Yield
  {
    seq(k, _ => Yield)
  }

  // One turn of the queue brings a woken thread to the head, where it collects.
  lemma TurnCollects(s: State, w: int, j: int, k: nat)
    requires Inv(s) && Woken(s, w, j) && 0 < k < |s.ready| && s.ready[k] == w
    ensures YieldOp(s).Next? && Inv(YieldOp(s).s)
    ensures if k == 1 then !IsTaken(YieldOp(s).s, j)
      else Woken(YieldOp(s).s, w, j) && k - 1 < |YieldOp(s).s.ready| && YieldOp(s).s.ready[k - 1] == w
  {
    WokenFacts(s, w, j);
    YieldKeeps(s);
    var s1 := s.(ready := s.ready[1..] + [s.ready[0]]);
    YieldCore(s, s1);
    assert s1.ready[k - 1] == w;
    assert k > 1 ==> s1.ready[0] != w by { assert s1.ready[0] == s.ready[1]; }
    hide Core, Resume, Collects;
    ResumeSpares(s1, w, j, 0);
  }

  lemma {:induction false} YieldsCollect(s: State, w: int, j: int, k: nat)
    requires Inv(s) && Woken(s, w, j) && 0 < k < |s.ready| && s.ready[k] == w
    ensures LegalRun(s, Yields(k)) && After(s, Yields(k)).Some? && !IsTaken(After(s, Yields(k)).value, j)
    decreases k
  {
    hide Inv, Woken, YieldOp;
    TurnCollects(s, w, j, k);
    StepKeeps(s, Yield);
    var s' := YieldOp(s).s;
    assert Yields(k)[0] == Yield && Yields(k)[1..] == Yields(k - 1);
    if k == 1 {
      assert Yields(1)[1..] == [];
    } else {
      YieldsCollect(s', w, j, k - 1);
    }
    OneMore(s, Yields(k), s');
  }

  // Some legal run frees slot j.
  ghost predicate Reusable(s: State, j: int)
    requires Inv(s)
  {
    exists ops :: LegalRun(s, ops) && After(s, ops).Some? && !IsTaken(After(s, ops).value, j)
  }

  lemma WaiterQueued(s: State, j: int) returns (k: nat)
    requires Inv(s) && IsTaken(s, j) && !Live(s, j) && Get(s, j).blockId >= 0 && !Leaked(s, j)
    ensures 0 < k < |s.ready| && s.ready[k] == Get(s, j).blockId && Woken(s, s.ready[k], j)
  {
    hide ChainsOk;
    var w := Get(s, j).blockId;
    assert j >= 0 && Get(s, w).pending == j;
    assert WaitsFor(s, w, j);
    assert w in s.ready;
    k :| 0 <= k < |s.ready| && s.ready[k] == w;
  }

  lemma {:induction false} JoinCollects(s: State, j: int)
    requires Inv(s) && IsTaken(s, j) && !Live(s, j) && Get(s, j).blockId < 0
    ensures LegalRun(s, [Join(j)]) && After(s, [Join(j)]).Some? && !IsTaken(After(s, [Join(j)]).value, j)
  {
    HeadAlive(s);
    assert Get(s, s.ready[0]).id == s.ready[0];
    assert Legal(s, Join(j)) && JoinOp(s, j).Next?;
    JoinKeeps(s, j);
    StepKeeps(s, Join(j));
    var s' := JoinOp(s, j).s;
    assert [Join(j)][1..] == [];
    OneMore(s, [Join(j)], s');
  }

  // The slot of a terminated thread can still be reused exactly if the thread
  // names no waiter or one that has yet to fetch its status.
  lemma {:induction false} ReusableIff(s: State, j: int)
    requires Inv(s) && IsTaken(s, j) && !Live(s, j)
    ensures Reusable(s, j) <==> Get(s, j).blockId < 0 || Get(s, Get(s, j).blockId).pending == j
  {
    hide Inv, LegalRun, After;
    if Leaked(s, j) {
      forall ops | LegalRun(s, ops) && After(s, ops).Some? ensures IsTaken(After(s, ops).value, j) {
        LeakedStays(s, ops, j);
      }
    } else if Get(s, j).blockId < 0 {
      JoinCollects(s, j);
    } else {
      var k := WaiterQueued(s, j);
      YieldsCollect(s, s.ready[k], j, k);
    }
  }

  // ---------------------------------------------------------------- a run

  // Thread 1 has terminated with status 0 and woken thread 0; q is the queue.
  function Done(main: Tcb, q: seq<int>): State {
    State([Taken(main), Taken(Tcb(1, 0, 0, -1, 1, -1)), NewThread(2)] + seq(7, _ => Empty), 3, q)
  }

  lemma ExitWakesMain()
    ensures ExitOp(Waiting([1, 2]), 0) == Next(Done(Tcb(0, -1, ALIVE, 1, 0, 1), [2, 0]), 0, Nothing)
  {
    var s, s1 := Waiting([1, 2]), Done(Tcb(0, -1, ALIVE, 1, 0, 1), [2, 0]);
    assert Get(s, 1) == Tcb(1, 0, ALIVE, -1, 1, -1) && Get(s, 0) == Tcb(0, -1, BLOCKED, 1, 0, 1);
    RemoveHead([1, 2, 0]);
    assert [1, 2] + [0] == [1, 2, 0] && [1, 2, 0][1..] == [2, 0];
    assert Finish(s, 0).ready == [2, 0];
    assert Finish(s, 0).threads == s1.threads;
    assert Get(s1, 2).pending == -1;
  }

  lemma CancelWoken()
    ensures CancelOp(Done(Tcb(0, -1, ALIVE, 1, 0, 1), [2, 0]), 0) == Next(Done(Tcb(0, -1, CANCELLED, -1, 0, 1), [2]), 0, Nothing)
    ensures Legal(Done(Tcb(0, -1, ALIVE, 1, 0, 1), [2, 0]), Cancel(0))
  {
    var s, s1 := Done(Tcb(0, -1, ALIVE, 1, 0, 1), [2, 0]), Done(Tcb(0, -1, CANCELLED, -1, 0, 1), [2]);
    assert Get(s, 2) == Tcb(2, -1, ALIVE, -1, 2, -1) && Get(s, 0) == Tcb(0, -1, ALIVE, 1, 0, 1);
    assert Unblock(s, 0, 0) == Unblock(s, 1, 0) == Unblock(s, 2, 0) == s;
    assert Remove([2, 0], 0) == [2] by { assert [2, 0][1..] == [0]; RemoveHead([0]); }
    assert Put(s.(ready := [2]), 0, Tcb(0, -1, CANCELLED, -1, 0, 1)).threads == s1.threads;
  }

  lemma LostSlot(s: State)
    requires Inv(s) && s == Done(Tcb(0, -1, CANCELLED, -1, 0, 1), [2])
    ensures IsTaken(s, 1) && Get(s, 1).state == 0 && !Reusable(s, 1) && JoinRefused(s, 1)
  {
    hide Core, Reusable;
    assert Get(s, 1) == Tcb(1, 0, 0, -1, 1, -1) && Get(s, 0).pending == -1;
    ReusableIff(s, 1);
  }

  lemma {:induction false} NoCalls(s: State)
    requires Inv(s)
    ensures LegalRun(s, []) && After(s, []) == Some(s)
  {
  }

  // Main creates threads 1 and 2 and joins 1; 1 exits and wakes main; 2 cancels
  // main before it has run.  From then on nobody can join thread 1.
  lemma SlotIsLost() returns (ops: seq<Op>, s: State)
    ensures Inv(Init()) && LegalRun(Init(), ops) && After(Init(), ops) == Some(s) && Inv(s)
    ensures IsTaken(s, 1) && Get(s, 1).state == 0 && !Reusable(s, 1)
    ensures |s.ready| > 0 && JoinRefused(s, 1)
  {
    hide Inv, LeadsTo, CreateOp, JoinOp, ExitOp, CancelOp, Reusable, JoinRefused, LegalRun, After;
    var s1, s2 := Done(Tcb(0, -1, ALIVE, 1, 0, 1), [2, 0]), Done(Tcb(0, -1, CANCELLED, -1, 0, 1), [2]);
    ops, s := [Create, Create, Join(1), Exit(0), Cancel(0)], s2;
    CreateTwice();
    JoinThenYield();
    ExitWakesMain();
    CancelWoken();
    assert ops[1..] == [Create, Join(1), Exit(0), Cancel(0)] && ops[1..][1..] == [Join(1), Exit(0), Cancel(0)];
    assert ops[1..][1..][1..] == [Exit(0), Cancel(0)] && [Exit(0), Cancel(0)][1..] == [Cancel(0)] && [Cancel(0)][1..] == [];
    StepKeeps(Init(), Create);
    StepKeeps(Two(), Create);
    StepKeeps(Three(), Join(1));
    StepKeeps(Waiting([1, 2]), Exit(0));
    StepKeeps(s1, Cancel(0));
    NoCalls(s2);
    OneMore(s1, [Cancel(0)], s2);
    OneMore(Waiting([1, 2]), [Exit(0), Cancel(0)], s1);
    OneMore(Three(), [Join(1), Exit(0), Cancel(0)], Waiting([1, 2]));
    OneMore(Two(), [Create, Join(1), Exit(0), Cancel(0)], Three());
    OneMore(Init(), ops, Two());
    LostSlot(s);
  }
}
