// Cancelling a blocked thread: wut_cancel takes an entry off the ready queue
// that wut_join has already taken off.
module WutCancel {
  import opened Common
  import opened WutState
  import opened WutInvariant
  import opened WutSteps
  import opened WutRuns

  // The target is blocked, and the other conditions of a legal cancel hold.
  ghost predicate CancelsBlocked(s: State, id: int) {
    && Inv(s) && !CancelRefused(s, id) && Blocked(s, id) && Alive(s, Get(s, id).pending)
  }

  lemma NamedBlocked(s: State, id: int)
    requires Inv(s) && Live(s, id) && Get(s, id).blockId >= 0
    ensures Blocked(s, Get(s, id).blockId) && Get(s, id).blockId != id
  {
    assert WaitsFor(s, Get(s, id).blockId, id);
  }

  lemma HeadDrops(s: State, id: int)
    requires CancelsBlocked(s, id) && CancelOp(s, id).Next? && Get(s, id).follower != Get(s, s.ready[0]).serial
    ensures s.ready[0] !in CancelOp(s, id).s.ready && Alive(CancelOp(s, id).s, s.ready[0])
  {
    hide WaitsFor, ChainsOk;
    var h := s.ready[0];
    assert Alive(s, h) && (Alive(s, id) <==> id in s.ready);
    UnblockWorks(s, id);
    var s1 := Unblock(s, 0, id);
    var w := Get(s1, id).blockId;
    if w >= 0 { NamedBlocked(s, id); }
    var s2 := Wake(s1, w);
    assert id !in s2.ready && Blocked(s2, id) && Get(s2, id).follower == Get(s, id).follower;
    assert Get(s2, h).serial == Get(s, h).serial && Alive(s2, h);
    assert s2.ready[0] == h && h !in s2.ready[1..];
  }

  // The exact condition under which the second removal does no harm: the running
  // thread is the one that followed the target in the queue when the target
  // blocked.  Otherwise the running thread, at least, drops out of the queue.
  lemma CancelUnlinkIff(s: State, id: int)
    requires CancelsBlocked(s, id)
    ensures CancelOp(s, id).Next? && Inv(CancelOp(s, id).s) <==> Get(s, id).follower == Get(s, s.ready[0]).serial
    ensures CancelOp(s, id).Next? && Get(s, id).follower != Get(s, s.ready[0]).serial ==>
      s.ready[0] !in CancelOp(s, id).s.ready && Alive(CancelOp(s, id).s, s.ready[0])
  {
    if Get(s, id).follower == Get(s, s.ready[0]).serial {
      CancelKeeps(s, id);
    } else if CancelOp(s, id).Next? {
      HeadDrops(s, id);
      var s' := CancelOp(s, id).s;
      assert Alive(s', s.ready[0]) && s.ready[0] !in s'.ready;
    }
  }

  lemma MissedStays(s: State, id: int, w: int, j: int, s': State)
    requires IsTaken(s, id) && w == Get(s, id).blockId && (w >= 0 ==> Blocked(s, w) && w != id)
    requires Live(s, j) && Get(s, j).blockId == id && j != id && id >= 0
    requires var s2 := Wake(s, w); exists q :: s' == Put(s2.(ready := q), id, Get(s2, id).(state := CANCELLED, pending := -1))
    ensures !JoinsOk(s')
  {
    assert Live(s', j) && Get(s', j).blockId == id && Get(s', id).pending == -1;
  }

  // If the thread that the target waits for is itself blocked, the search of the
  // ready queue misses it, and it goes on naming the cancelled thread.
  lemma MissedWaiter(s: State, id: int)
    requires Inv(s) && !CancelRefused(s, id) && Blocked(s, id) && !Alive(s, Get(s, id).pending) && CancelOp(s, id).Next?
    ensures !Inv(CancelOp(s, id).s)
  {
    hide ChainsOk;
    var j, s' := Get(s, id).pending, CancelOp(s, id).s;
    assert WaitsFor(s, id, j) && Alive(s, s.ready[0]);
    forall k | 0 <= k < |s.ready| ensures Get(s, s.ready[k]).blockId != id {
      assert Alive(s, s.ready[k]);
    }
    UnblockNone(s, 0, id);
    var w := Get(s, id).blockId;
    if w >= 0 { NamedBlocked(s, id); }
    MissedStays(s, id, w, j, s');
  }

  // For a thread that has not terminated the legal cancels are exactly those that
  // keep the scheduler invariant.
  lemma CancelLegalIff(s: State, id: int)
    requires Inv(s) && !CancelRefused(s, id) && Live(s, id)
    ensures CancelOp(s, id).Next? && Inv(CancelOp(s, id).s) <==> Legal(s, Cancel(id))
  {
    hide Core, CancelOp;
    if Legal(s, Cancel(id)) {
      CancelKeeps(s, id);
    } else if !Alive(s, Get(s, id).pending) {
      if CancelOp(s, id).Next? { MissedWaiter(s, id); }
    } else {
      CancelUnlinkIff(s, id);
    }
  }

  // ---------------------------------------------------------------- a run

  function NewThread(serial: nat): Slot { Taken(Tcb(serial, -1, ALIVE, -1, serial, -1)) }

  function Two(): State {
    State([NewThread(0), NewThread(1)] + seq(8, _ => Empty), 2, [0, 1])
  }

  function Three(): State {
    State([NewThread(0), NewThread(1), NewThread(2)] + seq(7, _ => Empty), 3, [0, 1, 2])
  }

  // Thread 0 waits for thread 1; q is the queue.
  function Waiting(q: seq<int>): State {
    State([Taken(Tcb(0, -1, BLOCKED, 1, 0, 1)), Taken(Tcb(1, 0, ALIVE, -1, 1, -1)), NewThread(2)] + seq(7, _ => Empty), 3, q)
  }

  lemma CreateTwice()
    ensures Inv(Init()) && CreateOp(Init()) == Next(Two(), 1, Nothing) && CreateOp(Two()) == Next(Three(), 2, Nothing)
  {
    InitInv();
    assert MinAvailable(Init().threads, 0) == 1 by { assert Init().threads[0].Taken? && Init().threads[1].Empty?; }
    assert CreateOp(Init()).s.threads == Two().threads;
    assert MinAvailable(Two().threads, 0) == 2 by {
      assert Two().threads[0].Taken? && Two().threads[1].Taken? && Two().threads[2].Empty?;
    }
    assert CreateOp(Two()).s.threads == Three().threads;
  }

  lemma JoinThenYield()
    ensures !JoinRefused(Three(), 1) && JoinOp(Three(), 1) == Next(Waiting([1, 2]), 0, Nothing)
    ensures YieldOp(Waiting([1, 2])) == Next(Waiting([2, 1]), 0, Nothing)
    ensures Legal(Three(), Join(1))
  {
    var s := Three();
    assert Get(s, 0) == Tcb(0, -1, ALIVE, -1, 0, -1) && Get(s, 1) == Tcb(1, -1, ALIVE, -1, 1, -1);
    assert BlockOn(s, 1).threads == Waiting([1, 2]).threads;
    assert Alive(s, 1) && !LeadsTo(s, 1, 0);
  }

  lemma {:induction false} OneMore(s: State, ops: seq<Op>, s': State)
    requires Inv(s) && |ops| > 0 && Legal(s, ops[0])
    requires ops[0].Join? && JoinBlocks(s, ops[0].id) ==> |s.ready| > 1
    requires Step(s, ops[0]).Next? && Step(s, ops[0]).s == s' && Inv(s') && LegalRun(s', ops[1..])
    ensures LegalRun(s, ops) && After(s, ops) == After(s', ops[1..])
  {
    hide Inv, Legal, Step;
  }

  lemma LostQueue()
    ensures CancelOp(Waiting([2, 1]), 0).Next? && CancelOp(Waiting([2, 1]), 0).s.ready == [1]
    ensures Alive(CancelOp(Waiting([2, 1]), 0).s, 2)
  {
    var s := Waiting([2, 1]);
    var s1 := Unblock(s, 0, 0);
    assert Get(s, 2).blockId == -1 && Get(s, 1).blockId == 0;
    assert s1 == Put(s, 1, Get(s, 1).(blockId := -1)) by {
      assert Unblock(s, 0, 0) == Unblock(s, 1, 0);
    }
    assert Get(s1, 0).follower == 1 && Get(s1, 2).serial == 2 && Get(s1, 1).serial == 1;
    assert Position(s1, 1, 0) == 1;
    assert s1.ready[1..] == [1];
  }

  // Main creates threads 1 and 2 and joins 1; 1 yields; 2 cancels main.  The
  // removal makes thread 1, which followed main, the first entry: thread 2 runs
  // but is no longer in the queue, although it is alive.
  lemma RunnerIsLost() returns (ops: seq<Op>)
    ensures Inv(Init()) && LegalRun(Init(), ops) && After(Init(), ops) == Some(Waiting([2, 1]))
    ensures CancelOp(Waiting([2, 1]), 0).Next? && CancelOp(Waiting([2, 1]), 0).s.ready == [1]
    ensures Alive(CancelOp(Waiting([2, 1]), 0).s, 2)
  {
    hide Inv, LeadsTo, MinAvailable;
    ops := [Create, Create, Join(1), Yield];
    CreateTwice();
    JoinThenYield();
    assert ops[1..] == [Create, Join(1), Yield] && ops[2..] == ops[1..][1..] == [Join(1), Yield];
    assert ops[3..] == ops[2..][1..] == [Yield] && ops[3..][1..] == [];
    StepKeeps(Init(), Create);
    StepKeeps(Two(), Create);
    StepKeeps(Three(), Join(1));
    StepKeeps(Waiting([1, 2]), Yield);
    OneMore(Waiting([1, 2]), [Yield], Waiting([2, 1]));
    OneMore(Three(), [Join(1), Yield], Waiting([1, 2]));
    OneMore(Two(), [Create, Join(1), Yield], Three());
    OneMore(Init(), ops, Two());
    LostQueue();
  }
}
