// Whole runs: no legal run gets stuck, the slot of a woken joiner's target is
// safe, and every ready thread gets its turn.
module WutRuns {
  import opened Common
  import opened WutState
  import opened WutInvariant
  import opened WutSteps

  // ---------------------------------------------------------------- legal runs

  // The state after a call; a process that has ended stays as it is.
  ghost predicate LegalRun(s: State, ops: seq<Op>)
    requires Inv(s)
    decreases |ops|
  {
    |ops| == 0 || (
      && Legal(s, ops[0])
      && (StepKeeps(s, ops[0]);
          match Step(s, ops[0])
          case ProcessEnds => |ops| == 1
          case Breaks => false
          case Next(s', _, _) => LegalRun(s', ops[1..])))
  }

  // The state after a run; None once the process has ended.
  ghost function After(s: State, ops: seq<Op>): (r: Option<State>)
    requires Inv(s) && LegalRun(s, ops)
    ensures r.Some? ==> Inv(r.value)
    decreases |ops|
  {
    if |ops| == 0 then Some(s) else
    StepKeeps(s, ops[0]);
    match Step(s, ops[0])
    case ProcessEnds => None
    case Breaks => None
    case Next(s', _, _) => After(s', ops[1..])
  }

  lemma HeadAlive(s: State)
    requires Inv(s)
    ensures Alive(s, s.ready[0]) && Get(s, s.ready[0]).id == s.ready[0] && 0 <= s.ready[0] < |s.threads|
  {
    hide JoinsOk, ChainsOk;
    assert s.ready[0] in s.ready;
    assert Alive(s, s.ready[0]);
  }

  // No deadlock: after any legal run that has not ended the process, some thread
  // runs, and each thread that waits leads through a chain of joins to a thread
  // in the ready queue.
  lemma {:induction false} RunNeverSticks(ops: seq<Op>)
    requires Inv(Init()) && LegalRun(Init(), ops) && After(Init(), ops).Some?
    ensures var s := After(Init(), ops).value;
      && |s.ready| > 0 && Alive(s, s.ready[0])
      && (forall i :: i in s.ready <==> Alive(s, i))
      && forall w :: Live(s, w) ==> exists r :: LeadsTo(s, w, r) && r in s.ready
  {
    var s := After(Init(), ops).value;
    assert s.ready[0] in s.ready;
    forall w | Live(s, w) ensures exists r :: LeadsTo(s, w, r) && r in s.ready {
      var r, n: nat :| Leads(s, w, r, n);
      LeadsEnd(s, w, r, n);
      assert LeadsTo(s, w, r);
    }
  }

  // ---------------------------------------------------------------- the slot of a woken joiner

  // Thread w has been woken by j and has yet to run and fetch its status.
  ghost predicate Woken(s: State, w: int, j: int) {
    |s.ready| > 0 && Alive(s, w) && w != s.ready[0] && Get(s, w).pending == j && j >= 0
  }

  ghost predicate StillWoken(s: State, s': State, w: int, j: int) {
    && Alive(s', w) && Get(s', w).pending == j && Get(s', w).serial == Get(s, w).serial
    && IsTaken(s', j) && Get(s', j) == Get(s, j)
  }

  // Joiner w runs and its join returns the status of j.
  ghost predicate Collects(s: State, o: Outcome, w: int, j: int) {
    && o.Next? && |o.s.ready| > 0 && o.s.ready[0] == w
    && o.event == Delivers(Delivery(Get(s, w).serial, Get(s, j).serial, Get(s, j).state))
  }

  // What the resumption of the next thread does to a woken joiner: it either
  // delivers to that very joiner or leaves joiner and target alone.
  lemma ResumeSpares(s: State, w: int, j: int, ret: int)
    requires Core(s) && |s.ready| > 0 && Alive(s, w) && Get(s, w).pending == j && j >= 0
    ensures
      if s.ready[0] == w then Collects(s, Resume(s, ret), w, j) && !IsTaken(Resume(s, ret).s, j)
      else StillWoken(s, Resume(s, ret).s, w, j)
  {
    var x := s.ready[0];
    assert Alive(s, x);
    assert WaitsFor(s, w, j);
    var p := Get(s, x).pending;
    if p >= 0 { assert WaitsFor(s, x, p); }
  }

  lemma WokenFacts(s: State, w: int, j: int)
    requires Inv(s) && Woken(s, w, j)
    ensures IsTaken(s, j) && !Live(s, j) && Get(s, j).blockId == w && j != w
  {
    assert WaitsFor(s, w, j);
  }

  lemma CreateSpares(s: State, w: int, j: int)
    requires Inv(s) && Woken(s, w, j)
    ensures CreateOp(s).Next? && StillWoken(s, CreateOp(s).s, w, j)
  {
    WokenFacts(s, w, j);
    CreateWorks(s);
  }

  lemma CancelSpares(s: State, id: int, w: int, j: int)
    requires Inv(s) && Legal(s, Cancel(id)) && Woken(s, w, j) && id != w
    ensures CancelOp(s, id).Next? && StillWoken(s, CancelOp(s, id).s, w, j)
  {
    hide WaitsFor;
    WokenFacts(s, w, j);
    CancelKeeps(s, id);
    if !CancelRefused(s, id) {
      var s1 := Unblock(s, 0, id);
      UnblockedJoins(s, s1, id);
      if Get(s1, id).blockId >= 0 { OwnWaiter(s1, id); }
    }
  }

  lemma StillTrans(s: State, s1: State, s2: State, w: int, j: int)
    requires StillWoken(s, s1, w, j)
    ensures StillWoken(s1, s2, w, j) ==> StillWoken(s, s2, w, j)
  {
  }

  lemma JoinSpares(s: State, id: int, w: int, j: int)
    requires Inv(s) && Legal(s, Join(id)) && Woken(s, w, j)
    requires JoinBlocks(s, id) ==> |s.ready| > 1
    ensures JoinOp(s, id).Next?
    ensures StillWoken(s, JoinOp(s, id).s, w, j)
      || Collects(s, JoinOp(s, id), w, j)
    ensures id == j ==> JoinOp(s, id) == Next(s, -1, Nothing)
  {
    WokenFacts(s, w, j);
    hide Core, WaitsFor, Resume;
    HeadAlive(s);
    if JoinBlocks(s, id) {
      var s1 := BlockOn(s, id);
      BlockOnIs(s, id);
      JoinBlockWorks(s, id);
      assert StillWoken(s, s1, w, j);
      ResumeSpares(s1, w, j, 0);
      StillTrans(s, s1, JoinOp(s, id).s, w, j);
    }
  }

  lemma YieldSpares(s: State, w: int, j: int)
    requires Inv(s) && Woken(s, w, j)
    ensures YieldOp(s).Next?
    ensures StillWoken(s, YieldOp(s).s, w, j)
      || Collects(s, YieldOp(s), w, j)
  {
    WokenFacts(s, w, j);
    hide Core, WaitsFor, Resume;
    YieldKeeps(s);
    if |s.ready| > 1 {
      var s1 := s.(ready := s.ready[1..] + [s.ready[0]]);
      YieldCore(s, s1);
      assert StillWoken(s, s1, w, j);
      ResumeSpares(s1, w, j, 0);
      StillTrans(s, s1, YieldOp(s).s, w, j);
    }
  }

  lemma AliveQueued(s: State, w: int)
    requires Core(s) && Alive(s, w)
    ensures w in s.ready
  {
  }

  lemma ExitSpares(s: State, status: int, w: int, j: int)
    requires Inv(s) && Woken(s, w, j)
    ensures ExitOp(s, status).Next?
    ensures StillWoken(s, ExitOp(s, status).s, w, j)
      || Collects(s, ExitOp(s, status), w, j)
  {
    WokenFacts(s, w, j);
    HeadAlive(s);
    var x := s.ready[0];
    JoinsButSelf(s, x);
    if Get(s, x).blockId >= 0 { OwnWaiter(s, x); }
    FinishKeeps(s, status);
    hide Core, WaitsFor, Resume, Finish, JoinsBut;
    var s1 := Finish(s, status);
    assert StillWoken(s, s1, w, j);
    AliveQueued(s1, w);
    ResumeSpares(s1, w, j, 0);
    StillTrans(s, s1, ExitOp(s, status).s, w, j);
  }

  // Between wake-up and resumption no call of another thread frees or reuses
  // the slot of the target, and no other thread can collect it.
  lemma WokenSlotIsSafe(s: State, op: Op, w: int, j: int)
    requires Inv(s) && Legal(s, op) && Woken(s, w, j) && op != Cancel(w)
    ensures op.Join? && JoinBlocks(s, op.id) ==> |s.ready| > 1
    ensures Step(s, op).Next?
    ensures
      || StillWoken(s, Step(s, op).s, w, j)
      || Collects(s, Step(s, op), w, j)
    ensures op == Join(j) ==> Step(s, op) == Next(s, -1, Nothing)
  {
    hide Core, WaitsFor, StillWoken, Resume;
    WokenFacts(s, w, j);
    StepKeeps(s, op);
    HeadAlive(s);
    match op
    case Create => CreateSpares(s, w, j);
    case Cancel(id) => CancelSpares(s, id, w, j);
    case Join(id) => JoinSpares(s, id, w, j);
    case Yield =>
      YieldSpares(s, w, j);
    case Exit(status) => ExitSpares(s, status, w, j);
  }

  // ---------------------------------------------------------------- first in, first out

  // The calls after which another thread runs.
  predicate Switches(s: State, op: Op)
    requires |s.ready| > 0
  {
    match op
    case Yield => |s.ready| > 1
    case Join(id) => JoinBlocks(s, id)
    case Exit(_) => true
    case _ => false
  }

  lemma FinishQueue(s: State, status: int)
    requires Inv(s)
    ensures var w := Get(s, s.ready[0]).blockId;
      Finish(s, status).ready == (if w >= 0 then s.ready + [w] else s.ready)[1..]
  {
    var w := Get(s, s.ready[0]).blockId;
    var q := if w >= 0 then s.ready + [w] else s.ready;
    assert Alive(s, s.ready[0]);
    assert w != s.ready[0] by { JoinsButSelf(s, s.ready[0]); if w >= 0 { OwnWaiter(s, s.ready[0]); } }
    assert q[0] == s.ready[0];
    RemoveHead(q);
  }

  // A call either only appends to the queue or also drops its head.
  lemma QueueMoves(s: State, op: Op) returns (tail: seq<int>)
    requires Inv(s) && Legal(s, op) && !op.Cancel?
    ensures op.Join? && JoinBlocks(s, op.id) ==> |s.ready| > 1
    ensures Step(s, op).Next? ==> Step(s, op).s.ready == (if Switches(s, op) then s.ready[1..] else s.ready) + tail
    ensures Step(s, op).ProcessEnds? ==> |s.ready| == 1 && Switches(s, op)
  {
    hide Core;
    StepKeeps(s, op);
    tail := [];
    match op
    case Create => CreateWorks(s); tail := [MinAvailable(Roomy(s).threads, 0)];
    case Join(_) =>
      assert (if Switches(s, op) then s.ready[1..] else s.ready) + [] == if Switches(s, op) then s.ready[1..] else s.ready;
    case Yield =>
      tail := if |s.ready| > 1 then [s.ready[0]] else [];
      assert s.ready + [] == s.ready;
    case Exit(status) =>
      var w := Get(s, s.ready[0]).blockId;
      var q := if w >= 0 then s.ready + [w] else s.ready;
      FinishQueue(s, status);
      tail := if w >= 0 then [w] else [];
      assert q[1..] == s.ready[1..] + tail;
    case Cancel(_) =>
  }

  ghost predicate NoCancels(ops: seq<Op>) { forall a :: 0 <= a < |ops| ==> !ops[a].Cancel? }

  ghost function SwitchCount(s: State, ops: seq<Op>): nat
    requires Inv(s) && LegalRun(s, ops)
    decreases |ops|
  {
    if |ops| == 0 then 0 else
    StepKeeps(s, ops[0]);
    (if Switches(s, ops[0]) then 1 else 0) +
    match Step(s, ops[0])
    case ProcessEnds => 0
    case Breaks => 0
    case Next(s', _, _) => SwitchCount(s', ops[1..])
  }

  // The queue after a run; empty once the process has ended.
  ghost function QueueAfter(s: State, ops: seq<Op>): seq<int>
    requires Inv(s) && LegalRun(s, ops)
  {
    match After(s, ops) case None => [] case Some(s') => s'.ready
  }

  // Bounded waiting: without cancels, the thread at position k of the queue has
  // moved up by one for each switch, and so runs after exactly k of them.
  lemma {:induction false} FirstInFirstOut(s: State, ops: seq<Op>, k: nat)
    requires Inv(s) && LegalRun(s, ops) && NoCancels(ops) && k < |s.ready| && SwitchCount(s, ops) <= k
    ensures var c := SwitchCount(s, ops);
      k - c < |QueueAfter(s, ops)| && QueueAfter(s, ops)[k - c] == s.ready[k]
    decreases |ops|
  {
    hide Core, Legal, Step, Switches;
    if |ops| > 0 {
      StepKeeps(s, ops[0]);
      var tail := QueueMoves(s, ops[0]);
      if Step(s, ops[0]).Next? {
        var s' := Step(s, ops[0]).s;
        assert NoCancels(ops[1..]);
        FirstInFirstOut(s', ops[1..], if Switches(s, ops[0]) then k - 1 else k);
      }
    }
  }
}
