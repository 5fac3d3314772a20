// What joins return over whole runs: the status of the thread that was asked
// for, and of each thread at most once.
module WutHistory {
  import opened WutState
  import opened WutInvariant
  import opened WutSteps
  import opened WutRuns

  // ---------------------------------------------------------------- histories

  // A join that was not refused: the serials of the joiner and of the thread
  // that has the given id at the time of the call.
  datatype Request = Request(joiner: nat, target: nat)

  // The final status of each thread that has terminated, by serial; the statuses
  // that joins have returned, and the joins that were made, in order.
  datatype History = History(fate: map<nat, int>, log: seq<Delivery>, asked: seq<Request>)

  function Fates(s: State, op: Op): map<nat, int>
    requires |s.ready| > 0
  {
    match op
    case Exit(status) => map[Get(s, s.ready[0]).serial := status % 256]
    case Cancel(id) => if CancelRefused(s, id) then map[] else map[Get(s, id).serial := CANCELLED]
    case _ => map[]
  }

  function Logged(e: Event): seq<Delivery> {
    match e case Nothing => [] case Delivers(d) => [d]
  }

  function EventOf(o: Outcome): Event {
    match o case Next(_, _, e) => e case _ => Nothing
  }

  function Asks(s: State, op: Op): seq<Request>
    requires |s.ready| > 0
  {
    match op
    case Join(id) => if JoinRefused(s, id) then [] else [Request(Get(s, s.ready[0]).serial, Get(s, id).serial)]
    case _ => []
  }

  function Record(h: History, s: State, op: Op): History
    requires |s.ready| > 0 && (op.Join? && JoinBlocks(s, op.id) ==> |s.ready| > 1)
  {
    History(h.fate + Fates(s, op), h.log + Logged(EventOf(Step(s, op))), h.asked + Asks(s, op))
  }

  ghost function RunHistory(s: State, h: History, ops: seq<Op>): History
    requires Inv(s) && LegalRun(s, ops)
    decreases |ops|
  {
    if |ops| == 0 then h else
    StepKeeps(s, ops[0]);
    match Step(s, ops[0])
    case ProcessEnds => Record(h, s, ops[0])
    case Breaks => h
    case Next(s', _, _) => RunHistory(s', Record(h, s, ops[0]), ops[1..])
  }

  // Each delivery carries the final status of its target, and no target is
  // delivered twice.
  ghost predicate LogOk(h: History) {
    && (forall a :: 0 <= a < |h.log| ==> h.log[a].target in h.fate && h.fate[h.log[a].target] == h.log[a].status)
    && (forall a, b :: 0 <= a < b < |h.log| ==> h.log[a].target != h.log[b].target)
  }

  // The table agrees with the history: a terminated thread still in the table
  // has its status on record and has not been collected.
  ghost predicate TableOk(s: State, h: History) {
    && (forall i :: IsTaken(s, i) && !Live(s, i) ==> Get(s, i).serial in h.fate && h.fate[Get(s, i).serial] == Get(s, i).state)
    && (forall i :: Live(s, i) ==> Get(s, i).serial !in h.fate)
    && (forall x :: x in h.fate ==> x < s.count)
    && (forall i, a :: IsTaken(s, i) && 0 <= a < |h.log| ==> h.log[a].target != Get(s, i).serial)
  }

  ghost predicate HistoryOk(s: State, h: History) { LogOk(h) && TableOk(s, h) }

  // ---------------------------------------------------------------- parts of a call

  // Slots keep their thread and its status; no thread dies.
  ghost predicate SameThreads(s: State, s': State) {
    && s'.count == s.count
    && (forall i :: (IsTaken(s', i) <==> IsTaken(s, i)) && (Live(s', i) <==> Live(s, i)))
    && (forall i :: Get(s', i).serial == Get(s, i).serial && (!Live(s, i) ==> Get(s', i).state == Get(s, i).state))
  }

  lemma SameThreadsHistory(s: State, s': State, h: History)
    requires HistoryOk(s, h) && SameThreads(s, s')
    ensures HistoryOk(s', h)
  {
    forall i | IsTaken(s', i) && !Live(s', i)
      ensures Get(s', i).serial in h.fate && h.fate[Get(s', i).serial] == Get(s', i).state
    {
      assert IsTaken(s, i) && !Live(s, i);
    }
    forall i | Live(s', i) ensures Get(s', i).serial !in h.fate {
      assert Live(s, i);
    }
    forall i, a | IsTaken(s', i) && 0 <= a < |h.log| ensures h.log[a].target != Get(s', i).serial {
      assert IsTaken(s, i);
    }
  }

  // Collecting slot j logs its status and empties the slot.
  lemma CollectHistory(s: State, s': State, h: History, j: int, joiner: nat)
    requires SlotsOk(s) && HistoryOk(s, h) && IsTaken(s, j) && !Live(s, j) && s'.count == s.count
    requires forall i :: (IsTaken(s', i) <==> IsTaken(s, i) && i != j)
    requires forall i :: i != j ==> Get(s', i).serial == Get(s, i).serial && (Live(s', i) <==> Live(s, i)) && Get(s', i).state == Get(s, i).state
    ensures HistoryOk(s', h.(log := h.log + [Delivery(joiner, Get(s, j).serial, Get(s, j).state)]))
  {
    var d := Delivery(joiner, Get(s, j).serial, Get(s, j).state);
    var h' := h.(log := h.log + [d]);
    forall a, b | 0 <= a < b < |h'.log| ensures h'.log[a].target != h'.log[b].target {
      if b == |h.log| { assert h.log[a].target != Get(s, j).serial; }
    }
    forall i | IsTaken(s', i) ensures IsTaken(s, i) && i != j && Get(s, i).serial != Get(s, j).serial {
    }
    forall i, a | IsTaken(s', i) && 0 <= a < |h'.log| ensures h'.log[a].target != Get(s', i).serial {
      if a < |h.log| { assert h.log[a].target != Get(s, i).serial; }
    }
  }

  lemma TerminateHistory(s: State, s': State, h: History, a: int, w: int, st: int)
    requires SlotsOk(s) && HistoryOk(s, h) && Terminated(s, s', a, w, st) && (w >= 0 ==> Blocked(s, w) && w != a)
    ensures HistoryOk(s', h.(fate := h.fate + map[Get(s, a).serial := st]))
  {
    var x := Get(s, a).serial;
    var h' := h.(fate := h.fate + map[x := st]);
    forall i | IsTaken(s', i) ensures IsTaken(s, i) && Get(s', i).serial == Get(s, i).serial {
    }
    forall i | Live(s', i) ensures Live(s, i) && Get(s', i).serial != x {
    }
    forall b | 0 <= b < |h.log| ensures h.log[b].target != x {
      assert IsTaken(s, a);
    }
    forall i | IsTaken(s', i) && !Live(s', i) && i != a
      ensures IsTaken(s, i) && !Live(s, i) && Get(s', i).state == Get(s, i).state
    {
    }
  }

  lemma ResumeHistory(s: State, h: History, ret: int)
    requires Core(s) && |s.ready| > 0 && HistoryOk(s, h)
    ensures HistoryOk(Resume(s, ret).s, h.(log := h.log + Logged(Resume(s, ret).event)))
  {
    var x := s.ready[0];
    assert Alive(s, x);
    var j := Get(s, x).pending;
    if j >= 0 {
      assert WaitsFor(s, x, j);
      CollectHistory(s, Resume(s, ret).s, h, j, Get(s, x).serial);
    } else {
      assert h.(log := h.log + []) == h;
    }
  }

  // ---------------------------------------------------------------- every call

  lemma NoChange(h: History)
    ensures h.fate + map[] == h.fate && h.log + [] == h.log && h.asked + [] == h.asked
    ensures History(h.fate + map[], h.log + [], h.asked + []) == h
  {
  }

  // What was asked for is another matter.
  lemma AskedFree(s: State, h: History, asked: seq<Request>)
    requires HistoryOk(s, h)
    ensures HistoryOk(s, h.(asked := asked))
  {
  }

  lemma CreateHistory(s: State, h: History)
    requires Inv(s) && HistoryOk(s, h)
    ensures CreateOp(s).Next? && HistoryOk(CreateOp(s).s, Record(h, s, Create))
  {
    CreateWorks(s);
    NoChange(h);
    var s', id := CreateOp(s).s, MinAvailable(Roomy(s).threads, 0);
    assert SameBut(s, s', id, id);
    forall i | IsTaken(s', i) && i != id ensures IsTaken(s, i) && Get(s', i) == Get(s, i) {
    }
    forall a | 0 <= a < |h.log| ensures h.log[a].target != s.count {
    }
  }

  lemma BlockThreads(s: State, s1: State, x: int, id: int)
    requires BlockedOn(s, s1, x, id)
    ensures SameThreads(s, s1)
  {
  }

  lemma JoinHistory(s: State, h: History, id: int)
    requires Inv(s) && HistoryOk(s, h) && Legal(s, Join(id))
    ensures JoinBlocks(s, id) ==> |s.ready| > 1
    ensures JoinOp(s, id).Next? && HistoryOk(JoinOp(s, id).s, Record(h, s, Join(id)))
  {
    hide WaitsFor, JoinsOk, ChainsOk, QueueOk, HistoryOk, Resume;
    JoinKeeps(s, id);
    NoChange(h);
    HeadAlive(s);
    if JoinBlocks(s, id) {
      JoinBlockWorks(s, id);
      BlockOnIs(s, id);
      var s1 := BlockOn(s, id);
      BlockThreads(s, s1, s.ready[0], id);
      SameThreadsHistory(s, s1, h);
      ResumeHistory(s1, h, 0);
      AskedFree(JoinOp(s, id).s, h.(log := h.log + Logged(JoinOp(s, id).event)), h.asked + Asks(s, Join(id)));
    } else if !JoinRefused(s, id) {
      CollectHistory(s, FreeSlot(s, id), h, id, Get(s, s.ready[0]).serial);
      AskedFree(JoinOp(s, id).s, h.(log := h.log + Logged(JoinOp(s, id).event)), h.asked + Asks(s, Join(id)));
    }
  }

  lemma YieldHistory(s: State, h: History)
    requires Inv(s) && HistoryOk(s, h)
    ensures YieldOp(s).Next? && HistoryOk(YieldOp(s).s, Record(h, s, Yield))
  {
    hide WaitsFor, JoinsOk, ChainsOk, QueueOk, SlotsOk, HistoryOk, Resume;
    NoChange(h);
    if |s.ready| > 1 {
      var s1 := s.(ready := s.ready[1..] + [s.ready[0]]);
      YieldCore(s, s1);
      assert SameThreads(s, s1);
      SameThreadsHistory(s, s1, h);
      ResumeHistory(s1, h, 0);
    }
  }

  lemma UnblockedThreads(s: State, s1: State, id: int)
    requires Unblocked(s, s1, id)
    ensures SameThreads(s, s1)
  {
  }

  lemma CancelHistory(s: State, h: History, id: int)
    requires Inv(s) && HistoryOk(s, h) && Legal(s, Cancel(id))
    ensures CancelOp(s, id).Next? && HistoryOk(CancelOp(s, id).s, Record(h, s, Cancel(id)))
  {
    CancelKeeps(s, id);
    NoChange(h);
    if !CancelRefused(s, id) {
      var s1 := Unblock(s, 0, id);
      UnblockedParts(s, s1, id);
      UnblockedJoins(s, s1, id);
      UnblockedThreads(s, s1, id);
      SameThreadsHistory(s, s1, h);
      var w := Get(s1, id).blockId;
      if w >= 0 { OwnWaiter(s1, id); }
      assert h.log + [] == h.log;
      TerminateHistory(s1, CancelOp(s, id).s, h, id, w, CANCELLED);
    }
  }

  lemma HistoryLog(s: State, h: History)
    requires HistoryOk(s, h)
    ensures LogOk(h)
  {
  }

  lemma ExitHistory(s: State, h: History, status: int)
    requires Inv(s) && HistoryOk(s, h)
    ensures ExitOp(s, status).Next? ==> HistoryOk(ExitOp(s, status).s, Record(h, s, Exit(status)))
    ensures LogOk(Record(h, s, Exit(status)))
  {
    hide WaitsFor, JoinsOk, JoinsBut, ChainsOk, QueueOk, HistoryOk, Resume, Finish, LogOk, TableOk;
    var x := s.ready[0];
    HeadAlive(s);
    NoChange(h);
    FinishKeeps(s, status);
    var s1 := Finish(s, status);
    var w := Get(s, x).blockId;
    JoinsButSelf(s, x);
    if w >= 0 { OwnWaiter(s, x); }
    TerminateHistory(s, s1, h, x, w, status % 256);
    var h1 := h.(fate := h.fate + map[Get(s, x).serial := status % 256]);
    if |s1.ready| > 0 {
      ResumeHistory(s1, h1, 0);
      HistoryLog(Resume(s1, 0).s, Record(h, s, Exit(status)));
    } else {
      HistoryLog(s1, h1);
    }
  }

  lemma StepHistory(s: State, h: History, op: Op)
    requires Inv(s) && HistoryOk(s, h) && Legal(s, op)
    ensures op.Join? && JoinBlocks(s, op.id) ==> |s.ready| > 1
    ensures Step(s, op).Next? ==> HistoryOk(Step(s, op).s, Record(h, s, op))
    ensures LogOk(Record(h, s, op))
  {
    match op
    case Create => CreateHistory(s, h);
    case Cancel(id) => CancelHistory(s, h, id);
    case Join(id) => JoinHistory(s, h, id);
    case Yield => YieldHistory(s, h);
    case Exit(status) => ExitHistory(s, h, status);
  }

  // Over any legal run, each status that a join returns is the one its target
  // terminated with, and no thread's status is returned twice.
  lemma {:induction false} StatusesDeliveredOnce(s: State, h: History, ops: seq<Op>)
    requires Inv(s) && HistoryOk(s, h) && LegalRun(s, ops)
    ensures LogOk(RunHistory(s, h, ops))
    decreases |ops|
  {
    hide Core, HistoryOk, Record, Step;
    if |ops| == 0 {
      HistoryLog(s, h);
    } else {
      StepKeeps(s, ops[0]);
      StepHistory(s, h, ops[0]);
      if Step(s, ops[0]).Next? {
        StatusesDeliveredOnce(Step(s, ops[0]).s, Record(h, s, ops[0]), ops[1..]);
      }
    }
  }

  lemma InitHistory()
    ensures HistoryOk(Init(), History(map[], [], []))
  {
    var s := Init();
    assert forall i :: IsTaken(s, i) <==> i == 0;
    assert Live(s, 0);
  }
}
