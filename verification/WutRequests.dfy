// Each join returns the status of the thread that it asked for, whatever becomes
// of ids in the meantime.
module WutRequests {
  import opened WutState
  import opened WutInvariant
  import opened WutSteps
  import opened WutRuns
  import opened WutHistory

  // The targets, in order, of the statuses returned to joiner x.
  function TargetsOf(log: seq<Delivery>, x: nat): seq<nat> {
    if |log| == 0 then []
    else TargetsOf(log[..|log| - 1], x) + if log[|log| - 1].joiner == x then [log[|log| - 1].target] else []
  }

  // The threads, in order, that joiner x asked for.
  function AskedBy(asked: seq<Request>, x: nat): seq<nat> {
    if |asked| == 0 then []
    else AskedBy(asked[..|asked| - 1], x) + if asked[|asked| - 1].joiner == x then [asked[|asked| - 1].target] else []
  }

  lemma {:induction false} TargetsOfMore(log: seq<Delivery>, d: Delivery, x: nat)
    ensures TargetsOf(log + [d], x) == TargetsOf(log, x) + if d.joiner == x then [d.target] else []
  {
    assert (log + [d])[..|log|] == log;
  }

  lemma {:induction false} AskedByMore(asked: seq<Request>, r: Request, x: nat)
    ensures AskedBy(asked + [r], x) == AskedBy(asked, x) + if r.joiner == x then [r.target] else []
  {
    assert (asked + [r])[..|asked|] == asked;
  }

  // What thread w has asked for and not yet been given.
  function Outstanding(s: State, w: int): seq<nat> {
    if Get(s, w).pending >= 0 then [Get(s, Get(s, w).pending).serial] else []
  }

  // The n-th status returned to a thread is that of the n-th thread it asked for.
  ghost predicate Matched(h: History) {
    forall x: nat :: TargetsOf(h.log, x) <= AskedBy(h.asked, x)
  }

  ghost predicate Asking(s: State, h: History, w: int) {
    var x := Get(s, w).serial;
    AskedBy(h.asked, x) == TargetsOf(h.log, x) + Outstanding(s, w)
  }

  // A live thread has been given all it asked for, except for a join in which it
  // still waits; and that join still has its eyes on the same thread.
  ghost predicate AskedOk(s: State, h: History) {
    && Matched(h)
    && (forall w :: Live(s, w) ==> Asking(s, h, w))
    && (forall x: nat :: x >= s.count ==> AskedBy(h.asked, x) == [])
  }

  // ---------------------------------------------------------------- parts of a call

  ghost predicate SameAsking(s: State, s': State, w: int) {
    || (Live(s, w) && Get(s', w).serial == Get(s, w).serial && Outstanding(s', w) == Outstanding(s, w))
    || (Get(s', w).serial == s.count && Outstanding(s', w) == [])
  }

  lemma SameAsked(s: State, s': State, h: History)
    requires AskedOk(s, h) && s'.count >= s.count && forall w :: Live(s', w) ==> SameAsking(s, s', w)
    ensures AskedOk(s', h)
  {
    forall w | Live(s', w) ensures Asking(s', h, w) {
      if Live(s, w) && Get(s', w).serial == Get(s, w).serial && Outstanding(s', w) == Outstanding(s, w) {
        assert Asking(s, h, w);
      } else {
        assert AskedBy(h.asked, s.count) == [] && TargetsOf(h.log, s.count) <= AskedBy(h.asked, s.count);
      }
    }
  }

  lemma SerialsDiffer(s: State, w: int, a: int)
    requires SlotsOk(s) && Live(s, w) && Live(s, a) && w != a
    ensures Get(s, w).serial != Get(s, a).serial
  {
  }

  // Thread a is given what it asked for.
  lemma Given(s: State, s': State, h: History, a: int, d: Delivery)
    requires SlotsOk(s) && AskedOk(s, h) && s'.count == s.count
    requires Live(s, a) && Get(s', a).serial == Get(s, a).serial == d.joiner
    requires Outstanding(s, a) == [d.target] && Outstanding(s', a) == []
    requires forall w :: Live(s', w) && w != a ==> Live(s, w) && SameAsking(s, s', w) && Get(s', w).serial == Get(s, w).serial
    ensures AskedOk(s', h.(log := h.log + [d]))
  {
    var h' := h.(log := h.log + [d]);
    assert Asking(s, h, a);
    forall x: nat ensures TargetsOf(h'.log, x) <= AskedBy(h'.asked, x) {
      TargetsOfMore(h.log, d, x);
      assert TargetsOf(h.log, x) <= AskedBy(h.asked, x);
    }
    forall w | Live(s', w) ensures Asking(s', h', w) {
      TargetsOfMore(h.log, d, Get(s', w).serial);
      assert Asking(s, h, w);
      if w != a { SerialsDiffer(s, w, a); }
    }
  }

  // Thread a asks for thread t.
  lemma Asked(s: State, s': State, h: History, a: int, t: nat)
    requires SlotsOk(s) && AskedOk(s, h) && s'.count == s.count
    requires Live(s, a) && Get(s', a).serial == Get(s, a).serial && Outstanding(s, a) == [] && Outstanding(s', a) == [t]
    requires forall w :: Live(s', w) && w != a ==> Live(s, w) && SameAsking(s, s', w) && Get(s', w).serial == Get(s, w).serial
    ensures AskedOk(s', h.(asked := h.asked + [Request(Get(s, a).serial, t)]))
  {
    var r := Request(Get(s, a).serial, t);
    var h' := h.(asked := h.asked + [r]);
    assert Asking(s, h, a);
    forall x: nat ensures TargetsOf(h'.log, x) <= AskedBy(h'.asked, x) && (x >= s.count ==> AskedBy(h'.asked, x) == []) {
      AskedByMore(h.asked, r, x);
      assert TargetsOf(h.log, x) <= AskedBy(h.asked, x);
      assert IsTaken(s, a);
    }
    forall w | Live(s', w) ensures Asking(s', h', w) {
      AskedByMore(h.asked, r, Get(s', w).serial);
      assert Asking(s, h, w);
      if w != a { SerialsDiffer(s, w, a); }
    }
  }

  // Nobody else waits for the thread that joiner x is given.
  lemma OnlyWaiter(s: State, x: int, j: int, w: int)
    requires JoinsOk(s) && IsTaken(s, x) && Get(s, x).pending == j && j >= 0 && IsTaken(s, w) && Get(s, w).pending == j
    ensures w == x
  {
    assert WaitsFor(s, x, j) && WaitsFor(s, w, j);
  }

  lemma ResumeAsked(s: State, h: History, ret: int)
    requires Core(s) && |s.ready| > 0 && AskedOk(s, h)
    ensures Resume(s, ret).Next? && AskedOk(Resume(s, ret).s, h.(log := h.log + Logged(Resume(s, ret).event)))
  {
    var x, s' := s.ready[0], Resume(s, ret).s;
    assert Alive(s, x);
    var j := Get(s, x).pending;
    if j >= 0 {
      assert WaitsFor(s, x, j);
      forall w | Live(s', w) && w != x ensures Live(s, w) && SameAsking(s, s', w) && Get(s', w).serial == Get(s, w).serial {
        if Get(s, w).pending == j { OnlyWaiter(s, x, j, w); }
        if Get(s, w).pending >= 0 { assert WaitsFor(s, w, Get(s, w).pending); }
      }
      Given(s, s', h, x, Delivery(Get(s, x).serial, Get(s, j).serial, Get(s, j).state));
    } else {
      assert h.log + [] == h.log;
    }
  }

  // ---------------------------------------------------------------- every call

  lemma CreateAsked(s: State, h: History)
    requires Inv(s) && AskedOk(s, h)
    ensures CreateOp(s).Next? && AskedOk(CreateOp(s).s, h)
  {
    CreateWorks(s);
    var s' := CreateOp(s).s;
    forall w | Live(s', w) ensures SameAsking(s, s', w) {
      if Live(s, w) && Get(s, w).pending >= 0 { assert WaitsFor(s, w, Get(s, w).pending); }
    }
    SameAsked(s, s', h);
  }

  // Terminating a thread, waking its joiner or detaching it from its own target
  // leaves every other join as it is.
  lemma TerminateAsked(s: State, s': State, h: History, a: int, w: int, st: int)
    requires AskedOk(s, h) && Terminated(s, s', a, w, st) && (w >= 0 ==> Blocked(s, w) && w != a)
    ensures AskedOk(s', h)
  {
    assert forall i :: Get(s', i).serial == Get(s, i).serial;
    forall v | Live(s', v) ensures SameAsking(s, s', v) {
    }
    SameAsked(s, s', h);
  }

  lemma UnblockAsked(s: State, s1: State, h: History, id: int)
    requires AskedOk(s, h) && Unblocked(s, s1, id)
    ensures AskedOk(s1, h)
  {
    assert forall i :: Get(s1, i).serial == Get(s, i).serial;
    forall v | Live(s1, v) ensures SameAsking(s, s1, v) {
    }
    SameAsked(s, s1, h);
  }

  lemma CancelAsked(s: State, h: History, id: int)
    requires Inv(s) && AskedOk(s, h) && Legal(s, Cancel(id))
    ensures CancelOp(s, id).Next? && CancelOp(s, id).event == Nothing && AskedOk(CancelOp(s, id).s, h)
  {
    hide AskedOk, Unblocked, Terminated;
    CancelKeeps(s, id);
    if !CancelRefused(s, id) {
      var s1 := Unblock(s, 0, id);
      CancelParts(s, s1, id);
      UnblockAsked(s, s1, h, id);
      TerminateAsked(s1, CancelOp(s, id).s, h, id, Get(s1, id).blockId, CANCELLED);
    }
  }

  lemma BlockAsked(s: State, h: History, id: int)
    requires Inv(s) && AskedOk(s, h) && JoinBlocks(s, id)
    ensures AskedOk(BlockOn(s, id), h.(asked := h.asked + Asks(s, Join(id))))
  {
    var s1, x := BlockOn(s, id), s.ready[0];
    BlockOnIs(s, id);
    HeadAlive(s);
    assert forall i :: Get(s1, i).serial == Get(s, i).serial;
    forall w | Live(s1, w) && w != x ensures Live(s, w) && SameAsking(s, s1, w) {
    }
    Asked(s, s1, h, x, Get(s, id).serial);
  }

  // A join on a terminated thread asks and is given at once.
  lemma CollectAsked(s: State, h: History, id: int)
    requires Inv(s) && AskedOk(s, h) && !JoinRefused(s, id) && Get(s, id).state >= 0
    ensures var d := Delivery(Get(s, s.ready[0]).serial, Get(s, id).serial, Get(s, id).state);
      AskedOk(FreeSlot(s, id), History(h.fate, h.log + [d], h.asked + Asks(s, Join(id))))
  {
    var s', x := FreeSlot(s, id), s.ready[0];
    HeadAlive(s);
    var r, d := Request(Get(s, x).serial, Get(s, id).serial), Delivery(Get(s, x).serial, Get(s, id).serial, Get(s, id).state);
    var h' := History(h.fate, h.log + [d], h.asked + [r]);
    assert Asking(s, h, x);
    forall y: nat ensures TargetsOf(h'.log, y) <= AskedBy(h'.asked, y) && (y >= s.count ==> AskedBy(h'.asked, y) == []) {
      AskedByMore(h.asked, r, y);
      TargetsOfMore(h.log, d, y);
      assert TargetsOf(h.log, y) <= AskedBy(h.asked, y);
      assert IsTaken(s, x);
    }
    forall w | Live(s', w) ensures Asking(s', h', w) {
      AskedByMore(h.asked, r, Get(s', w).serial);
      TargetsOfMore(h.log, d, Get(s', w).serial);
      assert Asking(s, h, w);
      if w != x { SerialsDiffer(s, w, x); }
      if Get(s, w).pending >= 0 { assert WaitsFor(s, w, Get(s, w).pending); }
    }
  }

  lemma JoinAsked(s: State, h: History, id: int)
    requires Inv(s) && AskedOk(s, h) && Legal(s, Join(id))
    ensures JoinBlocks(s, id) ==> |s.ready| > 1
    ensures JoinOp(s, id).Next? && AskedOk(JoinOp(s, id).s, Record(h, s, Join(id)))
  {
    hide AskedOk, Core, Resume, BlockOn;
    JoinKeeps(s, id);
    NoChange(h);
    if JoinBlocks(s, id) {
      JoinBlockWorks(s, id);
      BlockAsked(s, h, id);
      ResumeAsked(BlockOn(s, id), h.(asked := h.asked + Asks(s, Join(id))), 0);
    } else if !JoinRefused(s, id) {
      CollectAsked(s, h, id);
    }
  }

  lemma RotateAsked(s: State, s1: State, h: History)
    requires AskedOk(s, h) && s1 == s.(ready := s1.ready)
    ensures AskedOk(s1, h)
  {
    assert forall w :: Live(s1, w) ==> SameAsking(s, s1, w);
    SameAsked(s, s1, h);
  }

  lemma YieldAsked(s: State, h: History)
    requires Inv(s) && AskedOk(s, h)
    ensures YieldOp(s).Next? && AskedOk(YieldOp(s).s, Record(h, s, Yield))
  {
    hide AskedOk, Core, Resume;
    NoChange(h);
    if |s.ready| > 1 {
      var s1 := s.(ready := s.ready[1..] + [s.ready[0]]);
      YieldCore(s, s1);
      RotateAsked(s, s1, h);
      ResumeAsked(s1, h, 0);
    }
  }

  lemma FateFree(s: State, h: History, fate: map<nat, int>)
    requires AskedOk(s, h)
    ensures AskedOk(s, h.(fate := fate))
  {
    forall w | Live(s, w) ensures Asking(s, h.(fate := fate), w) {
      assert Asking(s, h, w);
    }
  }

  lemma AskedMatched(s: State, h: History)
    requires AskedOk(s, h)
    ensures Matched(h)
  {
  }

  lemma ExitAsked(s: State, h: History, status: int)
    requires Inv(s) && AskedOk(s, h)
    ensures ExitOp(s, status).Next? ==> AskedOk(ExitOp(s, status).s, Record(h, s, Exit(status)))
    ensures Matched(Record(h, s, Exit(status)))
  {
    hide AskedOk, Resume, Finish, WaitsFor, JoinsBut, Terminated;
    NoChange(h);
    HeadAlive(s);
    FinishKeeps(s, status);
    var x, s1 := s.ready[0], Finish(s, status);
    var w := Get(s, x).blockId;
    if w >= 0 {
      JoinsButSelf(s, x);
      OwnWaiter(s, x);
    }
    TerminateAsked(s, s1, h, x, w, status % 256);
    FateFree(s1, h, h.fate + Fates(s, Exit(status)));
    var h1 := h.(fate := h.fate + Fates(s, Exit(status)));
    if |s1.ready| > 0 {
      ResumeAsked(s1, h1, 0);
      AskedMatched(Resume(s1, 0).s, Record(h, s, Exit(status)));
    } else {
      AskedMatched(s1, h1);
    }
  }

  lemma StepAsked(s: State, h: History, op: Op)
    requires Inv(s) && AskedOk(s, h) && Legal(s, op)
    ensures op.Join? && JoinBlocks(s, op.id) ==> |s.ready| > 1
    ensures Step(s, op).Next? ==> AskedOk(Step(s, op).s, Record(h, s, op))
    ensures Matched(Record(h, s, op))
  {
    hide AskedOk, Core, Matched, CancelOp, CreateOp;
    StepKeeps(s, op);
    NoChange(h);
    match op
    case Create => CreateWorks(s); CreateAsked(s, h); AskedMatched(CreateOp(s).s, h);
    case Cancel(id) =>
      CancelAsked(s, h, id);
      FateFree(CancelOp(s, id).s, h, h.fate + Fates(s, op));
      AskedMatched(CancelOp(s, id).s, h.(fate := h.fate + Fates(s, op)));
    case Join(id) => JoinAsked(s, h, id); AskedMatched(JoinOp(s, id).s, Record(h, s, op));
    case Yield => YieldAsked(s, h); AskedMatched(YieldOp(s).s, Record(h, s, op));
    case Exit(status) => ExitAsked(s, h, status);
  }

  // Over any legal run the n-th status returned to a thread is that of the n-th
  // thread that it asked for.
  lemma {:induction false} RunMatched(s: State, h: History, ops: seq<Op>)
    requires Inv(s) && AskedOk(s, h) && LegalRun(s, ops)
    ensures Matched(RunHistory(s, h, ops))
    decreases |ops|
  {
    hide Core, AskedOk, Matched, Record, Step;
    if |ops| == 0 {
      AskedMatched(s, h);
    } else {
      StepKeeps(s, ops[0]);
      StepAsked(s, h, ops[0]);
      if Step(s, ops[0]).Next? {
        RunMatched(Step(s, ops[0]).s, Record(h, s, ops[0]), ops[1..]);
      }
    }
  }

  lemma InitAsked()
    ensures AskedOk(Init(), History(map[], [], []))
  {
    forall w | Live(Init(), w) ensures Asking(Init(), History(map[], [], []), w) {
      assert w == 0 && Get(Init(), 0).pending == -1;
    }
  }

  // From the start of the library on, each status that a join returns is the one
  // with which the thread terminated that had the given id when the join was
  // called, and no thread's status is returned twice.
  lemma {:induction false} JoinsReturnTheirStatus(ops: seq<Op>)
    requires Inv(Init()) && LegalRun(Init(), ops)
    ensures var h := RunHistory(Init(), History(map[], [], []), ops); LogOk(h) && Matched(h)
  {
    InitHistory();
    StatusesDeliveredOnce(Init(), History(map[], [], []), ops);
    InitAsked();
    RunMatched(Init(), History(map[], [], []), ops);
  }
}
