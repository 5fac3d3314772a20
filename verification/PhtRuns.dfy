// Whole runs of the concurrent table: nothing is lost, and when all adds finish.
module PhtRuns {
  import opened Common
  import opened PhtBase
  import opened PhtV2
  import opened PhtLinear

  // The empty table and threads that have yet to make their calls.
  function Start(programs: seq<seq<Call>>): State {
    State([], seq(HASH_TABLE_CAPACITY, _ => -1), seq(HASH_TABLE_CAPACITY, _ => -1),
          seq(|programs|, i requires 0 <= i < |programs| => Thread(programs[i], Idle)), [], [], false)
  }

  // A key of bucket b has been added twice.
  ghost predicate Updated(log: seq<Pair>, b: int) {
    exists i, j :: 0 <= i < j < |log| && log[i].key == log[j].key && Index(log[i].key) == b
  }

  // The owner of the lock of bucket b is not in an add on b, and so will never
  // release it.
  ghost predicate Leaked(s: State, b: int)
    requires Sized(s) && 0 <= b < HASH_TABLE_CAPACITY
  {
    var o := s.locks[b];
    o != -1 && !(0 <= o < |s.threads| && Holding(s.threads[o].pc) && Index(s.threads[o].pc.k) == b)
  }

  // Exactly the buckets in which some key has been added twice have such a lock.
  ghost predicate OwnersOk(s: State)
    requires Sized(s)
  {
    forall b :: 0 <= b < HASH_TABLE_CAPACITY ==> (Leaked(s, b) <==> Updated(s.log, b))
  }

  lemma StartInv(programs: seq<seq<Call>>)
    ensures Inv(Start(programs)) && OwnersOk(Start(programs))
  {
  }

  // A run is any interleaving of enabled steps.
  ghost predicate IsRun(s: State, sched: seq<int>)
    requires Inv(s)
    decreases |sched|
  {
    |sched| == 0 || (Enabled(s, sched[0]) && (StepKeeps(s, sched[0]); IsRun(Step(s, sched[0]), sched[1..])))
  }

  ghost function After(s: State, sched: seq<int>): (s': State)
    requires Inv(s) && IsRun(s, sched)
    ensures Inv(s')
    decreases |sched|
  {
    if |sched| == 0 then s else
    StepKeeps(s, sched[0]);
    After(Step(s, sched[0]), sched[1..])
  }

  lemma {:induction false} RunOne(s: State, t: int, s1: State, sched: seq<int>)
    requires Inv(s) && Enabled(s, t) && s1 == Step(s, t) && Inv(s1) && IsRun(s1, sched)
    ensures IsRun(s, [t] + sched) && After(s, [t] + sched) == After(s1, sched)
  {
    hide Inv, Step;
    assert ([t] + sched)[1..] == sched;
  }

  // ---------------------------------------------------------------- conservation of adds

  // How often a thread has yet to carry out the add of pair p.
  function AddsIn(calls: seq<Call>, p: Pair): nat {
    if |calls| == 0 then 0
    else (if calls[0] == Add(p.key, p.value) then 1 else 0) + AddsIn(calls[1..], p)
  }

  predicate InAdd(pc: Pc, p: Pair) {
    (pc.AddLock? || pc.AddScan? || pc.AddStore? || pc.AddPublish?) && pc.k == p.key && pc.v == p.value
  }

  function Pending(th: Thread, p: Pair): nat {
    AddsIn(th.calls, p) + if InAdd(th.pc, p) then 1 else 0
  }

  function PendingAll(ths: seq<Thread>, p: Pair): nat {
    if |ths| == 0 then 0 else Pending(ths[0], p) + PendingAll(ths[1..], p)
  }

  // Adds of p in the log and still to be done.
  function Adds(s: State, p: Pair): nat { multiset(s.log)[p] + PendingAll(s.threads, p) }

  lemma {:induction false} PendingUpdate(ths: seq<Thread>, t: int, th: Thread, p: Pair)
    requires 0 <= t < |ths|
    ensures PendingAll(ths[t := th], p) + Pending(ths[t], p) == PendingAll(ths, p) + Pending(th, p)
  {
    hide Pending;
    var ths' := ths[t := th];
    if t == 0 {
      assert ths'[1..] == ths[1..];
    } else {
      assert ths'[1..] == ths[1..][t - 1 := th];
      PendingUpdate(ths[1..], t - 1, th, p);
    }
  }

  lemma LogCount(log: seq<Pair>, x: Pair, p: Pair)
    ensures multiset(log + [x])[p] == multiset(log)[p] + if x == p then 1 else 0
  {
  }

  lemma OnlyMover(s: State, t: int)
    requires Sized(s) && Enabled(s, t)
    ensures |Step(s, t).threads| == |s.threads| && Step(s, t).threads == s.threads[t := Step(s, t).threads[t]]
  {
    hide AddAll, Contains, GetValue, Index, Find;
  }

  lemma PendingLogged(s: State, t: int, p: Pair)
    requires Sized(s) && Enabled(s, t) && (s.threads[t].pc.AddStore? || s.threads[t].pc.AddPublish?)
    ensures Step(s, t).log == s.log + [Pair(s.threads[t].pc.k, s.threads[t].pc.v)] && |Step(s, t).threads| == |s.threads|
    ensures Pending(s.threads[t], p) == Pending(Step(s, t).threads[t], p) + if Pair(s.threads[t].pc.k, s.threads[t].pc.v) == p then 1 else 0
  {
    hide AddAll, Contains, GetValue, Index, AddsIn, Find;
  }

  lemma PendingStays(s: State, t: int, p: Pair)
    requires Sized(s) && Enabled(s, t) && !s.threads[t].pc.AddStore? && !s.threads[t].pc.AddPublish?
    ensures Step(s, t).log == s.log && |Step(s, t).threads| == |s.threads|
    ensures Pending(Step(s, t).threads[t], p) == Pending(s.threads[t], p)
  {
    hide AddAll, Contains, GetValue, Index, Find;
  }

  // Beginning an add moves it from the calls to the program counter, its update
  // or insert step moves it on to the log, and no other step moves one.
  lemma PendingMoved(s: State, t: int, p: Pair)
    requires Sized(s) && Enabled(s, t)
    ensures |Step(s, t).threads| == |s.threads| && Step(s, t).threads == s.threads[t := Step(s, t).threads[t]]
    ensures multiset(Step(s, t).log)[p] + Pending(Step(s, t).threads[t], p) == multiset(s.log)[p] + Pending(s.threads[t], p)
  {
    hide AddAll, Contains, GetValue, Index, AddsIn, Pending, Find;
    OnlyMover(s, t);
    var pc := s.threads[t].pc;
    if pc.AddStore? || pc.AddPublish? {
      LogCount(s.log, Pair(pc.k, pc.v), p);
      PendingLogged(s, t, p);
    } else {
      PendingStays(s, t, p);
    }
  }

  // Every add is either still to be done or in the log, exactly once.
  lemma AddsConserved(s: State, t: int, p: Pair)
    requires Sized(s) && Enabled(s, t)
    ensures Adds(Step(s, t), p) == Adds(s, p)
  {
    hide Step, Pending;
    PendingMoved(s, t, p);
    PendingUpdate(s.threads, t, Step(s, t).threads[t], p);
  }

  lemma {:induction false} RunConserves(s: State, sched: seq<int>, p: Pair)
    requires Inv(s) && IsRun(s, sched)
    ensures Adds(After(s, sched), p) == Adds(s, p)
    decreases |sched|
  {
    hide Refines, ThreadsOk, AnswersOk, LocksOk, Step, Adds;
    if |sched| > 0 {
      StepKeeps(s, sched[0]);
      AddsConserved(s, sched[0], p);
      RunConserves(Step(s, sched[0]), sched[1..], p);
    }
  }

  // Linearizability: after any interleaving the lists are the buckets of the
  // sequential table after some order of exactly the adds carried out so far,
  // with each key once and in its own bucket, and every answer given was right.
  lemma {:induction false} RunLinearizes(programs: seq<seq<Call>>, sched: seq<int>)
    requires Inv(Start(programs)) && IsRun(Start(programs), sched)
    ensures var s := After(Start(programs), sched);
      && (forall b :: 0 <= b < HASH_TABLE_CAPACITY ==> ListFrom(s.nodes, s.heads[b]) == AddAll(s.log)[b])
      && WellPlaced(AddAll(s.log))
      && (forall p :: Adds(s, p) == Adds(Start(programs), p))
      && AnswersOk(s)
  {
    forall p ensures Adds(After(Start(programs), sched), p) == Adds(Start(programs), p) {
      RunConserves(Start(programs), sched, p);
    }
    AddAllPlaced(After(Start(programs), sched).log);
  }

  // ---------------------------------------------------------------- locks that stay taken

  lemma UpdatedKept(log: seq<Pair>, p: Pair, b: int)
    requires Updated(log, b)
    ensures Updated(log + [p], b)
  {
    var i, j :| 0 <= i < j < |log| && log[i].key == log[j].key && Index(log[i].key) == b;
    assert (log + [p])[i] == log[i] && (log + [p])[j] == log[j];
  }

  // The update path leaves its lock taken for ever, and it is taken only when
  // the key has been added before.
  lemma StoreLeaks(s: State, t: int)
    requires Inv(s) && Enabled(s, t) && s.threads[t].pc.AddStore?
    ensures var b := Index(s.threads[t].pc.k); Inv(Step(s, t)) && Leaked(Step(s, t), b) && Updated(Step(s, t).log, b)
  {
    StepKeeps(s, t);
    var k, v := s.threads[t].pc.k, s.threads[t].pc.v;
    assert PcOk(s, s.threads[t].pc);
    FindIsFindIn(s.nodes, s.heads[Index(k)], k);
    AddAllContains(s.log, k);
    var i :| 0 <= i < |s.log| && s.log[i].key == k;
    var log' := s.log + [Pair(k, v)];
    assert log'[i].key == k && log'[|s.log|].key == k;
  }

  // Only the mover takes or releases a lock, and it holds the lock of the
  // bucket to which it adds.
  lemma LocksMoved(s: State, t: int)
    requires Sized(s) && Enabled(s, t)
    ensures var s', pc := Step(s, t), s.threads[t].pc;
      && |s'.threads| == |s.threads| && |s'.locks| == |s.locks|
      && (forall u :: 0 <= u < |s.threads| && u != t ==> s'.threads[u] == s.threads[u])
      && (forall b :: 0 <= b < |s.locks| && s'.locks[b] != s.locks[b] ==>
        if s'.locks[b] == -1 then pc.AddUnlock? && Index(pc.k) == b
        else s.locks[b] == -1 && s'.locks[b] == t && Holding(s'.threads[t].pc) && s'.threads[t].pc.k == pc.k && Index(pc.k) == b)
      && (Holding(s'.threads[t].pc) ==>
        s'.threads[t].pc.k == pc.k && (Holding(pc) || (pc.AddLock? && s.locks[Index(pc.k)] == -1)))
      && (pc.AddUnlock? ==> s'.locks[Index(pc.k)] == -1)
      && (Holding(pc) && !Holding(s'.threads[t].pc) ==> pc.AddStore? || pc.AddUnlock?)
  {
    hide AddAll, Contains, GetValue, Find;
  }

  // A lock once left taken stays so.
  lemma LeakedForever(s: State, t: int, b: int)
    requires Inv(s) && Enabled(s, t) && 0 <= b < HASH_TABLE_CAPACITY && Leaked(s, b)
    ensures Inv(Step(s, t)) && Leaked(Step(s, t), b)
  {
    hide Refines, ThreadsOk, AddAll, AnswersOk, Step, Index;
    StepKeeps(s, t);
    LocksMoved(s, t);
  }

  // The log grows by the mover's pair, at its update or insert step.
  lemma LogGrows(s: State, t: int)
    requires Sized(s) && Enabled(s, t)
    ensures var pc := s.threads[t].pc;
      Step(s, t).log == if pc.AddStore? || pc.AddPublish? then s.log + [Pair(pc.k, pc.v)] else s.log
  {
    hide AddAll, Contains, GetValue, Find;
  }

  // A bucket gets its first repeated key by an update.
  lemma UpdatedByStore(s: State, t: int, b: int)
    requires Inv(s) && Enabled(s, t) && Updated(Step(s, t).log, b) && !Updated(s.log, b)
    ensures s.threads[t].pc.AddStore? && Index(s.threads[t].pc.k) == b
  {
    hide AddAll, Step, Index, AllIn;
    LogGrows(s, t);
    var pc, log' := s.threads[t].pc, Step(s, t).log;
    var i, j :| 0 <= i < j < |log'| && log'[i].key == log'[j].key && Index(log'[i].key) == b;
    assert j == |s.log| && s.log[i].key == pc.k;
    AddAllContains(s.log, pc.k);
    assert PcOk(s, pc);
    FindIsFindIn(s.nodes, s.heads[Index(pc.k)], pc.k);
  }

  lemma LeakedByStore(s: State, t: int, b: int)
    requires Inv(s) && OwnersOk(s) && Enabled(s, t) && Inv(Step(s, t)) && 0 <= b < HASH_TABLE_CAPACITY && Leaked(Step(s, t), b)
    ensures Updated(Step(s, t).log, b)
  {
    hide Refines, ThreadsOk, AddAll, AnswersOk, Step, Index;
    LocksMoved(s, t);
    LogGrows(s, t);
    if Leaked(s, b) {
      if Step(s, t).log != s.log { UpdatedKept(s.log, Step(s, t).log[|s.log|], b); }
    } else {
      assert s.threads[t].pc.AddStore?;
      StoreLeaks(s, t);
    }
  }

  lemma OwnersKept(s: State, t: int)
    requires Inv(s) && OwnersOk(s) && Enabled(s, t)
    ensures Inv(Step(s, t)) && OwnersOk(Step(s, t))
  {
    hide Refines, ThreadsOk, AddAll, AnswersOk, Step, Index, LocksOk;
    StepKeeps(s, t);
    forall b | 0 <= b < HASH_TABLE_CAPACITY ensures Leaked(Step(s, t), b) <==> Updated(Step(s, t).log, b) {
      if Updated(Step(s, t).log, b) {
        if Updated(s.log, b) {
          LeakedForever(s, t, b);
        } else {
          UpdatedByStore(s, t, b);
          StoreLeaks(s, t);
        }
      } else if Leaked(Step(s, t), b) {
        LeakedByStore(s, t, b);
      }
    }
  }

  // An add that waits for such a lock waits for ever.
  lemma {:induction false} WaitsForEver(s: State, sched: seq<int>, u: int, b: int)
    requires Inv(s) && IsRun(s, sched) && 0 <= b < HASH_TABLE_CAPACITY && Leaked(s, b)
    requires 0 <= u < |s.threads| && s.threads[u].pc.AddLock? && Index(s.threads[u].pc.k) == b
    ensures var s' := After(s, sched); |s'.threads| == |s.threads| && s'.threads[u] == s.threads[u] && !Enabled(s', u)
    decreases |sched|
  {
    if |sched| > 0 {
      LeakedForever(s, sched[0], b);
      assert sched[0] != u;
      LocksMoved(s, sched[0]);
      WaitsForEver(Step(s, sched[0]), sched[1..], u, b);
    }
  }

  // ---------------------------------------------------------------- when an add gives its lock back

  lemma ScanSees(s: State, t: int)
    requires Inv(s) && 0 <= t < |s.threads| && s.threads[t].pc.AddScan?
    ensures Contains(AddAll(s.log), s.threads[t].pc.k) <==> Find(s.nodes, s.threads[t].pc.cur, s.threads[t].pc.k) >= 0
  {
    hide AddAll, AllIn;
    var pc := s.threads[t].pc;
    assert PcOk(s, pc);
    FindIsFindIn(s.nodes, s.heads[Index(pc.k)], pc.k);
  }

  // The scan of an add ends in an update if the key is in the table, and in an
  // insert otherwise.
  lemma {:induction false} ScanAlone(s: State, t: int) returns (sched: seq<int>)
    requires Inv(s) && !s.aborted && 0 <= t < |s.threads| && s.threads[t].pc.AddScan?
    ensures IsRun(s, sched)
    ensures var s', pc := After(s, sched), s.threads[t].pc;
      && !s'.aborted && s'.log == s.log && |s'.threads| == |s.threads| && s'.locks == s.locks
      && s'.threads[t].calls == s.threads[t].calls
      && (Contains(AddAll(s.log), pc.k) ==> s'.threads[t].pc.AddStore?)
      && (!Contains(AddAll(s.log), pc.k) ==> s'.threads[t].pc.AddPublish?)
      && (s'.threads[t].pc.AddStore? || s'.threads[t].pc.AddPublish?) && s'.threads[t].pc.k == pc.k && s'.threads[t].pc.v == pc.v
    decreases s.threads[t].pc.cur
  {
    hide Refines, ThreadsOk, AnswersOk, LocksOk, AddAll, Contains;
    StepKeeps(s, t);
    ScanSees(s, t);
    var s1 := Step(s, t);
    if s1.threads[t].pc.AddScan? {
      var rest := ScanAlone(s1, t);
      RunOne(s, t, s1, rest);
      sched := [t] + rest;
    } else {
      RunOne(s, t, s1, []);
      sched := [t] + [];
    }
  }

  lemma EndAlone(s: State, t: int) returns (sched: seq<int>)
    requires Inv(s) && !s.aborted && 0 <= t < |s.threads| && (s.threads[t].pc.AddStore? || s.threads[t].pc.AddPublish?)
    requires s.locks[Index(s.threads[t].pc.k)] == t
    ensures IsRun(s, sched)
    ensures var s', pc := After(s, sched), s.threads[t].pc;
      && s'.log == s.log + [Pair(pc.k, pc.v)]
      && |s'.threads| == |s.threads| && s'.threads[t] == Thread(s.threads[t].calls, Idle)
      && s'.locks[Index(pc.k)] == if pc.AddStore? then t else -1
  {
    hide Refines, ThreadsOk, AnswersOk, LocksOk, AddAll, Contains, Index;
    StepKeeps(s, t);
    var s1 := Step(s, t);
    if s.threads[t].pc.AddStore? {
      RunOne(s, t, s1, []);
      sched := [t] + [];
    } else {
      StepKeeps(s1, t);
      var s2 := Step(s1, t);
      RunOne(s1, t, s2, []);
      RunOne(s, t, s1, [t] + []);
      sched := [t] + ([t] + []);
    }
  }

  lemma {:induction false} RunsJoin(s: State, a: seq<int>, b: seq<int>)
    requires Inv(s) && IsRun(s, a) && IsRun(After(s, a), b)
    ensures IsRun(s, a + b) && After(s, a + b) == After(After(s, a), b)
    decreases |a|
  {
    hide Refines, ThreadsOk, AnswersOk, LocksOk, Step;
    if |a| == 0 {
      assert a + b == b;
    } else {
      StepKeeps(s, a[0]);
      RunsJoin(Step(s, a[0]), a[1..], b);
      assert (a + b)[1..] == a[1..] + b && (a + b)[0] == a[0];
    }
  }

  // The exact condition under which an add gives its lock back: run to its end,
  // it is logged, and its bucket is locked for ever if and only if the key was
  // already in the table.
  lemma AddReleasesIff(s: State, t: int) returns (sched: seq<int>)
    requires Inv(s) && Enabled(s, t) && s.threads[t].pc.AddLock?
    ensures IsRun(s, sched)
    ensures var s', k := After(s, sched), s.threads[t].pc.k;
      && s'.log == s.log + [Pair(k, s.threads[t].pc.v)]
      && |s'.threads| == |s.threads| && s'.threads[t] == Thread(s.threads[t].calls, Idle)
      && (s'.locks[Index(k)] == -1 <==> !Contains(AddAll(s.log), k))
      && (Leaked(s', Index(k)) <==> Contains(AddAll(s.log), k))
  {
    hide Refines, ThreadsOk, AnswersOk, LocksOk, AddAll, Contains;
    StepKeeps(s, t);
    var s1 := Step(s, t);
    var scan := ScanAlone(s1, t);
    var s2 := After(s1, scan);
    var rest := EndAlone(s2, t);
    RunsJoin(s1, scan, rest);
    RunOne(s, t, s1, scan + rest);
    sched := [t] + (scan + rest);
  }

  // ---------------------------------------------------------------- whatever the other threads do

  // Where thread t is in an add of k that took its lock when `present` told
  // whether the key was in the table; `left` calls are to come after it.
  ghost predicate AddPhase(s: State, t: int, k: string, present: bool, left: nat)
    requires Sized(s)
  {
    && 0 <= t < |s.threads|
    && var th := s.threads[t];
    || |th.calls| < left
    || (|th.calls| == left && (
      || (th.pc.AddScan? && th.pc.k == k && Contains(AddAll(s.log), k) == present)
      || (th.pc.AddStore? && th.pc.k == k && present)
      || ((th.pc.AddPublish? || th.pc.AddUnlock?) && th.pc.k == k && !present)
      || (th.pc.Idle? && (s.locks[Index(k)] == t <==> present))))
  }

  lemma OwnPhase(s: State, t: int, k: string, present: bool, left: nat)
    requires Inv(s) && Enabled(s, t) && AddPhase(s, t, k, present, left)
    ensures Inv(Step(s, t)) && AddPhase(Step(s, t), t, k, present, left)
  {
    hide Refines, ThreadsOk, AnswersOk, AddAll, Contains;
    StepKeeps(s, t);
    if s.threads[t].pc.AddScan? { ScanSees(s, t); }
  }

  // A thread that holds the lock of a bucket is alone in adding to it.
  lemma ContainsStays(s: State, t: int, u: int)
    requires Inv(s) && Enabled(s, u) && 0 <= t < |s.threads| && t != u && Holding(s.threads[t].pc)
    ensures Contains(AddAll(Step(s, u).log), s.threads[t].pc.k) == Contains(AddAll(s.log), s.threads[t].pc.k)
  {
    hide Refines, ThreadsOk, AnswersOk, AddAll, Contains, Step, Index;
    LogGrows(s, u);
    var k, pc := s.threads[t].pc.k, s.threads[u].pc;
    if pc.AddStore? || pc.AddPublish? {
      assert Holding(pc) && pc.k != k;
      AddAllStep(s.log, pc.k, pc.v);
      AddIsMapUpdate(AddAll(s.log), pc.k, pc.v, k);
    }
  }

  lemma OtherPhase(s: State, u: int, t: int, k: string, present: bool, left: nat)
    requires Inv(s) && Enabled(s, u) && u != t && AddPhase(s, t, k, present, left)
    ensures Inv(Step(s, u)) && AddPhase(Step(s, u), t, k, present, left)
  {
    hide Refines, ThreadsOk, AnswersOk, AddAll, Contains, Step, Index;
    StepKeeps(s, u);
    LocksMoved(s, u);
    if s.threads[t].pc.AddScan? { ContainsStays(s, t, u); }
  }

  lemma {:induction false} RunPhase(s: State, sched: seq<int>, t: int, k: string, present: bool, left: nat)
    requires Inv(s) && IsRun(s, sched) && AddPhase(s, t, k, present, left)
    ensures AddPhase(After(s, sched), t, k, present, left)
    decreases |sched|
  {
    hide Refines, ThreadsOk, AnswersOk, LocksOk, Step, AddPhase;
    if |sched| > 0 {
      StepKeeps(s, sched[0]);
      if sched[0] == t {
        OwnPhase(s, t, k, present, left);
      } else {
        OtherPhase(s, sched[0], t, k, present, left);
      }
      RunPhase(Step(s, sched[0]), sched[1..], t, k, present, left);
    }
  }

  // Under any interleaving: when an add that has taken its lock has ended, its
  // thread still owns the lock if and only if the key was in the table when the
  // lock was taken.
  lemma {:induction false} HeldAddEnds(s: State, sched: seq<int>, t: int)
    requires Inv(s) && IsRun(s, sched) && 0 <= t < |s.threads| && s.threads[t].pc.AddScan?
    ensures var s', k := After(s, sched), s.threads[t].pc.k;
      && |s'.threads| > t
      && (s'.threads[t].pc.Idle? && |s'.threads[t].calls| == |s.threads[t].calls| ==>
        (s'.locks[Index(k)] == t <==> Contains(AddAll(s.log), k)))
  {
    hide Refines, ThreadsOk, AnswersOk, LocksOk;
    var k := s.threads[t].pc.k;
    RunPhase(s, sched, t, k, Contains(AddAll(s.log), k), |s.threads[t].calls|);
  }

  // ---------------------------------------------------------------- no other deadlock

  ghost predicate Stuck(s: State)
    requires Sized(s)
  {
    !s.aborted && forall t :: 0 <= t < |s.threads| ==> !Enabled(s, t)
  }

  // Thread t has finished its calls, or waits to add to a bucket in which some
  // key has been added twice.
  ghost predicate DoneOrWaits(s: State, t: int)
    requires Sized(s) && 0 <= t < |s.threads|
  {
    Done(s.threads[t]) || (s.threads[t].pc.AddLock? && Updated(s.log, Index(s.threads[t].pc.k)))
  }

  // When no thread can move, each unfinished one waits to add to a bucket in
  // which some key has been added twice.
  lemma StuckMeansUpdated(s: State, t: int)
    requires Inv(s) && OwnersOk(s) && Stuck(s) && 0 <= t < |s.threads| && !Done(s.threads[t])
    ensures s.threads[t].pc.AddLock? && Updated(s.log, Index(s.threads[t].pc.k))
  {
    var b := if s.threads[t].pc.Idle? then 0 else Index(s.threads[t].pc.k);
    var o := s.locks[b];
    assert !Enabled(s, t);
    if 0 <= o < |s.threads| { assert !Enabled(s, o); }
    assert Leaked(s, b) ==> Updated(s.log, b);
  }

  // The exact deadlocks: no thread can move if and only if each has finished or
  // waits to add to a bucket in which some key has been added twice.
  lemma StuckIff(s: State)
    requires Inv(s) && OwnersOk(s) && !s.aborted
    ensures Stuck(s) <==> forall t :: 0 <= t < |s.threads| ==> DoneOrWaits(s, t)
  {
    if Stuck(s) {
      forall t | 0 <= t < |s.threads| ensures DoneOrWaits(s, t) {
        if !Done(s.threads[t]) { StuckMeansUpdated(s, t); }
      }
    } else {
      var t :| 0 <= t < |s.threads| && Enabled(s, t);
      if s.threads[t].pc.AddLock? {
        var b := Index(s.threads[t].pc.k);
        assert Leaked(s, b) <==> Updated(s.log, b);
      }
      assert !DoneOrWaits(s, t);
    }
  }

  // No two of the adds, wherever they are, have the same key.
  ghost predicate DistinctKeys(s: State) {
    && (forall p :: Adds(s, p) <= 1)
    && (forall p: Pair, q: Pair :: p != q && p.key == q.key ==> Adds(s, p) + Adds(s, q) <= 1)
  }

  lemma TwiceInSeq(log: seq<Pair>, i: int, j: int)
    requires 0 <= i < j < |log| && log[i] == log[j]
    ensures multiset(log)[log[i]] >= 2
  {
    assert log == log[..j] + [log[j]] + log[j + 1..];
    assert log[i] in log[..j];
  }

  lemma DistinctMeansNoUpdate(s: State, b: int)
    requires DistinctKeys(s)
    ensures !Updated(s.log, b)
  {
    hide PendingAll;
    forall i, j | 0 <= i < j < |s.log| ensures s.log[i].key != s.log[j].key {
      assert multiset(s.log)[s.log[i]] >= 1 && multiset(s.log)[s.log[j]] >= 1;
      assert Adds(s, s.log[i]) >= 1 && Adds(s, s.log[j]) >= 1;
      if s.log[i] == s.log[j] { TwiceInSeq(s.log, i, j); }
    }
  }

  lemma {:induction false} RunOwners(s: State, sched: seq<int>)
    requires Inv(s) && OwnersOk(s) && IsRun(s, sched)
    ensures OwnersOk(After(s, sched))
    decreases |sched|
  {
    hide Refines, ThreadsOk, AnswersOk, LocksOk, Step, OwnersOk;
    if |sched| > 0 {
      OwnersKept(s, sched[0]);
      RunOwners(Step(s, sched[0]), sched[1..]);
    }
  }

  // In every state of every run, the buckets that are locked for ever are those
  // in which some key has been added twice, and these are the only deadlocks.
  lemma {:induction false} RunDeadlocks(programs: seq<seq<Call>>, sched: seq<int>)
    requires Inv(Start(programs)) && IsRun(Start(programs), sched)
    ensures var s := After(Start(programs), sched);
      && (forall b :: 0 <= b < HASH_TABLE_CAPACITY ==> (Leaked(s, b) <==> Updated(s.log, b)))
      && (!s.aborted ==> (Stuck(s) <==> forall t :: 0 <= t < |s.threads| ==> DoneOrWaits(s, t)))
  {
    hide Leaked, Updated, Stuck, DoneOrWaits, Start;
    StartInv(programs);
    RunOwners(Start(programs), sched);
    if !After(Start(programs), sched).aborted { StuckIff(After(Start(programs), sched)); }
  }

  lemma {:induction false} RunDistinct(s: State, sched: seq<int>)
    requires Inv(s) && IsRun(s, sched) && DistinctKeys(s)
    ensures DistinctKeys(After(s, sched))
  {
    hide Inv, Adds;
    forall p ensures Adds(After(s, sched), p) == Adds(s, p) {
      RunConserves(s, sched, p);
    }
  }

  // With pairwise distinct keys there is no deadlock: a run that cannot go on
  // has finished every call, or get_value has failed its assertion on a key that
  // was not in the table.
  lemma {:induction false} DistinctKeysFinish(programs: seq<seq<Call>>, sched: seq<int>)
    requires Inv(Start(programs)) && IsRun(Start(programs), sched) && DistinctKeys(Start(programs))
    requires forall t :: !Enabled(After(Start(programs), sched), t)
    ensures var s := After(Start(programs), sched);
      if s.aborted then |s.answers| > 0 && s.answers[|s.answers| - 1].GetFailed? && !s.answers[|s.answers| - 1].spec
      else forall t :: 0 <= t < |s.threads| ==> Done(s.threads[t])
  {
    var s0 := Start(programs);
    var s := After(s0, sched);
    StartInv(programs);
    RunOwners(s0, sched);
    RunDistinct(s0, sched);
    if !s.aborted {
      forall t | 0 <= t < |s.threads| ensures Done(s.threads[t]) {
        if !Done(s.threads[t]) {
          StuckMeansUpdated(s, t);
          DistinctMeansNoUpdate(s, Index(s.threads[t].pc.k));
        }
      }
    }
  }

  // ---------------------------------------------------------------- termination

  // The adds of a thread that may still make a node.
  function MayMake(calls: seq<Call>): nat {
    if |calls| == 0 then 0 else (if calls[0].Add? then 1 else 0) + MayMake(calls[1..])
  }

  function Makers(th: Thread): nat {
    MayMake(th.calls) + if th.pc.AddLock? || th.pc.AddScan? then 1 else 0
  }

  function MakersAll(ths: seq<Thread>): nat {
    if |ths| == 0 then 0 else Makers(ths[0]) + MakersAll(ths[1..])
  }

  // An upper bound of the number of nodes there will ever be.
  function NodeBound(s: State): nat { |s.nodes| + MakersAll(s.threads) }

  // The steps left in a call when there are never more than n nodes.
  function StepsLeft(pc: Pc, n: nat): int {
    match pc
    case Idle => 0
    case AddLock(_, _) => n + 4
    case AddScan(_, _, cur) => cur + 4
    case AddStore(_, _, _) => 1
    case AddPublish(_, _, _) => 2
    case AddUnlock(_) => 1
    case HasScan(_, cur, _) => cur + 2
    case GetScan(_, cur, _) => cur + 3
    case GetLoad(_, _) => 1
  }

  function Rank(th: Thread, n: nat): int { |th.calls| * (n + 5) + StepsLeft(th.pc, n) }

  function RankAll(ths: seq<Thread>, n: nat): int {
    if |ths| == 0 then 0 else Rank(ths[0], n) + RankAll(ths[1..], n)
  }

  lemma {:induction false} RankUpdate(ths: seq<Thread>, t: int, th: Thread, n: nat)
    requires 0 <= t < |ths|
    ensures RankAll(ths[t := th], n) + Rank(ths[t], n) == RankAll(ths, n) + Rank(th, n)
    ensures MakersAll(ths[t := th]) + Makers(ths[t]) == MakersAll(ths) + Makers(th)
  {
    hide Rank, Makers;
    var ths' := ths[t := th];
    if t == 0 {
      assert ths'[1..] == ths[1..];
    } else {
      assert ths'[1..] == ths[1..][t - 1 := th];
      RankUpdate(ths[1..], t - 1, th, n);
    }
  }

  function Budget(s: State): int { RankAll(s.threads, NodeBound(s)) + if s.aborted then 0 else 1 }

  function Spent(s: State, n: nat): int { RankAll(s.threads, n) + if s.aborted then 0 else 1 }

  lemma Product(a: nat, b: nat)
    ensures a * b >= 0
  {
  }

  lemma {:induction false} RankNonNegative(ths: seq<Thread>, n: nat, m: nat)
    requires forall t :: 0 <= t < |ths| ==> PcSized(ths[t].pc, m)
    ensures RankAll(ths, n) >= 0
  {
    if |ths| > 0 {
      RankNonNegative(ths[1..], n, m);
      assert PcSized(ths[0].pc, m);
      Product(|ths[0].calls|, n + 5);
    }
  }

  lemma MoverSpends(s: State, t: int, n: nat)
    requires Sized(s) && Enabled(s, t) && |s.nodes| <= n
    ensures |Step(s, t).threads| == |s.threads| && Step(s, t).threads == s.threads[t := Step(s, t).threads[t]]
    ensures |Step(s, t).nodes| + Makers(Step(s, t).threads[t]) <= |s.nodes| + Makers(s.threads[t])
    ensures Rank(Step(s, t).threads[t], n) + (if Step(s, t).aborted then 0 else 1) < Rank(s.threads[t], n) + 1
  {
    hide AddAll, Contains, GetValue, Index;
    var th := s.threads[t];
    if th.pc.Idle? {
      assert |th.calls| * (n + 5) == (|th.calls| - 1) * (n + 5) + (n + 5);
    }
  }

  // Each step uses up some of a budget that is fixed at the start.
  lemma StepSpends(s: State, t: int, n: nat)
    requires Sized(s) && Enabled(s, t) && NodeBound(s) <= n
    ensures Spent(Step(s, t), n) < Spent(s, n)
    ensures NodeBound(Step(s, t)) <= NodeBound(s)
  {
    hide Step, Rank, Makers;
    MoverSpends(s, t, n);
    RankUpdate(s.threads, t, Step(s, t).threads[t], n);
  }

  lemma SpentNonNegative(s: State, n: nat)
    requires Sized(s)
    ensures Spent(s, n) >= 0
  {
    RankNonNegative(s.threads, n, |s.nodes|);
  }

  lemma {:induction false} RunSpends(s: State, sched: seq<int>, n: nat)
    requires Inv(s) && IsRun(s, sched) && NodeBound(s) <= n
    ensures |sched| <= Spent(s, n)
    decreases |sched|
  {
    hide Refines, ThreadsOk, AnswersOk, LocksOk, Step, Spent, NodeBound;
    if |sched| > 0 {
      StepKeeps(s, sched[0]);
      StepSpends(s, sched[0], n);
      RunSpends(Step(s, sched[0]), sched[1..], n);
    } else {
      SpentNonNegative(s, n);
    }
  }

  // No run is longer than the budget, so every schedule comes to an end.
  lemma {:induction false} RunsEnd(s: State, sched: seq<int>)
    requires Inv(s) && IsRun(s, sched)
    ensures |sched| <= Budget(s)
  {
    RunSpends(s, sched, NodeBound(s));
  }

  // ---------------------------------------------------------------- a deadlock

  // What one thread sees of itself and of its bucket.
  ghost predicate Sees(s: State, calls: seq<Call>, pc: Pc, head: int, lock: int, k: string)
    requires Sized(s)
  {
    && |s.threads| == 1 && s.threads[0] == Thread(calls, pc) && !s.aborted
    && s.heads[Index(k)] == head && s.locks[Index(k)] == lock
    && (|s.nodes| > 0 <==> head == 0) && (head == 0 ==> s.nodes[0].key == k) && (head != 0 ==> head == -1)
  }

  lemma {:induction false} Steps5(s: State, s1: State, s2: State, s3: State, s4: State, s5: State)
    requires Inv(s) && Inv(s1) && Inv(s2) && Inv(s3) && Inv(s4) && Inv(s5)
    requires Enabled(s, 0) && s1 == Step(s, 0) && Enabled(s1, 0) && s2 == Step(s1, 0) && Enabled(s2, 0) && s3 == Step(s2, 0)
    requires Enabled(s3, 0) && s4 == Step(s3, 0) && Enabled(s4, 0) && s5 == Step(s4, 0)
    ensures exists sched :: IsRun(s, sched) && After(s, sched) == s5
  {
    hide Refines, ThreadsOk, AnswersOk, LocksOk, Step;
    RunOne(s4, 0, s5, []);
    RunOne(s3, 0, s4, [0] + []);
    RunOne(s2, 0, s3, [0] + ([0] + []));
    RunOne(s1, 0, s2, [0] + ([0] + ([0] + [])));
    RunOne(s, 0, s1, [0] + ([0] + ([0] + ([0] + []))));
  }

  // The first add of a key, alone, takes five steps and releases the lock.
  lemma FirstAdd(s: State, k: string, v: Word, rest: seq<Call>) returns (s': State)
    requires Inv(s) && Sees(s, [Add(k, v)] + rest, Idle, -1, -1, k)
    ensures exists sched :: IsRun(s, sched) && After(s, sched) == s'
    ensures Inv(s') && Sees(s', rest, Idle, 0, -1, k)
  {
    hide Refines, ThreadsOk, AnswersOk, LocksOk, AddAll, Contains;
    assert ([Add(k, v)] + rest)[1..] == rest;
    StepKeeps(s, 0);
    var s1 := Step(s, 0);
    assert Sees(s1, rest, AddLock(k, v), -1, -1, k);
    StepKeeps(s1, 0);
    var s2 := Step(s1, 0);
    assert Sees(s2, rest, AddScan(k, v, -1), -1, 0, k);
    StepKeeps(s2, 0);
    var s3 := Step(s2, 0);
    StepKeeps(s3, 0);
    var s4 := Step(s3, 0);
    assert Sees(s4, rest, AddUnlock(k), 0, 0, k);
    StepKeeps(s4, 0);
    s' := Step(s4, 0);
    Steps5(s, s1, s2, s3, s4, s');
  }

  // The second add of the key leaves the lock taken, and the third waits for it:
  // one thread, three adds of one key, and no step is enabled.
  lemma RepeatedKeySticks(s: State, k: string, v: Word, w: Word) returns (s': State)
    requires Inv(s) && Sees(s, [Add(k, v), Add(k, w)], Idle, 0, -1, k)
    ensures exists sched :: IsRun(s, sched) && After(s, sched) == s'
    ensures Inv(s') && Stuck(s') && |s'.threads| == 1 && !Done(s'.threads[0])
  {
    hide Refines, ThreadsOk, AnswersOk, LocksOk, AddAll, Contains;
    assert [Add(k, v), Add(k, w)][1..] == [Add(k, w)] && [Add(k, w)][1..] == [];
    StepKeeps(s, 0);
    var s1 := Step(s, 0);
    assert Sees(s1, [Add(k, w)], AddLock(k, v), 0, -1, k);
    StepKeeps(s1, 0);
    var s2 := Step(s1, 0);
    assert Sees(s2, [Add(k, w)], AddScan(k, v, 0), 0, 0, k);
    StepKeeps(s2, 0);
    var s3 := Step(s2, 0);
    assert Sees(s3, [Add(k, w)], AddStore(k, v, 0), 0, 0, k);
    StepKeeps(s3, 0);
    var s4 := Step(s3, 0);
    assert Sees(s4, [Add(k, w)], Idle, 0, 0, k);
    StepKeeps(s4, 0);
    s' := Step(s4, 0);
    assert Sees(s', [], AddLock(k, w), 0, 0, k);
    Steps5(s, s1, s2, s3, s4, s');
  }

  lemma StartSees(k: string, v: Word)
    ensures Inv(Start([[Add(k, v), Add(k, v), Add(k, v)]]))
    ensures Sees(Start([[Add(k, v), Add(k, v), Add(k, v)]]), [Add(k, v)] + [Add(k, v), Add(k, v)], Idle, -1, -1, k)
  {
    StartInv([[Add(k, v), Add(k, v), Add(k, v)]]);
  }

  lemma ThreeAddsStick(k: string, v: Word) returns (sched: seq<int>)
    ensures var s := Start([[Add(k, v), Add(k, v), Add(k, v)]]);
      Inv(s) && IsRun(s, sched) && Stuck(After(s, sched)) && |After(s, sched).threads| == 1 && !Done(After(s, sched).threads[0])
  {
    var s := Start([[Add(k, v), Add(k, v), Add(k, v)]]);
    StartSees(k, v);
    hide Refines, ThreadsOk, AnswersOk, LocksOk, Step, Sees, Start;
    var s1 := FirstAdd(s, k, v, [Add(k, v), Add(k, v)]);
    var s2 := RepeatedKeySticks(s1, k, v, v);
    var a :| IsRun(s, a) && After(s, a) == s1;
    var b :| IsRun(s1, b) && After(s1, b) == s2;
    RunsJoin(s, a, b);
    sched := a + b;
  }
}
