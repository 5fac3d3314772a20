// Which programs can get stuck: the exact condition on the calls alone.
module PhtPrograms {
  import opened PhtBase
  import opened PhtV2
  import opened PhtLinear
  import opened PhtRuns

  // ---------------------------------------------------------------- calls of a program

  // The i-th call of thread t.
  datatype Site = Site(t: int, i: int)

  predicate IsAdd(programs: seq<seq<Call>>, a: Site) {
    0 <= a.t < |programs| && 0 <= a.i < |programs[a.t]| && programs[a.t][a.i].Add?
  }

  function KeyAt(programs: seq<seq<Call>>, a: Site): string
    requires IsAdd(programs, a)
  {
    programs[a.t][a.i].key
  }

  // Some interleaving makes call a before call c.
  predicate MayPrecede(a: Site, c: Site) { a.t == c.t ==> a.i < c.i }

  // Two adds of one key that may both come before a third add to their bucket.
  ghost predicate ThirdAdd(programs: seq<seq<Call>>, a: Site, b: Site, c: Site) {
    && IsAdd(programs, a) && IsAdd(programs, b) && IsAdd(programs, c) && a != b
    && KeyAt(programs, a) == KeyAt(programs, b) && Index(KeyAt(programs, c)) == Index(KeyAt(programs, a))
    && MayPrecede(a, c) && MayPrecede(b, c)
  }

  ghost predicate HasThirdAdd(programs: seq<seq<Call>>) {
    exists a, b, c :: ThirdAdd(programs, a, b, c)
  }

  // ---------------------------------------------------------------- where a run is in its programs

  // In an add that is not yet in the log.
  predicate Adding(pc: Pc) { pc.AddLock? || pc.AddScan? || pc.AddStore? || pc.AddPublish? }

  ghost predicate Follows(prog: seq<Call>, th: Thread) {
    && |th.calls| <= |prog| && th.calls == prog[|prog| - |th.calls|..]
    && (Adding(th.pc) ==> |th.calls| < |prog| && prog[|prog| - |th.calls| - 1] == Add(th.pc.k, th.pc.v))
  }

  // The number of calls that have been begun, without an add that is not in the log.
  function Past(prog: seq<Call>, th: Thread): int {
    |prog| - |th.calls| - if Adding(th.pc) then 1 else 0
  }

  // src tells which call made each entry of the log: each past add made one.
  ghost predicate Traced(programs: seq<seq<Call>>, s: State, src: seq<Site>) {
    && |s.threads| == |programs| && |src| == |s.log|
    && (forall t :: 0 <= t < |programs| ==> Follows(programs[t], s.threads[t]))
    && (forall n :: 0 <= n < |src| ==>
      IsAdd(programs, src[n]) && KeyAt(programs, src[n]) == s.log[n].key && src[n].i < Past(programs[src[n].t], s.threads[src[n].t]))
    && (forall n, m :: 0 <= n < m < |src| ==> src[n] != src[m])
    && (forall a :: IsAdd(programs, a) && a.i < Past(programs[a.t], s.threads[a.t]) ==> a in src)
  }

  lemma ThreadMoves(prog: seq<Call>, s: State, t: int)
    requires Sized(s) && Enabled(s, t) && Follows(prog, s.threads[t])
    ensures |Step(s, t).threads| == |s.threads|
    ensures var th, th' := s.threads[t], Step(s, t).threads[t];
      && Follows(prog, th')
      && Past(prog, th) >= 0
      && (th.pc.AddStore? || th.pc.AddPublish? ==>
        Past(prog, th') == Past(prog, th) + 1 && Past(prog, th) < |prog| && prog[Past(prog, th)] == Add(th.pc.k, th.pc.v))
      && (!th.pc.AddStore? && !th.pc.AddPublish? ==>
        || Past(prog, th') == Past(prog, th)
        || (Past(prog, th') == Past(prog, th) + 1 && Past(prog, th) < |prog| && !prog[Past(prog, th)].Add?))
  {
    hide AddAll, Contains, GetValue, Index, Find;
    var th := s.threads[t];
    if th.pc.Idle? {
      assert th.calls[0] == prog[|prog| - |th.calls|];
      assert th.calls[1..] == prog[|prog| - |th.calls| + 1..];
    }
  }

  lemma TraceLogged(programs: seq<seq<Call>>, s: State, src: seq<Site>, t: int, s': State, p: Pair)
    requires Traced(programs, s, src) && 0 <= t < |s.threads| && |s'.threads| == |s.threads| && s'.log == s.log + [p]
    requires forall u :: 0 <= u < |s.threads| && u != t ==> s'.threads[u] == s.threads[u]
    requires Follows(programs[t], s'.threads[t]) && Past(programs[t], s'.threads[t]) == Past(programs[t], s.threads[t]) + 1
    requires 0 <= Past(programs[t], s.threads[t]) < |programs[t]| && programs[t][Past(programs[t], s.threads[t])] == Add(p.key, p.value)
    ensures Traced(programs, s', src + [Site(t, Past(programs[t], s.threads[t]))])
  {
    hide Follows, Past;
    var x := Site(t, Past(programs[t], s.threads[t]));
    var src' := src + [x];
    forall a | IsAdd(programs, a) && a.i < Past(programs[a.t], s'.threads[a.t]) ensures a in src' {
      if a != x { assert a in src; }
    }
    forall n | 0 <= n < |src| ensures src[n] != x {
      assert IsAdd(programs, src[n]) && src[n].i < Past(programs[src[n].t], s.threads[src[n].t]);
    }
  }

  lemma TraceStays(programs: seq<seq<Call>>, s: State, src: seq<Site>, t: int, s': State)
    requires Traced(programs, s, src) && 0 <= t < |s.threads| && |s'.threads| == |s.threads| && s'.log == s.log
    requires forall u :: 0 <= u < |s.threads| && u != t ==> s'.threads[u] == s.threads[u]
    requires Follows(programs[t], s'.threads[t]) && Past(programs[t], s.threads[t]) >= 0
    requires
      || Past(programs[t], s'.threads[t]) == Past(programs[t], s.threads[t])
      || (Past(programs[t], s'.threads[t]) == Past(programs[t], s.threads[t]) + 1
        && Past(programs[t], s.threads[t]) < |programs[t]| && !programs[t][Past(programs[t], s.threads[t])].Add?)
    ensures Traced(programs, s', src)
  {
    hide Follows, Past;
    forall a | IsAdd(programs, a) && a.i < Past(programs[a.t], s'.threads[a.t]) ensures a in src {
      assert a.i < Past(programs[a.t], s.threads[a.t]);
    }
  }

  lemma TraceMoves(programs: seq<seq<Call>>, s: State, src: seq<Site>, t: int) returns (src': seq<Site>)
    requires Sized(s) && Enabled(s, t) && Traced(programs, s, src)
    ensures Traced(programs, Step(s, t), src')
  {
    hide Step, Follows, Past, IsAdd;
    var pc := s.threads[t].pc;
    OnlyMover(s, t);
    LogGrows(s, t);
    ThreadMoves(programs[t], s, t);
    if pc.AddStore? || pc.AddPublish? {
      TraceLogged(programs, s, src, t, Step(s, t), Pair(pc.k, pc.v));
      src' := src + [Site(t, Past(programs[t], s.threads[t]))];
    } else {
      TraceStays(programs, s, src, t, Step(s, t));
      src' := src;
    }
  }

  lemma StartTraced(programs: seq<seq<Call>>)
    ensures Traced(programs, Start(programs), [])
  {
  }

  lemma {:induction false} RunTraced(programs: seq<seq<Call>>, s: State, src: seq<Site>, sched: seq<int>) returns (src': seq<Site>)
    requires Inv(s) && IsRun(s, sched) && Traced(programs, s, src)
    ensures Traced(programs, After(s, sched), src')
    decreases |sched|
  {
    hide Refines, ThreadsOk, AnswersOk, LocksOk, Step, Traced;
    src' := src;
    if |sched| > 0 {
      StepKeeps(s, sched[0]);
      var src1 := TraceMoves(programs, s, src, sched[0]);
      src' := RunTraced(programs, Step(s, sched[0]), src1, sched[1..]);
    }
  }

  // ---------------------------------------------------------------- a stuck run needs a third add

  lemma WaitNeedsThird(programs: seq<seq<Call>>, s: State, src: seq<Site>, u: int)
    requires Traced(programs, s, src) && 0 <= u < |s.threads| && s.threads[u].pc.AddLock?
    requires Updated(s.log, Index(s.threads[u].pc.k))
    ensures HasThirdAdd(programs)
  {
    hide Index;
    var i, j :| 0 <= i < j < |s.log| && s.log[i].key == s.log[j].key && Index(s.log[i].key) == Index(s.threads[u].pc.k);
    assert Follows(programs[u], s.threads[u]);
    assert ThirdAdd(programs, src[i], src[j], Site(u, Past(programs[u], s.threads[u])));
  }

  // A run that no step can continue, though nothing has failed and some call is
  // not finished, needs two adds of one key and a third to the same bucket that
  // does not precede them in its thread.
  lemma {:induction false} StuckNeedsThird(programs: seq<seq<Call>>, sched: seq<int>)
    requires Inv(Start(programs)) && IsRun(Start(programs), sched) && Stuck(After(Start(programs), sched))
    requires exists u :: 0 <= u < |After(Start(programs), sched).threads| && !Done(After(Start(programs), sched).threads[u])
    ensures HasThirdAdd(programs)
  {
    hide Traced, HasThirdAdd, Updated;
    var s := After(Start(programs), sched);
    StartInv(programs);
    RunOwners(Start(programs), sched);
    StartTraced(programs);
    var src := RunTraced(programs, Start(programs), [], sched);
    var u :| 0 <= u < |s.threads| && !Done(s.threads[u]);
    StuckMeansUpdated(s, u);
    WaitNeedsThird(programs, s, src, u);
  }

  // ---------------------------------------------------------------- a third add can get a run stuck

  // No thread but t is in a call.
  ghost predicate AloneBut(s: State, t: int) {
    forall u :: 0 <= u < |s.threads| && u != t ==> s.threads[u].pc.Idle?
  }

  // Thread u waits for a lock that is never released.
  ghost predicate WaitsAtLeak(s: State, u: int)
    requires Sized(s)
  {
    0 <= u < |s.threads| && s.threads[u].pc.AddLock? && Leaked(s, Index(s.threads[u].pc.k))
  }

  ghost predicate Fails(s: State)
    requires Sized(s)
  {
    s.aborted || exists u :: WaitsAtLeak(s, u)
  }

  // Thread t has finished all but the last `left` of its calls.
  predicate Reached(s: State, t: int, left: nat) {
    0 <= t < |s.threads| && s.threads[t].pc.Idle? && |s.threads[t].calls| == left
  }

  lemma OwnStep(s: State, t: int, left: nat)
    requires Inv(s) && Enabled(s, t) && |s.threads[t].calls| >= left && !Reached(s, t, left) && AloneBut(s, t)
    ensures Inv(Step(s, t)) && |Step(s, t).threads| == |s.threads| && AloneBut(Step(s, t), t) && |Step(s, t).threads[t].calls| >= left
    ensures forall u :: 0 <= u < |s.threads| && u != t ==> Step(s, t).threads[u] == s.threads[u]
  {
    hide Refines, ThreadsOk, AnswersOk, LocksOk, AddAll, Contains, GetValue, Index, Find;
    StepKeeps(s, t);
    OnlyMover(s, t);
  }

  // One thread runs alone up to a given call, unless it fails on the way.
  lemma {:induction false} Drive(s: State, t: int, left: nat, n: nat) returns (sched: seq<int>)
    requires Inv(s) && 0 <= t < |s.threads| && |s.threads[t].calls| >= left && AloneBut(s, t) && NodeBound(s) <= n
    ensures IsRun(s, sched)
    ensures var s' := After(s, sched);
      && |s'.threads| == |s.threads|
      && (forall u :: 0 <= u < |s.threads| && u != t ==> s'.threads[u] == s.threads[u])
      && (Reached(s', t, left) || Fails(s'))
    decreases Spent(s, n)
  {
    hide Refines, ThreadsOk, AnswersOk, LocksOk, Step, Spent, NodeBound, Index;
    SpentNonNegative(s, n);
    if Reached(s, t, left) || !Enabled(s, t) {
      sched := [];
      if !Reached(s, t, left) && !s.aborted { assert WaitsAtLeak(s, t); }
    } else {
      OwnStep(s, t, left);
      StepSpends(s, t, n);
      var s1 := Step(s, t);
      SpentNonNegative(s1, n);
      var rest := Drive(s1, t, left, n);
      RunOne(s, t, s1, rest);
      sched := [t] + rest;
    }
  }

  // What a stage of the schedule has brought about: all threads are between calls.
  ghost predicate Stage(programs: seq<seq<Call>>, s: State) {
    && Inv(s) && OwnersOk(s) && |s.threads| == |programs|
    && (forall u :: 0 <= u < |s.threads| ==> s.threads[u].pc.Idle?)
    && exists src :: Traced(programs, s, src)
  }

  lemma {:induction false} StageDrive(programs: seq<seq<Call>>, s: State, t: int, left: nat) returns (sched: seq<int>)
    requires Stage(programs, s) && 0 <= t < |programs| && |s.threads[t].calls| >= left
    ensures IsRun(s, sched) && |After(s, sched).threads| == |programs|
    ensures var s' := After(s, sched);
      || Fails(s')
      || (Stage(programs, s') && Reached(s', t, left) && forall u :: 0 <= u < |programs| && u != t ==> s'.threads[u] == s.threads[u])
  {
    hide Refines, ThreadsOk, AnswersOk, LocksOk, Step, NodeBound, Traced, OwnersOk, Fails;
    sched := Drive(s, t, left, NodeBound(s));
    RunOwners(s, sched);
    var src :| Traced(programs, s, src);
    var src' := RunTraced(programs, s, src, sched);
    assert Traced(programs, After(s, sched), src');
  }

  lemma PastLogged(programs: seq<seq<Call>>, s: State, src: seq<Site>, a: Site, b: Site)
    requires Traced(programs, s, src) && IsAdd(programs, a) && IsAdd(programs, b) && a != b && KeyAt(programs, a) == KeyAt(programs, b)
    requires a.i < Past(programs[a.t], s.threads[a.t]) && b.i < Past(programs[b.t], s.threads[b.t])
    ensures Updated(s.log, Index(KeyAt(programs, a)))
  {
    hide Index, Follows, Past;
    assert a in src && b in src;
    var n :| 0 <= n < |src| && src[n] == a;
    var m :| 0 <= m < |src| && src[m] == b;
    if n < m { assert s.log[n].key == s.log[m].key; } else { assert m < n && s.log[m].key == s.log[n].key; }
  }

  // The next call of thread t is an add of k and k's bucket has a repeated key.
  lemma AddMeetsLeak(s: State, t: int)
    requires Inv(s) && OwnersOk(s) && !s.aborted && 0 <= t < |s.threads| && s.threads[t].pc.Idle?
    requires |s.threads[t].calls| > 0 && s.threads[t].calls[0].Add? && Updated(s.log, Index(s.threads[t].calls[0].key))
    ensures Enabled(s, t) && Inv(Step(s, t)) && WaitsAtLeak(Step(s, t), t)
  {
    hide Refines, ThreadsOk, AnswersOk, LocksOk, Index, AddAll, Contains, Updated, Leaked;
    OwnersKept(s, t);
  }

  lemma FirstCall(prog: seq<Call>, th: Thread, i: nat)
    requires Follows(prog, th) && i < |prog| && |th.calls| == |prog| - i
    ensures th.calls[0] == prog[i]
  {
  }

  // The third add begins, and waits for ever.
  lemma {:induction false} ThirdWaits(programs: seq<seq<Call>>, s: State, a: Site, b: Site, c: Site)
    requires Stage(programs, s) && ThirdAdd(programs, a, b, c) && !s.aborted
    requires |s.threads[a.t].calls| <= |programs[a.t]| - 1 - a.i && |s.threads[b.t].calls| <= |programs[b.t]| - 1 - b.i
    requires |s.threads[c.t].calls| == |programs[c.t]| - c.i
    ensures IsRun(s, [c.t]) && Fails(After(s, [c.t]))
  {
    hide Refines, ThreadsOk, AnswersOk, LocksOk, Index, Updated, Follows, OwnersOk, Step, Enabled, WaitsAtLeak;
    var src :| Traced(programs, s, src);
    PastLogged(programs, s, src, a, b);
    assert Follows(programs[c.t], s.threads[c.t]);
    FirstCall(programs[c.t], s.threads[c.t], c.i);
    AddMeetsLeak(s, c.t);
    RunOne(s, c.t, Step(s, c.t), []);
    assert [c.t] + [] == [c.t];
  }

  lemma {:induction false} StageStart(programs: seq<seq<Call>>)
    ensures Stage(programs, Start(programs)) && |Start(programs).threads| == |programs|
    ensures forall t :: 0 <= t < |programs| ==> |Start(programs).threads[t].calls| == |programs[t]|
  {
    StartInv(programs);
    StartTraced(programs);
  }

  // The calls of thread t that are left when both a and b are past, as far as
  // they are calls of t.
  function LeftAfter(programs: seq<seq<Call>>, a: Site, b: Site): nat
    requires IsAdd(programs, a) && IsAdd(programs, b)
  {
    |programs[a.t]| - 1 - if b.t == a.t && b.i > a.i then b.i else a.i
  }

  // The threads of a and b run until both adds are past.
  lemma {:induction false} PairDone(programs: seq<seq<Call>>, a: Site, b: Site) returns (sched: seq<int>)
    requires IsAdd(programs, a) && IsAdd(programs, b) && Inv(Start(programs))
    ensures IsRun(Start(programs), sched)
    ensures var s := After(Start(programs), sched);
      || Fails(s)
      || (Stage(programs, s) && |s.threads| == |programs|
        && |s.threads[a.t].calls| == LeftAfter(programs, a, b) && |s.threads[b.t].calls| == LeftAfter(programs, b, a)
        && forall t :: 0 <= t < |programs| && t != a.t && t != b.t ==> |s.threads[t].calls| == |programs[t]|)
  {
    hide LocksOk, ThreadsOk, Refines, AnswersOk, Stage, Fails, Start, Index;
    var s0 := Start(programs);
    StageStart(programs);
    var x := StageDrive(programs, s0, a.t, LeftAfter(programs, a, b));
    var s1 := After(s0, x);
    sched := x;
    if !Fails(s1) {
      var y := StageDrive(programs, s1, b.t, LeftAfter(programs, b, a));
      RunsJoin(s0, x, y);
      sched := x + y;
    }
  }

  lemma NotAborted(s: State)
    requires Sized(s) && !Fails(s)
    ensures !s.aborted
  {
  }

  lemma {:induction false} ThirdFails(programs: seq<seq<Call>>, a: Site, b: Site, c: Site) returns (sched: seq<int>)
    requires ThirdAdd(programs, a, b, c) && Inv(Start(programs))
    ensures IsRun(Start(programs), sched) && Fails(After(Start(programs), sched))
  {
    hide LocksOk, ThreadsOk, Refines, AnswersOk, Stage, Fails, Start, Index;
    var s0 := Start(programs);
    var x := PairDone(programs, a, b);
    var s1 := After(s0, x);
    sched := x;
    if !Fails(s1) {
      var y := StageDrive(programs, s1, c.t, |programs[c.t]| - c.i);
      var s2 := After(s1, y);
      RunsJoin(s0, x, y);
      sched := x + y;
      if !Fails(s2) {
        NotAborted(s2);
        ThirdWaits(programs, s2, a, b, c);
        RunsJoin(s0, x + y, [c.t]);
        sched := x + y + [c.t];
      }
    }
  }

  // ---------------------------------------------------------------- maximal runs

  lemma {:induction false} ToTheEnd(s: State, n: nat) returns (sched: seq<int>)
    requires Inv(s) && NodeBound(s) <= n
    ensures IsRun(s, sched) && forall t :: !Enabled(After(s, sched), t)
    decreases Spent(s, n)
  {
    hide Refines, ThreadsOk, AnswersOk, LocksOk, Step, Spent, NodeBound, Enabled;
    SpentNonNegative(s, n);
    sched := [];
    if t :| Enabled(s, t) {
      StepKeeps(s, t);
      StepSpends(s, t, n);
      SpentNonNegative(Step(s, t), n);
      var rest := ToTheEnd(Step(s, t), n);
      RunOne(s, t, Step(s, t), rest);
      sched := [t] + rest;
    }
  }

  // A maximal run that leaves calls unfinished although no assertion has failed.
  ghost predicate Sticks(programs: seq<seq<Call>>, sched: seq<int>)
    requires Inv(Start(programs))
  {
    && IsRun(Start(programs), sched)
    && var s := After(Start(programs), sched);
    Stuck(s) && exists u :: 0 <= u < |s.threads| && !Done(s.threads[u])
  }

  lemma {:induction false} AbortedStays(s: State, sched: seq<int>)
    requires Inv(s) && s.aborted && IsRun(s, sched)
    ensures After(s, sched) == s
  {
    hide Inv;
  }

  // With a third add some schedule gets stuck, or makes get_value fail.
  lemma {:induction false} ThirdSticks(programs: seq<seq<Call>>) returns (sched: seq<int>)
    requires HasThirdAdd(programs)
    ensures Inv(Start(programs)) && IsRun(Start(programs), sched)
    ensures Sticks(programs, sched) || After(Start(programs), sched).aborted
  {
    hide Refines, ThreadsOk, AnswersOk, LocksOk, Index, Start;
    StartInv(programs);
    var s0 := Start(programs);
    var a, b, c :| ThirdAdd(programs, a, b, c);
    var x := ThirdFails(programs, a, b, c);
    var s1 := After(s0, x);
    var y := ToTheEnd(s1, NodeBound(s1));
    RunsJoin(s0, x, y);
    sched := x + y;
    var s2 := After(s1, y);
    if s1.aborted {
      AbortedStays(s1, y);
    } else {
      var u :| WaitsAtLeak(s1, u);
      WaitsForEver(s1, y, u, Index(s1.threads[u].pc.k));
      assert !Done(s2.threads[u]);
    }
  }

  // ---------------------------------------------------------------- programs without get_value

  ghost predicate NoGets(programs: seq<seq<Call>>) {
    forall t, i :: 0 <= t < |programs| && 0 <= i < |programs[t]| ==> !programs[t][i].Get?
  }

  predicate NotGetting(th: Thread) {
    !th.pc.GetScan? && !th.pc.GetLoad? && forall i :: 0 <= i < |th.calls| ==> !th.calls[i].Get?
  }

  lemma {:induction false} NeverAborts(s: State, sched: seq<int>)
    requires Inv(s) && IsRun(s, sched) && !s.aborted && forall t :: 0 <= t < |s.threads| ==> NotGetting(s.threads[t])
    ensures !After(s, sched).aborted
    decreases |sched|
  {
    hide Refines, ThreadsOk, AnswersOk, LocksOk, Index, AddAll, Contains, GetValue, Find;
    if |sched| > 0 {
      StepKeeps(s, sched[0]);
      OnlyMover(s, sched[0]);
      var s1 := Step(s, sched[0]);
      assert NotGetting(s1.threads[sched[0]]);
      NeverAborts(s1, sched[1..]);
    }
  }

  // The exact programs without get_value that can get stuck.
  lemma {:induction false} StickIff(programs: seq<seq<Call>>)
    requires NoGets(programs)
    ensures Inv(Start(programs))
    ensures (exists sched :: Sticks(programs, sched)) <==> HasThirdAdd(programs)
  {
    hide HasThirdAdd, Refines, ThreadsOk, AnswersOk, LocksOk, Index;
    StartInv(programs);
    if sched :| Sticks(programs, sched) {
      StuckNeedsThird(programs, sched);
    }
    if HasThirdAdd(programs) {
      var sched := ThirdSticks(programs);
      NeverAborts(Start(programs), sched);
    }
  }
}
