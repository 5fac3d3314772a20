// Every answer of a reader belongs to the call that asked for it, and is that of
// the sequential table at a step between the call's beginning and its end.
module PhtAnswers {
  import opened PhtBase
  import opened PhtV2
  import opened PhtLinear
  import opened PhtRuns
  import opened PhtPrograms

  // ---------------------------------------------------------------- runs as lists of states

  // tr lists states, each made from the one before by the step of sched.
  ghost predicate IsTrace(tr: seq<State>, sched: seq<int>) {
    && |tr| == |sched| + 1
    && (forall p :: 0 <= p < |tr| ==> Inv(tr[p]))
    && (forall p :: 0 <= p < |sched| ==> Enabled(tr[p], sched[p]) && tr[p + 1] == Step(tr[p], sched[p]))
  }

  // tr lists the states of the run sched of the programs.
  ghost predicate IsHistory(programs: seq<seq<Call>>, tr: seq<State>, sched: seq<int>) {
    IsTrace(tr, sched) && tr[0] == Start(programs)
  }

  // Any run has such a list, which ends with the state after the run.
  lemma {:induction false} StatesOf(s: State, sched: seq<int>) returns (tr: seq<State>)
    requires Inv(s) && IsRun(s, sched)
    ensures IsTrace(tr, sched) && tr[0] == s && tr[|sched|] == After(s, sched)
    decreases |sched|
  {
    hide LocksOk, ThreadsOk, Refines, AnswersOk, Step, PcSized;
    tr := [s];
    if |sched| > 0 {
      StepKeeps(s, sched[0]);
      var rest := StatesOf(Step(s, sched[0]), sched[1..]);
      tr := [s] + rest;
      forall p | 0 <= p < |sched| ensures Enabled(tr[p], sched[p]) && tr[p + 1] == Step(tr[p], sched[p]) {
        if p > 0 { assert tr[p] == rest[p - 1] && sched[p] == sched[1..][p - 1] && tr[p + 1] == rest[p]; }
      }
    }
  }

  // ---------------------------------------------------------------- calls and answers

  predicate IsCall(programs: seq<seq<Call>>, a: Site) { 0 <= a.t < |programs| && 0 <= a.i < |programs[a.t]| }

  function CallAt(programs: seq<seq<Call>>, a: Site): Call
    requires IsCall(programs, a)
  {
    programs[a.t][a.i]
  }

  // Call a begins at step p: its thread is between two calls and a comes next.
  ghost predicate BeginsAt(programs: seq<seq<Call>>, tr: seq<State>, sched: seq<int>, a: Site, p: nat) {
    && IsCall(programs, a) && p < |sched| && p < |tr| && sched[p] == a.t && a.t < |tr[p].threads|
    && tr[p].threads[a.t].pc.Idle? && |tr[p].threads[a.t].calls| == |programs[a.t]| - a.i
  }

  // Call a gives the m-th answer at step q.
  ghost predicate AnswersAt(programs: seq<seq<Call>>, tr: seq<State>, sched: seq<int>, a: Site, m: nat, q: nat) {
    && IsCall(programs, a) && q < |sched| && q + 1 < |tr| && sched[q] == a.t && a.t < |tr[q].threads|
    && !tr[q].threads[a.t].pc.Idle? && |tr[q].threads[a.t].calls| == |programs[a.t]| - a.i - 1
    && |tr[q].answers| == m && |tr[q + 1].answers| == m + 1
  }

  // The answer x to call c, with the adds done when the call began and when it
  // ended: contains tells whether the key was there at the beginning; get_value
  // gives the value at the end if the key was there at the beginning, and fails if not.
  ghost predicate RightFor(c: Call, x: Answer, began: seq<Pair>, ended: seq<Pair>) {
    match x
    case HasAnswer(k, found, spec) => c == Has_(k) && found == spec == Contains(AddAll(began), k)
    case GetAnswer(k, value, _, _) =>
      && c == Get(k) && Contains(AddAll(began), k)
      && Contains(AddAll(ended), k) && value == GetValue(AddAll(ended), k)
    case GetFailed(k, _) => c == Get(k) && !Contains(AddAll(began), k)
  }

  // The call that gave an answer, and the steps at which it began and ended.
  datatype Note = Note(site: Site, began: nat, ended: nat)

  ghost predicate Explains(programs: seq<seq<Call>>, tr: seq<State>, sched: seq<int>, m: nat, x: Answer, n: Note) {
    && BeginsAt(programs, tr, sched, n.site, n.began) && AnswersAt(programs, tr, sched, n.site, m, n.ended)
    && n.began < n.ended && RightFor(CallAt(programs, n.site), x, tr[n.began].log, tr[n.ended].log)
  }

  // ---------------------------------------------------------------- the thread's place in its program

  // The point pc is in call c.
  predicate CallIs(pc: Pc, c: Call) {
    match pc
    case Idle => true
    case AddLock(k, _) => c.Add? && c.key == k
    case AddScan(k, _, _) => c.Add? && c.key == k
    case AddStore(k, _, _) => c.Add? && c.key == k
    case AddPublish(k, _, _) => c.Add? && c.key == k
    case AddUnlock(k) => c.Add? && c.key == k
    case HasScan(k, _, _) => c == Has_(k)
    case GetScan(k, _, _) => c == Get(k)
    case GetLoad(k, _) => c == Get(k)
  }

  predicate Reading(pc: Pc) { pc.HasScan? || pc.GetScan? || pc.GetLoad? }

  // The number of calls that have ended.
  function Over(prog: seq<Call>, th: Thread): int { |prog| - |th.calls| - if th.pc.Idle? then 0 else 1 }

  ghost predicate InProgram(prog: seq<Call>, th: Thread) {
    && |th.calls| <= |prog| && th.calls == prog[|prog| - |th.calls|..]
    && (!th.pc.Idle? ==> |th.calls| < |prog| && CallIs(th.pc, prog[|prog| - |th.calls| - 1]))
  }

  lemma PlaceMoves(prog: seq<Call>, s: State, t: int)
    requires Sized(s) && Enabled(s, t) && InProgram(prog, s.threads[t])
    ensures |Step(s, t).threads| == |s.threads|
    ensures var th, th' := s.threads[t], Step(s, t).threads[t];
      && InProgram(prog, th') && Over(prog, th) >= 0
      && Over(prog, th') == Over(prog, th) + if !th.pc.Idle? && th'.pc.Idle? then 1 else 0
  {
    hide AddAll, Contains, GetValue, Index, Find;
    var th := s.threads[t];
    if th.pc.Idle? {
      assert th.calls[0] == prog[|prog| - |th.calls|];
      assert th.calls[1..] == prog[|prog| - |th.calls| + 1..];
    }
  }

  // What one step does to the answers, and how a reader gets on.
  lemma AnswerMoves(s: State, t: int)
    requires Sized(s) && Enabled(s, t)
    ensures |Step(s, t).threads| == |s.threads|
    ensures var s', pc, pc' := Step(s, t), s.threads[t].pc, Step(s, t).threads[t].pc;
      && (s'.answers == s.answers || (|s'.answers| == |s.answers| + 1 && s'.answers[..|s.answers|] == s.answers && Reading(pc)))
      && (Reading(pc) && pc'.Idle? ==> |s'.answers| == |s.answers| + 1)
      && (s'.aborted || s'.answers == s.answers || pc'.Idle?)
      && (s'.aborted ==> pc' == pc && |s'.answers| == |s.answers| + 1)
      && (Reading(pc') && pc.Idle? && !pc'.GetLoad? ==> pc'.seen == Contains(AddAll(s.log), pc'.k))
      && (Reading(pc') && !pc.Idle? ==>
        Reading(pc) && !pc.GetLoad? && (!pc'.GetLoad? ==> pc'.k == pc.k && pc'.seen == pc.seen))
      && (|s'.answers| == |s.answers| + 1 ==>
        match s'.answers[|s.answers|]
        case HasAnswer(k, _, spec) => pc.HasScan? && pc.k == k && spec == pc.seen
        case GetAnswer(k, v, f, w) => pc.GetLoad? && pc.k == k && f == Contains(AddAll(s.log), k) && (f ==> w == GetValue(AddAll(s.log), k))
        case GetFailed(k, spec) => pc.GetScan? && pc.k == k && spec == pc.seen)
  {
    hide AddAll, Contains, GetValue, Index, Find;
  }

  // A get_value that has found its node carried the presence of its key.
  lemma LoadSeen(s: State, t: int)
    requires Inv(s) && Enabled(s, t) && Step(s, t).threads[t].pc.GetLoad?
    ensures var pc := s.threads[t].pc; pc.GetScan? && pc.seen && Step(s, t).threads[t].pc.k == pc.k
  {
    hide AddAll, Contains, GetValue, Index, Refines, LocksOk, AnswersOk;
    assert PcOk(s, s.threads[t].pc);
  }

  // ---------------------------------------------------------------- the invariant of a run

  // The call in which a reader is began at some step, and the presence that it
  // carries along is that of its key at that step.
  ghost predicate Begun(programs: seq<seq<Call>>, tr: seq<State>, sched: seq<int>, t: int, th: Thread, p: nat)
    requires 0 <= t < |programs|
  {
    && BeginsAt(programs, tr, sched, Site(t, Over(programs[t], th)), p)
    && (!th.pc.GetLoad? && Reading(th.pc) ==> th.pc.seen == Contains(AddAll(tr[p].log), th.pc.k))
    && (th.pc.GetLoad? ==> Contains(AddAll(tr[p].log), th.pc.k))
  }

  ghost predicate Placed(programs: seq<seq<Call>>, tr: seq<State>, sched: seq<int>, s: State) {
    && |s.threads| == |programs|
    && (forall t :: 0 <= t < |programs| ==> InProgram(programs[t], s.threads[t]))
    && (forall t :: 0 <= t < |programs| && Reading(s.threads[t].pc) ==>
      exists p :: Begun(programs, tr, sched, t, s.threads[t], p))
  }

  ghost predicate HasNote(notes: seq<Note>, a: Site) { exists m :: 0 <= m < |notes| && notes[m].site == a }

  // Each answer has its call, a different one each, and each reader call that has
  // ended has its answer.
  ghost predicate Answered(programs: seq<seq<Call>>, tr: seq<State>, sched: seq<int>, s: State, notes: seq<Note>)
    requires |s.threads| == |programs|
  {
    && |notes| == |s.answers|
    && (forall m :: 0 <= m < |notes| ==> Explains(programs, tr, sched, m, s.answers[m], notes[m]))
    && (forall m, n :: 0 <= m < n < |notes| ==> notes[m].site != notes[n].site)
    && (forall a :: IsCall(programs, a) && !CallAt(programs, a).Add? && a.i < Over(programs[a.t], s.threads[a.t]) ==>
      HasNote(notes, a))
  }

  ghost predicate NotesOver(programs: seq<seq<Call>>, s: State, notes: seq<Note>) {
    forall m :: 0 <= m < |notes| ==>
      var a := notes[m].site; 0 <= a.t < |programs| && a.t < |s.threads| && a.i < Over(programs[a.t], s.threads[a.t])
  }

  // One more step at the end of a run.
  ghost predicate Extends(tr: seq<State>, sched: seq<int>, tr': seq<State>, sched': seq<int>) {
    && |tr| == |sched| + 1 && |tr'| == |sched'| + 1 && |sched'| == |sched| + 1
    && tr'[..|tr|] == tr && sched'[..|sched|] == sched
  }

  lemma KeptAt(tr: seq<State>, sched: seq<int>, tr': seq<State>, sched': seq<int>, p: nat)
    requires Extends(tr, sched, tr', sched') && p < |sched|
    ensures tr'[p] == tr[p] && tr'[p + 1] == tr[p + 1] && sched'[p] == sched[p]
  {
    assert tr'[..|tr|][p] == tr[p] && tr'[..|tr|][p + 1] == tr[p + 1] && sched'[..|sched|][p] == sched[p];
  }

  lemma BeginsKept(programs: seq<seq<Call>>, tr: seq<State>, sched: seq<int>, tr': seq<State>, sched': seq<int>, a: Site, p: nat)
    requires Extends(tr, sched, tr', sched') && BeginsAt(programs, tr, sched, a, p)
    ensures BeginsAt(programs, tr', sched', a, p) && tr'[p] == tr[p]
  {
    KeptAt(tr, sched, tr', sched', p);
  }

  lemma ExplainsKept(programs: seq<seq<Call>>, tr: seq<State>, sched: seq<int>, tr': seq<State>, sched': seq<int>, m: nat, x: Answer, n: Note)
    requires Extends(tr, sched, tr', sched') && Explains(programs, tr, sched, m, x, n)
    ensures Explains(programs, tr', sched', m, x, n)
  {
    hide RightFor;
    KeptAt(tr, sched, tr', sched', n.began);
    KeptAt(tr, sched, tr', sched', n.ended);
  }

  lemma BeginsHere(programs: seq<seq<Call>>, tr: seq<State>, sched: seq<int>, s: State, t: int, p: nat)
    requires Sized(s) && Enabled(s, t) && |s.threads| == |programs| && InProgram(programs[t], s.threads[t]) && s.threads[t].pc.Idle?
    requires p < |sched| && p < |tr| && tr[p] == s && sched[p] == t
    ensures BeginsAt(programs, tr, sched, Site(t, Over(programs[t], s.threads[t])), p)
  {
  }

  lemma PlacedOn(programs: seq<seq<Call>>, tr: seq<State>, sched: seq<int>, tr': seq<State>, sched': seq<int>, s: State, t: int)
    requires Extends(tr, sched, tr', sched') && tr[|sched|] == s && sched'[|sched|] == t && tr'[|sched|] == s
    requires Inv(s) && Enabled(s, t) && Placed(programs, tr, sched, s)
    ensures Placed(programs, tr', sched', Step(s, t))
  {
    hide Step, InProgram, BeginsAt, LocksOk, ThreadsOk, Refines, AnswersOk, PcSized, AddAll, Contains;
    assert 0 <= t < |programs|;
    PlaceMoves(programs[t], s, t);
    AnswerMoves(s, t);
    OnlyMover(s, t);
    var s' := Step(s, t);
    forall u | 0 <= u < |programs| && Reading(s'.threads[u].pc) ensures exists p :: Begun(programs, tr', sched', u, s'.threads[u], p) {
      if u == t && s.threads[t].pc.Idle? {
        if s'.threads[t].pc.GetLoad? { LoadSeen(s, t); }
        BeginsHere(programs, tr', sched', s, t, |sched|);
        assert Begun(programs, tr', sched', t, s'.threads[t], |sched|);
      } else {
        var p: nat :| Begun(programs, tr, sched, u, s.threads[u], p);
        BeginsKept(programs, tr, sched, tr', sched', Site(u, Over(programs[u], s.threads[u])), p);
        if u == t && s'.threads[t].pc.GetLoad? { LoadSeen(s, t); }
        assert Begun(programs, tr', sched', u, s'.threads[u], p);
      }
    }
  }

  lemma AnswersRight(s: State, m: nat)
    requires Inv(s) && m < |s.answers|
    ensures AnswerOk(s.answers[m])
  {
  }

  lemma LastAnswer(s: State, t: int, x: Answer)
    requires Inv(s) && Enabled(s, t) && Step(s, t).answers == s.answers + [x]
    ensures AnswerOk(x)
  {
    hide LocksOk, ThreadsOk, Refines, AnswersOk, Step, PcSized;
    StepKeeps(s, t);
    AnswersRight(Step(s, t), |s.answers|);
  }

  // The answer of the step just made is explained by the call of its thread.
  lemma NewNote(programs: seq<seq<Call>>, tr: seq<State>, sched: seq<int>, s: State, t: int, p: nat)
    requires |tr| == |sched| + 1 && |sched| > 0 && tr[|sched| - 1] == s && sched[|sched| - 1] == t
    requires Inv(s) && Enabled(s, t) && |s.threads| == |programs| && InProgram(programs[t], s.threads[t])
    requires tr[|sched|] == Step(s, t) && |Step(s, t).answers| == |s.answers| + 1
    requires Begun(programs, tr, sched, t, s.threads[t], p) && p < |sched| - 1
    ensures Explains(programs, tr, sched, |s.answers|, Step(s, t).answers[|s.answers|],
      Note(Site(t, Over(programs[t], s.threads[t])), p, |sched| - 1))
  {
    hide LocksOk, ThreadsOk, Refines, AnswersOk, PcSized, Step, AddAll, Contains, GetValue;
    AnswerMoves(s, t);
    var x := Step(s, t).answers[|s.answers|];
    assert Step(s, t).answers == s.answers + [x];
    LastAnswer(s, t, x);
  }

  lemma NotesKept(programs: seq<seq<Call>>, tr: seq<State>, sched: seq<int>, tr': seq<State>, sched': seq<int>, s: State, notes: seq<Note>)
    requires Extends(tr, sched, tr', sched') && |s.threads| == |programs| && Answered(programs, tr, sched, s, notes)
    ensures forall m :: 0 <= m < |notes| ==> Explains(programs, tr', sched', m, s.answers[m], notes[m])
  {
    hide Explains;
    forall m | 0 <= m < |notes| ensures Explains(programs, tr', sched', m, s.answers[m], notes[m]) {
      ExplainsKept(programs, tr, sched, tr', sched', m, s.answers[m], notes[m]);
    }
  }

  // The mover's ended calls after a step: those before it, and its call if it ends.
  lemma EndedCalls(programs: seq<seq<Call>>, s: State, t: int, a: Site)
    requires Sized(s) && Enabled(s, t) && |s.threads| == |programs| && InProgram(programs[t], s.threads[t])
    requires IsCall(programs, a) && !CallAt(programs, a).Add?
    requires |Step(s, t).threads| == |s.threads| && a.i < Over(programs[a.t], Step(s, t).threads[a.t])
    ensures a.i < Over(programs[a.t], s.threads[a.t])
      || (a == Site(t, Over(programs[t], s.threads[t])) && Reading(s.threads[t].pc) && Step(s, t).threads[t].pc.Idle?)
  {
    hide Step, Sized;
    OnlyMover(s, t);
    PlaceMoves(programs[t], s, t);
  }

  lemma InvSized(s: State)
    requires Inv(s)
    ensures Sized(s)
  {
  }

  // If the call that ends has its note, each reader call that has ended has one.
  lemma EndedAnswered(programs: seq<seq<Call>>, s: State, t: int, notes: seq<Note>, notes': seq<Note>)
    requires Sized(s) && Enabled(s, t) && |s.threads| == |programs| == |Step(s, t).threads| && InProgram(programs[t], s.threads[t])
    requires forall a :: IsCall(programs, a) && !CallAt(programs, a).Add? && a.i < Over(programs[a.t], s.threads[a.t]) ==> HasNote(notes, a)
    requires notes <= notes'
    requires Reading(s.threads[t].pc) && Step(s, t).threads[t].pc.Idle? ==> HasNote(notes', Site(t, Over(programs[t], s.threads[t])))
    ensures forall a :: IsCall(programs, a) && !CallAt(programs, a).Add? && a.i < Over(programs[a.t], Step(s, t).threads[a.t]) ==> HasNote(notes', a)
  {
    hide Step, InProgram, Sized, Enabled, Over;
    forall a | IsCall(programs, a) && !CallAt(programs, a).Add? && a.i < Over(programs[a.t], Step(s, t).threads[a.t])
      ensures HasNote(notes', a)
    {
      EndedCalls(programs, s, t, a);
      if HasNote(notes, a) {
        var m :| 0 <= m < |notes| && notes[m].site == a;
        assert notes'[m].site == a;
      }
    }
  }

  // The calls with notes stay over, and the mover's call is not one of them.
  lemma NotesStay(programs: seq<seq<Call>>, s: State, t: int, notes: seq<Note>)
    requires Sized(s) && Enabled(s, t) && |s.threads| == |programs| && InProgram(programs[t], s.threads[t]) && NotesOver(programs, s, notes)
    ensures |Step(s, t).threads| == |s.threads| && NotesOver(programs, Step(s, t), notes)
    ensures !HasNote(notes, Site(t, Over(programs[t], s.threads[t])))
  {
    hide Step, InProgram, Sized, Over;
    PlaceMoves(programs[t], s, t);
    OnlyMover(s, t);
  }

  // A step gives one answer or none; a reader that ends gives one, and a reader
  // that gives one ends or makes the process abort.
  lemma OneAnswer(s: State, t: int)
    requires Sized(s) && Enabled(s, t)
    ensures |Step(s, t).threads| == |s.threads|
    ensures var s', pc, pc' := Step(s, t), s.threads[t].pc, Step(s, t).threads[t].pc;
      && (s'.answers == s.answers || (|s'.answers| == |s.answers| + 1 && s'.answers[..|s.answers|] == s.answers && Reading(pc)))
      && (Reading(pc) && pc'.Idle? ==> |s'.answers| == |s.answers| + 1)
      && (s'.aborted || s'.answers == s.answers || pc'.Idle?)
  {
    hide Step, AddAll, Contains, GetValue, Index, Find;
    AnswerMoves(s, t);
  }

  lemma NoteOf(programs: seq<seq<Call>>, tr: seq<State>, sched: seq<int>, tr': seq<State>, sched': seq<int>, s: State, t: int) returns (n: Note)
    requires Extends(tr, sched, tr', sched') && tr[|sched|] == s && tr'[|sched|] == s && sched'[|sched|] == t
    requires Inv(s) && Enabled(s, t) && tr'[|sched'|] == Step(s, t) && Placed(programs, tr, sched, s)
    requires Reading(s.threads[t].pc) && |Step(s, t).answers| == |s.answers| + 1
    ensures n.site == Site(t, Over(programs[t], s.threads[t]))
    ensures Explains(programs, tr', sched', |s.answers|, Step(s, t).answers[|s.answers|], n)
  {
    hide Step, Inv, Explains, InProgram, Over;
    var p: nat :| Begun(programs, tr, sched, t, s.threads[t], p);
    var a := Site(t, Over(programs[t], s.threads[t]));
    BeginsKept(programs, tr, sched, tr', sched', a, p);
    NewNote(programs, tr', sched', s, t, p);
    n := Note(a, p, |sched|);
  }

  lemma AnsweredOn(programs: seq<seq<Call>>, tr: seq<State>, sched: seq<int>, tr': seq<State>, sched': seq<int>,
      s: State, t: int, notes: seq<Note>) returns (notes': seq<Note>)
    requires Extends(tr, sched, tr', sched') && tr[|sched|] == s && tr'[|sched|] == s && sched'[|sched|] == t
    requires Inv(s) && Enabled(s, t) && tr'[|sched'|] == Step(s, t)
    requires Placed(programs, tr, sched, s) && Answered(programs, tr, sched, s, notes) && NotesOver(programs, s, notes)
    ensures |Step(s, t).threads| == |programs|
    ensures Answered(programs, tr', sched', Step(s, t), notes') && (!Step(s, t).aborted ==> NotesOver(programs, Step(s, t), notes'))
  {
    hide Step, Inv, Explains, InProgram, Over, Begun;
    InvSized(s);
    OneAnswer(s, t);
    PlaceMoves(programs[t], s, t);
    OnlyMover(s, t);
    NotesKept(programs, tr, sched, tr', sched', s, notes);
    NotesStay(programs, s, t, notes);
    var s' := Step(s, t);
    notes' := notes;
    if |s'.answers| == |s.answers| + 1 {
      var n := NoteOf(programs, tr, sched, tr', sched', s, t);
      notes' := notes + [n];
      assert notes'[|notes|] == n;
    }
    EndedAnswered(programs, s, t, notes, notes');
  }

  // ---------------------------------------------------------------- whole runs

  lemma HistoryStart(programs: seq<seq<Call>>)
    ensures Placed(programs, [Start(programs)], [], Start(programs))
    ensures Answered(programs, [Start(programs)], [], Start(programs), []) && NotesOver(programs, Start(programs), [])
  {
  }

  lemma AbortEnds(s: State, t: int)
    requires Sized(s) && s.aborted
    ensures !Enabled(s, t)
  {
  }

  lemma PlacedSize(programs: seq<seq<Call>>, tr: seq<State>, sched: seq<int>, s: State)
    requires Placed(programs, tr, sched, s)
    ensures |s.threads| == |programs|
  {
  }

  lemma {:induction false} HistoryAnswers(programs: seq<seq<Call>>, tr: seq<State>, sched: seq<int>) returns (notes: seq<Note>)
    requires IsHistory(programs, tr, sched)
    ensures Placed(programs, tr, sched, tr[|sched|]) && Answered(programs, tr, sched, tr[|sched|], notes)
    ensures !tr[|sched|].aborted ==> NotesOver(programs, tr[|sched|], notes)
    decreases |sched|
  {
    hide Placed, Answered, NotesOver, Inv, Step, Enabled, Start;
    if |sched| == 0 {
      notes := [];
      HistoryStart(programs);
      assert tr == [Start(programs)] && sched == [];
    } else {
      var n := |sched| - 1;
      var s, t := tr[n], sched[n];
      InvSized(s);
      if s.aborted { AbortEnds(s, t); }
      var notes0 := HistoryAnswers(programs, tr[..n + 1], sched[..n]);
      PlacedSize(programs, tr[..n + 1], sched[..n], s);
      PlacedOn(programs, tr[..n + 1], sched[..n], tr, sched, s, t);
      notes := AnsweredOn(programs, tr[..n + 1], sched[..n], tr, sched, s, t, notes0);
    }
  }

  // After any run each answer of a reader was given by one call of the programs, a
  // different one each; it is the answer of the sequential table to that call, at
  // the step at which the call began (the presence of the key) or ended (its
  // value); and each reader call that has ended has its answer.
  lemma {:induction false} RunAnswers(programs: seq<seq<Call>>, sched: seq<int>) returns (tr: seq<State>, notes: seq<Note>)
    requires Inv(Start(programs)) && IsRun(Start(programs), sched)
    ensures IsHistory(programs, tr, sched) && |tr| == |sched| + 1 && tr[|sched|] == After(Start(programs), sched)
    ensures |After(Start(programs), sched).threads| == |programs|
    ensures Answered(programs, tr, sched, After(Start(programs), sched), notes)
  {
    hide Placed, Answered, Inv, Step, Enabled, Start, After, IsRun;
    tr := StatesOf(Start(programs), sched);
    notes := HistoryAnswers(programs, tr, sched);
    PlacedSize(programs, tr, sched, tr[|sched|]);
  }
}
