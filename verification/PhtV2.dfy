// The hash table with one lock per bucket, as a protocol of interleaved steps.
//
// Each thread makes a sequence of calls.  A step is one access to shared
// memory: taking or releasing a lock, reading a list head, moving on to the
// next node, storing a value, publishing a node.  Nodes are never removed and
// their keys and links never change.
module PhtV2 {
  import opened Common
  import opened PhtBase

  // A node's link is the id of an older node, or -1.
  datatype Node = Node(key: string, value: Word, next: int)

  datatype Call = Add(key: string, value: Word) | Has_(key: string) | Get(key: string)

  // Where a thread is in its current call.
  datatype Pc =
    | Idle
    | AddLock(k: string, v: Word)
    | AddScan(k: string, v: Word, cur: int)
    | AddStore(k: string, v: Word, node: int)
    | AddPublish(k: string, v: Word, node: int)
    | AddUnlock(k: string)
    | HasScan(k: string, cur: int, seen: bool)
    | GetScan(k: string, cur: int, seen: bool)
    | GetLoad(k: string, node: int)

  datatype Thread = Thread(calls: seq<Call>, pc: Pc)

  // What a reader returned, beside what the sequential table would have
  // returned at the step at which the call takes effect.  GetFailed is the failed
  // assertion of get_value, with the presence of the key at the read of the list
  // head.
  datatype Answer =
    | HasAnswer(k: string, found: bool, spec: bool)
    | GetAnswer(k: string, value: Word, specFound: bool, specValue: Word)
    | GetFailed(k: string, spec: bool)

  // log lists the adds in the order of their update or insert step; aborted says
  // that an assertion has failed.
  datatype State = State(
    nodes: seq<Node>,
    heads: seq<int>,
    locks: seq<int>,
    threads: seq<Thread>,
    log: seq<Pair>,
    answers: seq<Answer>,
    aborted: bool)

  predicate PcSized(pc: Pc, n: nat) {
    match pc
    case AddScan(_, _, cur) => -1 <= cur < n
    case AddStore(_, _, node) => 0 <= node < n
    case AddPublish(_, _, node) => 0 <= node < n
    case HasScan(_, cur, _) => -1 <= cur < n
    case GetScan(_, cur, _) => -1 <= cur < n
    case GetLoad(_, node) => 0 <= node < n
    case _ => true
  }

  ghost predicate Sized(s: State) {
    && |s.heads| == |s.locks| == HASH_TABLE_CAPACITY
    && (forall i :: 0 <= i < |s.nodes| ==> -1 <= s.nodes[i].next < i)
    && (forall b :: 0 <= b < HASH_TABLE_CAPACITY ==> -1 <= s.heads[b] < |s.nodes|)
    && (forall t :: 0 <= t < |s.threads| ==> PcSized(s.threads[t].pc, |s.nodes|))
  }

  // ---------------------------------------------------------------- steps

  predicate Done(th: Thread) { th.pc.Idle? && |th.calls| == 0 }

  predicate Enabled(s: State, t: int)
    requires |s.locks| == HASH_TABLE_CAPACITY
  {
    && !s.aborted && 0 <= t < |s.threads|
    && match s.threads[t].pc
       case Idle => |s.threads[t].calls| > 0
       case AddLock(k, _) => s.locks[Index(k)] == -1
       case _ => true
  }

  function At(s: State, t: int, pc: Pc): State
    requires 0 <= t < |s.threads|
  {
    s.(threads := s.threads[t := s.threads[t].(pc := pc)])
  }

  function Begin(s: State, t: int): State
    requires 0 <= t < |s.threads| && |s.threads[t].calls| > 0 && |s.heads| == HASH_TABLE_CAPACITY
  {
    var c := s.threads[t].calls[0];
    var s1 := s.(threads := s.threads[t := s.threads[t].(calls := s.threads[t].calls[1..])]);
    match c
    case Add(k, v) => At(s1, t, AddLock(k, v))
    case Has_(k) => At(s1, t, HasScan(k, s.heads[Index(k)], Contains(AddAll(s.log), k)))
    case Get(k) => At(s1, t, GetScan(k, s.heads[Index(k)], Contains(AddAll(s.log), k)))
  }

  function Step(s: State, t: int): State
    requires Sized(s) && Enabled(s, t)
  {
    match s.threads[t].pc
    case Idle => Begin(s, t)
    case AddLock(k, v) =>
      At(s.(locks := s.locks[Index(k) := t]), t, AddScan(k, v, s.heads[Index(k)]))
    case AddScan(k, v, cur) =>
      if cur < 0 then
        At(s.(nodes := s.nodes + [Node(k, v, s.heads[Index(k)])]), t, AddPublish(k, v, |s.nodes|))
      else if s.nodes[cur].key == k then At(s, t, AddStore(k, v, cur))
      else At(s, t, AddScan(k, v, s.nodes[cur].next))
    // The update path returns without unlocking.
    case AddStore(k, v, n) =>
      At(s.(nodes := s.nodes[n := s.nodes[n].(value := v)], log := s.log + [Pair(k, v)]), t, Idle)
    case AddPublish(k, v, n) =>
      At(s.(heads := s.heads[Index(k) := n], log := s.log + [Pair(k, v)]), t, AddUnlock(k))
    case AddUnlock(k) =>
      At(s.(locks := s.locks[Index(k) := -1]), t, Idle)
    case HasScan(k, cur, seen) =>
      if cur < 0 then At(s.(answers := s.answers + [HasAnswer(k, false, seen)]), t, Idle)
      else if s.nodes[cur].key == k then At(s.(answers := s.answers + [HasAnswer(k, true, seen)]), t, Idle)
      else At(s, t, HasScan(k, s.nodes[cur].next, seen))
    case GetScan(k, cur, seen) =>
      if cur < 0 then s.(aborted := true, answers := s.answers + [GetFailed(k, seen)])
      else if s.nodes[cur].key == k then At(s, t, GetLoad(k, cur))
      else At(s, t, GetScan(k, s.nodes[cur].next, seen))
    case GetLoad(k, n) =>
      var spec := AddAll(s.log);
      var found := Contains(spec, k);
      At(s.(answers := s.answers + [GetAnswer(k, s.nodes[n].value, found, if found then GetValue(spec, k) else 0)]), t, Idle)
  }

  // ---------------------------------------------------------------- lists

  // The walk of get_list_entry from node n on: the first node with the key.
  function Find(nodes: seq<Node>, n: int, k: string): (r: int)
    requires -1 <= n < |nodes| && forall i :: 0 <= i < |nodes| ==> -1 <= nodes[i].next < i
    ensures -1 <= r <= n && (r >= 0 ==> nodes[r].key == k)
    decreases n
  {
    if n < 0 then -1 else if nodes[n].key == k then n else Find(nodes, nodes[n].next, k)
  }

  function ListFrom(nodes: seq<Node>, n: int): seq<Pair>
    requires -1 <= n < |nodes| && forall i :: 0 <= i < |nodes| ==> -1 <= nodes[i].next < i
    decreases n
  {
    if n < 0 then [] else [Pair(nodes[n].key, nodes[n].value)] + ListFrom(nodes, nodes[n].next)
  }

  // All nodes from n on belong to bucket b.
  ghost predicate AllIn(nodes: seq<Node>, n: int, b: int)
    requires -1 <= n < |nodes| && forall i :: 0 <= i < |nodes| ==> -1 <= nodes[i].next < i
    decreases n
  {
    n < 0 || (Index(nodes[n].key) == b && AllIn(nodes, nodes[n].next, b))
  }

  // ---------------------------------------------------------------- invariant

  // Thread at this point holds the lock of its bucket.
  predicate Holding(pc: Pc) { pc.AddScan? || pc.AddStore? || pc.AddPublish? || pc.AddUnlock? }

  ghost predicate LocksOk(s: State)
    requires Sized(s)
  {
    forall t :: 0 <= t < |s.threads| && Holding(s.threads[t].pc) ==> s.locks[Index(s.threads[t].pc.k)] == t
  }

  ghost predicate PcOk(s: State, pc: Pc)
    requires Sized(s) && PcSized(pc, |s.nodes|)
  {
    match pc
    case AddScan(k, _, cur) => Find(s.nodes, s.heads[Index(k)], k) == Find(s.nodes, cur, k)
    case AddStore(k, _, n) => Find(s.nodes, s.heads[Index(k)], k) == n
    case AddPublish(k, v, n) => s.nodes[n] == Node(k, v, s.heads[Index(k)]) && Find(s.nodes, s.heads[Index(k)], k) == -1
    case HasScan(k, cur, seen) => (Find(s.nodes, cur, k) >= 0) == seen
    case GetScan(k, cur, seen) =>
      (Find(s.nodes, cur, k) >= 0) == seen && (seen ==> Find(s.nodes, s.heads[Index(k)], k) == Find(s.nodes, cur, k))
    case GetLoad(k, n) => Find(s.nodes, s.heads[Index(k)], k) == n
    case _ => true
  }

  ghost predicate ThreadsOk(s: State)
    requires Sized(s)
  {
    forall t :: 0 <= t < |s.threads| ==> PcOk(s, s.threads[t].pc)
  }

  // The linked lists are the buckets of the sequential table after the logged adds.
  ghost predicate Refines(s: State)
    requires Sized(s)
  {
    forall b :: 0 <= b < HASH_TABLE_CAPACITY ==> ListFrom(s.nodes, s.heads[b]) == AddAll(s.log)[b] && AllIn(s.nodes, s.heads[b], b)
  }

  predicate AnswerOk(a: Answer) {
    match a
    case HasAnswer(_, found, spec) => found == spec
    case GetAnswer(_, value, specFound, specValue) => specFound && value == specValue
    case GetFailed(_, spec) => !spec
  }

  // Every answer is right, and the process has aborted only in a failed get_value.
  ghost predicate AnswersOk(s: State) {
    && (forall i :: 0 <= i < |s.answers| ==> AnswerOk(s.answers[i]))
    && (s.aborted ==> |s.answers| > 0 && s.answers[|s.answers| - 1].GetFailed?)
  }

  ghost predicate Inv(s: State) {
    && Sized(s) && LocksOk(s) && ThreadsOk(s) && Refines(s) && AnswersOk(s)
  }
}
