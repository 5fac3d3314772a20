// The cooperative thread library: thread table, ready queue and the effect of
// every call, as made by the running thread.
module WutState {
  import opened Common

  // A thread control block.  `pending` is the saved continuation of wut_join:
  // the thread whose status is fetched when this thread runs again, or -1.
  // `serial` is the value of threads_count when the thread was created; it
  // tells apart the threads that use one id after another.  `follower` is the
  // link that the entry of a blocked thread keeps: the serial of the thread that
  // came next in the ready queue when the entry was taken off it, or -1.
  datatype Tcb = Tcb(id: int, blockId: int, state: int, pending: int, serial: nat, follower: int)

  datatype Slot = Empty | Taken(t: Tcb)

  const ALIVE := -1
  const BLOCKED := -2
  const CANCELLED := 128

  // The ready queue holds ids; its head is the running thread.
  datatype State = State(threads: seq<Slot>, count: nat, ready: seq<int>)

  // A status handed to a joiner: serials of the joiner and of its target.
  datatype Delivery = Delivery(joiner: nat, target: nat, status: int)

  datatype Event = Nothing | Delivers(d: Delivery)

  // ret is the value the call returns to its caller, if it returns at once.
  // Breaks is a removal that leaves the queue headed by an entry off the queue,
  // or that follows a null link.
  datatype Outcome = Next(s: State, ret: int, event: Event) | ProcessEnds | Breaks

  datatype Op = Create | Cancel(id: int) | Join(id: int) | Yield | Exit(status: int)

  predicate IsTaken(s: State, i: int) { 0 <= i < |s.threads| && s.threads[i].Taken? }

  function Get(s: State, i: int): Tcb {
    if IsTaken(s, i) then s.threads[i].t else Tcb(-1, -1, 0, -1, 0, -1)
  }

  predicate IsState(s: State, i: int, st: int) { IsTaken(s, i) && Get(s, i).state == st }

  predicate Alive(s: State, i: int) { IsState(s, i, ALIVE) }

  predicate Blocked(s: State, i: int) { IsState(s, i, BLOCKED) }

  predicate Live(s: State, i: int) { IsTaken(s, i) && Get(s, i).state < 0 }

  function Put(s: State, i: int, t: Tcb): (s': State)
    ensures |s'.threads| == |s.threads| && s'.ready == s.ready && s'.count == s.count
    ensures forall k :: 0 <= k < |s.threads| && k != i ==> s'.threads[k] == s.threads[k]
    ensures 0 <= i < |s.threads| ==> s'.threads[i] == Taken(t)
  {
    if 0 <= i < |s.threads| then s.(threads := s.threads[i := Taken(t)]) else s
  }

  function FreeSlot(s: State, i: int): (s': State)
    ensures |s'.threads| == |s.threads| && s'.ready == s.ready && s'.count == s.count
    ensures forall k :: 0 <= k < |s.threads| && k != i ==> s'.threads[k] == s.threads[k]
    ensures 0 <= i < |s.threads| ==> s'.threads[i] == Empty
  {
    if 0 <= i < |s.threads| then s.(threads := s.threads[i := Empty]) else s
  }

  // ---------------------------------------------------------------- the thread table

  // threads_expand: twice the slots, the new ones empty.
  function Expand(s: State): (s': State)
    ensures |s'.threads| == 2 * |s.threads|
    ensures forall k :: 0 <= k < |s.threads| ==> s'.threads[k] == s.threads[k]
    ensures forall k :: |s.threads| <= k < |s'.threads| ==> s'.threads[k] == Empty
  {
    s.(threads := s.threads + seq(|s.threads|, _ => Empty))
  }

  // min_available_id from index i on; -1 if every slot is taken.
  function MinAvailable(threads: seq<Slot>, i: nat): (r: int)
    requires i <= |threads|
    ensures r == -1 <==> forall k :: i <= k < |threads| ==> threads[k].Taken?
    ensures r != -1 ==> i <= r < |threads| && threads[r].Empty? && forall k :: i <= k < r ==> threads[k].Taken?
    decreases |threads| - i
  {
    if i == |threads| then -1 else if threads[i].Empty? then i else MinAvailable(threads, i + 1)
  }

  // ---------------------------------------------------------------- context switches

  // The head of the queue runs; a pending join completes.
  function Resume(s: State, ret: int): (r: Outcome)
    requires |s.ready| > 0
    ensures r.Next? && r.s.ready == s.ready
  {
    var h := s.ready[0];
    var j := Get(s, h).pending;
    if j < 0 then Next(s, ret, Nothing)
    else
      Next(FreeSlot(Put(s, h, Get(s, h).(pending := -1)), j), ret,
           Delivers(Delivery(Get(s, h).serial, Get(s, j).serial, Get(s, j).state)))
  }

  // Thread w, if there is one, becomes ready at the tail of the queue.
  function Wake(s: State, w: int): (s': State)
    ensures |s'.threads| == |s.threads| && s'.count == s.count
  {
    if w >= 0 then Put(s, w, Get(s, w).(state := ALIVE)).(ready := s.ready + [w]) else s
  }

  // TAILQ_REMOVE of the entry of thread i, if that is in the queue.
  function Remove(q: seq<int>, i: int): (r: seq<int>)
    ensures forall x :: x in r ==> x in q
    ensures i !in q ==> r == q
  {
    if |q| == 0 then []
    else if q[0] == i then q[1..]
    else [q[0]] + Remove(q[1..], i)
  }

  // ---------------------------------------------------------------- the calls

  function CreateOp(s: State): Outcome {
    var s1 := if s.count >= |s.threads| then Expand(s) else s;
    var id := MinAvailable(s1.threads, 0);
    if id < 0 then ProcessEnds
    else Next(Put(s1, id, Tcb(id, -1, ALIVE, -1, s.count, -1)).(count := s.count + 1, ready := s.ready + [id]), id, Nothing)
  }

  // The loop of wut_cancel over the queue, from position i on: the first thread
  // that thread id waits for no longer has a waiter.
  function Unblock(s: State, i: nat, id: int): (s': State)
    requires i <= |s.ready|
    ensures s'.ready == s.ready && s'.count == s.count && |s'.threads| == |s.threads|
    decreases |s.ready| - i
  {
    if i == |s.ready| then s
    else if Get(s, s.ready[i]).blockId == id then Put(s, s.ready[i], Get(s, s.ready[i]).(blockId := -1))
    else Unblock(s, i + 1, id)
  }

  // The position in the queue, from i on, of the thread with a given serial; the
  // length of the queue if there is none.
  function Position(s: State, serial: int, i: nat): (k: nat)
    requires i <= |s.ready|
    ensures i <= k <= |s.ready|
    ensures k < |s.ready| ==> Get(s, s.ready[k]).serial == serial
    ensures forall b :: i <= b < k ==> Get(s, s.ready[b]).serial != serial
    decreases |s.ready| - i
  {
    if i == |s.ready| || Get(s, s.ready[i]).serial == serial then i else Position(s, serial, i + 1)
  }

  // TAILQ_REMOVE as wut_cancel uses it.  The entry of a blocked thread is off
  // the queue, but its links still say that it is the first entry and that its
  // follower comes next: removing it makes the follower the first entry, and
  // whatever stands before the follower drops out.
  function Unlink(s: State, id: int): Option<seq<int>> {
    if id in s.ready then Some(Remove(s.ready, id))
    else if !Blocked(s, id) then None
    else if Get(s, id).follower < 0 then Some([])
    else
      var k := Position(s, Get(s, id).follower, 0);
      if k < |s.ready| then Some(s.ready[k..]) else None
  }

  predicate CancelRefused(s: State, id: int)
    requires |s.ready| > 0
  {
    id < 0 || id > |s.threads| || !IsTaken(s, id) || Get(s, s.ready[0]).id == id
  }

  function CancelOp(s: State, id: int): Outcome
    requires |s.ready| > 0
  {
    if CancelRefused(s, id) then Next(s, -1, Nothing)
    else
      var s1 := Unblock(s, 0, id);
      var s2 := Wake(s1, Get(s1, id).blockId);
      match Unlink(s2, id)
      case None => Breaks
      case Some(q) =>
        var s3 := s2.(ready := q);
        Next(Put(s3, id, Get(s3, id).(state := CANCELLED, pending := -1)), 0, Nothing)
  }

  predicate JoinRefused(s: State, id: int)
    requires |s.ready| > 0
  {
    id < 0 || id > |s.threads| || !IsTaken(s, id) || id == Get(s, s.ready[0]).id || Get(s, id).blockId >= 0
  }

  predicate JoinBlocks(s: State, id: int)
    requires |s.ready| > 0
  {
    !JoinRefused(s, id) && Get(s, id).state < 0
  }

  // The running thread is off the queue and waits for thread id.
  function BlockOn(s: State, id: int): State
    requires |s.ready| > 0
  {
    var h := s.ready[0];
    var next := if |s.ready| > 1 then Get(s, s.ready[1]).serial else -1;
    var s1 := Put(s, h, Get(s, h).(state := BLOCKED, pending := id, follower := next));
    Put(s1, id, Get(s1, id).(blockId := h)).(ready := s.ready[1..])
  }

  function JoinOp(s: State, id: int): Outcome
    requires |s.ready| > 0 && (JoinBlocks(s, id) ==> |s.ready| > 1)
  {
    if JoinRefused(s, id) then Next(s, -1, Nothing)
    else if Get(s, id).state >= 0 then
      Next(FreeSlot(s, id), Get(s, id).state,
           Delivers(Delivery(Get(s, s.ready[0]).serial, Get(s, id).serial, Get(s, id).state)))
    else Resume(BlockOn(s, id), 0)
  }

  function YieldOp(s: State): Outcome
    requires |s.ready| > 0
  {
    if |s.ready| == 1 then Next(s, -1, Nothing)
    else Resume(s.(ready := s.ready[1..] + [s.ready[0]]), 0)
  }

  // wut_exit and then the scheduler: wake the joiner, drop the head, run the next.
  function Finish(s: State, status: int): State
    requires |s.ready| > 0
  {
    var h := s.ready[0];
    var s1 := Put(s, h, Get(s, h).(state := status % 256));
    var s2 := Wake(s1, Get(s1, h).blockId);
    s2.(ready := Remove(s2.ready, h))
  }

  function ExitOp(s: State, status: int): Outcome
    requires |s.ready| > 0
  {
    var s1 := Finish(s, status);
    if |s1.ready| == 0 then ProcessEnds else Resume(s1, 0)
  }

  function Step(s: State, op: Op): Outcome
    requires |s.ready| > 0 && (op.Join? && JoinBlocks(s, op.id) ==> |s.ready| > 1)
  {
    match op
    case Create => CreateOp(s)
    case Cancel(id) => CancelOp(s, id)
    case Join(id) => JoinOp(s, id)
    case Yield => YieldOp(s)
    case Exit(status) => ExitOp(s, status)
  }

  // wut_init: ten slots, the main thread in slot 0 and running.
  function Init(): State {
    State([Taken(Tcb(0, -1, ALIVE, -1, 0, -1))] + seq(9, _ => Empty), 1, [0])
  }
}
