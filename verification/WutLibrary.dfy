// The thread library's global variables and its calls, in place.  Each call is
// proved equal to the function that specifies it.
module WutLibrary {
  import opened Common
  import opened WutState
  import opened WutInvariant
  import opened WutSteps

  class Wut {
    var threads: seq<Slot>
    var threadsCount: nat
    var readyQueue: seq<int>

    function Abs(): State
      reads this
    {
      State(threads, threadsCount, readyQueue)
    }

    constructor ()
      ensures Abs() == Init()
    {
      var table: seq<Slot> := seq(10, _ => Empty);
      threads := table[0 := Taken(Tcb(0, -1, ALIVE, -1, 0, -1))];
      threadsCount := 1;
      readyQueue := [0];
      new;
      assert threads == Init().threads;
    }

    // ---------------------------------------------------------------- helpers

    method ThreadsExpand()
      modifies this`threads
      ensures Abs() == Expand(old(Abs()))
    {
      var before := threads;
      var i := |before|;
      var capacity := 2 * |before|;
      while i < capacity
        invariant |before| <= i <= capacity && |threads| == i
        invariant threads[..|before|] == before
        invariant forall k :: |before| <= k < i ==> threads[k] == Empty
      {
        threads := threads + [Empty];
        i := i + 1;
      }
      assert threads == before + seq(|before|, _ => Empty);
    }

    method MinAvailableId() returns (id: int)
      ensures id == MinAvailable(threads, 0)
    {
      var i := 0;
      while i < |threads|
        invariant 0 <= i <= |threads| && MinAvailable(threads, i) == MinAvailable(threads, 0)
      {
        if threads[i].Empty? { return i; }
        i := i + 1;
      }
      return -1;
    }

    method SetThread(i: int, t: Tcb)
      modifies this`threads
      ensures Abs() == Put(old(Abs()), i, t)
    {
      if 0 <= i < |threads| { threads := threads[i := Taken(t)]; }
    }

    method DropThread(i: int)
      modifies this`threads
      ensures Abs() == FreeSlot(old(Abs()), i)
    {
      if 0 <= i < |threads| { threads := threads[i := Empty]; }
    }

    method WakeThread(w: int)
      modifies this`threads, this`readyQueue
      ensures Abs() == Wake(old(Abs()), w)
    {
      if w >= 0 {
        var t := Get(Abs(), w);
        readyQueue := readyQueue + [w];
        SetThread(w, t.(state := ALIVE));
      }
    }

    method RemoveEntry(i: int)
      modifies this`readyQueue
      ensures Abs() == old(Abs()).(ready := Remove(old(readyQueue), i))
    {
      readyQueue := Remove(readyQueue, i);
    }

    // The removal in wut_cancel; ok is false if it leaves no proper queue.
    method UnlinkEntry(i: int) returns (ok: bool)
      modifies this`readyQueue
      ensures Unlink(old(Abs()), i) == if ok then Some(readyQueue) else None
      ensures Abs() == old(Abs()).(ready := readyQueue)
    {
      if i in readyQueue {
        RemoveEntry(i);
        return true;
      }
      if !Blocked(Abs(), i) { return false; }
      var follower := Get(Abs(), i).follower;
      if follower < 0 {
        readyQueue := [];
        return true;
      }
      var k := 0;
      while k < |readyQueue| && Get(Abs(), readyQueue[k]).serial != follower
        invariant 0 <= k <= |readyQueue| && Abs() == old(Abs())
        invariant Position(Abs(), follower, k) == Position(Abs(), follower, 0)
      {
        k := k + 1;
      }
      ok := k < |readyQueue|;
      if ok { readyQueue := readyQueue[k..]; }
    }

    // The tail of wut_join, run by the new head if it was waiting there.
    method ResumeHead(ghost ret: int) returns (event: Event)
      requires |readyQueue| > 0
      modifies this`threads
      ensures Resume(old(Abs()), ret) == Next(Abs(), ret, event)
    {
      var h := readyQueue[0];
      var t := Get(Abs(), h);
      if t.pending < 0 { return Nothing; }
      var j := Get(Abs(), t.pending);
      SetThread(h, t.(pending := -1));
      DropThread(t.pending);
      event := Delivers(Delivery(t.serial, j.serial, j.state));
    }

    // ---------------------------------------------------------------- calls

    method WutCreate() returns (id: int)
      requires Inv(Abs())
      modifies this
      ensures CreateOp(old(Abs())) == Next(Abs(), id, Nothing)
    {
      CreateWorks(Abs());
      if threadsCount >= |threads| { ThreadsExpand(); }
      var serial := threadsCount;
      threadsCount := threadsCount + 1;
      id := MinAvailableId();
      SetThread(id, Tcb(id, -1, ALIVE, -1, serial, -1));
      readyQueue := readyQueue + [id];
    }

    // broken is set if the removal leaves no proper queue.
    method WutCancel(id: int) returns (r: int, broken: bool)
      requires Inv(Abs()) && id != |threads| && (!CancelRefused(Abs(), id) ==> Live(Abs(), id))
      modifies this
      ensures CancelOp(old(Abs()), id) == if broken then Breaks else Next(Abs(), r, Nothing)
    {
      r, broken := -1, false;
      if CancelRefused(Abs(), id) { return; }
      var i := 0;
      while i < |readyQueue|
        invariant 0 <= i <= |readyQueue| && Abs() == old(Abs())
        invariant Unblock(Abs(), i, id) == Unblock(old(Abs()), 0, id)
      {
        var t := Get(Abs(), readyQueue[i]);
        if t.blockId == id {
          SetThread(readyQueue[i], t.(blockId := -1));
          break;
        }
        i := i + 1;
      }
      assert Abs() == Unblock(old(Abs()), 0, id);
      WakeThread(Get(Abs(), id).blockId);
      var ok := UnlinkEntry(id);
      if !ok { return -1, true; }
      SetThread(id, Get(Abs(), id).(state := CANCELLED, pending := -1));
      r := 0;
    }

    // r is what the call returns if it returns at once; event is the status
    // that some join, this one or a resumed one, returns.
    method WutJoin(id: int) returns (r: int, event: Event)
      requires Inv(Abs()) && id != |threads| && (JoinBlocks(Abs(), id) ==> |readyQueue| > 1)
      modifies this
      ensures JoinOp(old(Abs()), id) == Next(Abs(), r, event)
    {
      var h := readyQueue[0];
      if JoinRefused(Abs(), id) { return -1, Nothing; }
      var target := Get(Abs(), id);
      if target.state >= 0 {
        var joiner := Get(Abs(), h).serial;
        DropThread(id);
        return target.state, Delivers(Delivery(joiner, target.serial, target.state));
      }
      var follower := if |readyQueue| > 1 then Get(Abs(), readyQueue[1]).serial else -1;
      SetThread(h, Get(Abs(), h).(state := BLOCKED, pending := id, follower := follower));
      SetThread(id, Get(Abs(), id).(blockId := h));
      readyQueue := readyQueue[1..];
      r := 0;
      event := ResumeHead(0);
    }

    method WutYield() returns (r: int, event: Event)
      requires Inv(Abs())
      modifies this
      ensures YieldOp(old(Abs())) == Next(Abs(), r, event)
    {
      if |readyQueue| == 1 { return -1, Nothing; }
      readyQueue := readyQueue[1..] + [readyQueue[0]];
      r := 0;
      event := ResumeHead(0);
    }

    // wut_exit followed by the scheduler.
    method WutExit(status: int) returns (ended: bool, event: Event)
      requires Inv(Abs())
      modifies this
      ensures ExitOp(old(Abs()), status) == if ended then ProcessEnds else Next(Abs(), 0, event)
    {
      var h := readyQueue[0];
      SetThread(h, Get(Abs(), h).(state := status % 256));
      WakeThread(Get(Abs(), h).blockId);
      RemoveEntry(h);
      assert Abs() == Finish(old(Abs()), status);
      if |readyQueue| == 0 { return true, Nothing; }
      ended := false;
      event := ResumeHead(0);
    }
  }
}
