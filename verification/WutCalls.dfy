// What each call returns and does, written out, in every state of the invariant.
module WutCalls {
  import opened WutState
  import opened WutInvariant
  import opened WutSteps
  import opened WutRuns

  lemma {:induction false} RemoveAt(q: seq<int>, i: int) returns (k: nat)
    requires i in q
    ensures k < |q| && q[k] == i && i !in q[..k] && Remove(q, i) == q[..k] + q[k + 1..]
  {
    if q[0] == i {
      k := 0;
    } else {
      var n := RemoveAt(q[1..], i);
      k := n + 1;
      assert q[..k] == [q[0]] + q[1..][..n] && q[k + 1..] == q[1..][n + 1..];
    }
  }

  // ---------------------------------------------------------------- join

  lemma JoinOfTerminated(s: State, id: int)
    requires Inv(s) && IsTaken(s, id) && id != s.ready[0] && Get(s, id).blockId < 0 && Get(s, id).state >= 0
    ensures !JoinRefused(s, id) && 0 <= Get(s, id).state < 256
    ensures JoinOp(s, id) == Next(s.(threads := s.threads[id := Empty]), Get(s, id).state,
      Delivers(Delivery(Get(s, s.ready[0]).serial, Get(s, id).serial, Get(s, id).state)))
  {
    HeadAlive(s);
  }

  lemma JoinOfLive(s: State, id: int)
    requires Inv(s) && Live(s, id) && id != s.ready[0] && Get(s, id).blockId < 0
    ensures JoinBlocks(s, id)
    ensures |s.ready| > 1 ==>
      var o, h := JoinOp(s, id), s.ready[0];
      && o.Next? && o.s.ready == s.ready[1..]
      && IsTaken(o.s, h) && Get(o.s, h).state == -2 && Get(o.s, h).pending == id
      && IsTaken(o.s, id) && Get(o.s, id).state == Get(s, id).state && Get(o.s, id).blockId == h
  {
    HeadAlive(s);
    if |s.ready| > 1 {
      var s1, x := BlockOn(s, id), s.ready[1];
      assert Alive(s, x) && x != s.ready[0];
      var j := Get(s1, x).pending;
      if j >= 0 { assert WaitsFor(s, x, j); }
    }
  }

  // wut_join returns -1 at once, and changes nothing, if and only if the id is
  // out of range, its slot is empty, it is the caller, or its thread already has
  // a waiter.  The status of any other terminated thread is returned at once, and
  // its slot is freed.  Any other live thread blocks the caller.
  lemma JoinReturns(s: State, id: int)
    requires Inv(s) && id != |s.threads| && (JoinBlocks(s, id) ==> |s.ready| > 1)
    ensures var o := JoinOp(s, id);
      var refused := id < 0 || id > |s.threads| || !IsTaken(s, id) || id == s.ready[0] || Get(s, id).blockId >= 0;
      && (o.Next? && o.ret == -1 <==> refused)
      && (refused ==> o == Next(s, -1, Nothing))
      && (!refused && Get(s, id).state >= 0 ==>
        && o.Next? && o.ret == Get(s, id).state && 0 <= o.ret < 256
        && o.event == Delivers(Delivery(Get(s, s.ready[0]).serial, Get(s, id).serial, o.ret))
        && o.s == s.(threads := s.threads[id := Empty]))
      && (!refused && Get(s, id).state < 0 ==>
        && o.Next? && o.s.ready == s.ready[1..] && Get(o.s, s.ready[0]).state == -2 && Get(o.s, s.ready[0]).pending == id
        && Get(o.s, id).state == Get(s, id).state && Get(o.s, id).blockId == s.ready[0])
  {
    HeadAlive(s);
    if IsTaken(s, id) && id != s.ready[0] && Get(s, id).blockId < 0 {
      if Get(s, id).state >= 0 {
        JoinOfTerminated(s, id);
      } else {
        JoinOfLive(s, id);
        assert JoinOp(s, id).ret == 0;
      }
    }
  }

  // ---------------------------------------------------------------- cancel

  // wut_cancel returns -1 if and only if the id is out of range, its slot is empty,
  // or it is the caller, and then it changes nothing.
  lemma CancelRefusesIff(s: State, id: int)
    requires Inv(s) && id != |s.threads|
    ensures var o := CancelOp(s, id);
      var refused := id < 0 || id > |s.threads| || !IsTaken(s, id) || id == s.ready[0];
      && (o.Next? && o.ret == -1 <==> refused)
      && (refused ==> o == Next(s, -1, Nothing))
      && (!refused && o.Next? ==> o.ret == 0 && o.event == Nothing)
  {
    HeadAlive(s);
  }

  lemma {:induction false} RemoveBeforeTail(q: seq<int>, id: int, w: int)
    requires id in q
    ensures Remove(q + [w], id) == Remove(q, id) + [w]
  {
    assert (q + [w])[1..] == q[1..] + [w];
    if q[0] != id { RemoveBeforeTail(q[1..], id, w); }
  }

  lemma QueueAfterCancel(q: seq<int>, id: int, w: int) returns (k: nat)
    requires id in q
    ensures k < |q| && q[k] == id
    ensures Remove(if w >= 0 then q + [w] else q, id) == q[..k] + q[k + 1..] + if w >= 0 then [w] else []
  {
    k := RemoveAt(q, id);
    RemoveBeforeTail(q, id, w);
  }

  // Any other ready thread is cancelled: the call returns 0, the thread has
  // terminated with status 128 and is off the queue, and the thread that waits
  // for it, if there is one, is ready at the tail and will collect that status.
  // No other thread changes.
  lemma CancelReturns(s: State, id: int) returns (k: nat)
    requires Inv(s) && id != s.ready[0] && Alive(s, id)
    ensures k < |s.ready| && s.ready[k] == id
    ensures var o, w := CancelOp(s, id), Get(s, id).blockId;
      && o.Next? && o.ret == 0 && o.event == Nothing
      && o.s.ready == s.ready[..k] + s.ready[k + 1..] + (if w >= 0 then [w] else [])
      && id !in o.s.ready && IsTaken(o.s, id) && Get(o.s, id) == Get(s, id).(state := 128, pending := -1)
      && (w >= 0 ==> Get(s, w).state == -2 && IsTaken(o.s, w) && Get(o.s, w) == Get(s, w).(state := -1) && Woken(o.s, w, id))
      && SameBut(s, o.s, id, w)
  {
    var s', w := CancelOp(s, id).s, Get(s, id).blockId;
    HeadAlive(s);
    CancelKeeps(s, id);
    assert Unblock(s, 0, id) == s;
    if w >= 0 { JoinsButSelf(s, id); OwnWaiter(s, id); }
    assert w !in s.ready && w != id;
    k := QueueAfterCancel(s.ready, id, w);
    CancelRefusesIff(s, id);
    assert Alive(s', s.ready[0]) && s'.ready[0] == s.ready[0] && !Alive(s', id);
  }

  // A thread that nobody waited for, once cancelled, is joined with 128.
  lemma CancelThenJoin(s: State, id: int)
    requires Inv(s) && id != s.ready[0] && Alive(s, id) && Get(s, id).blockId < 0
    ensures var s' := CancelOp(s, id).s;
      && Inv(s') && s'.ready[0] == s.ready[0] && !JoinBlocks(s', id)
      && JoinOp(s', id).Next? && JoinOp(s', id).ret == 128 && !IsTaken(JoinOp(s', id).s, id)
      && JoinOp(s', id).event == Delivers(Delivery(Get(s, s.ready[0]).serial, Get(s, id).serial, 128))
  {
    hide Core, CancelOp;
    var k := CancelReturns(s, id);
    HeadAlive(s);
    var s' := CancelOp(s, id).s;
    assert k > 0;
    CancelKeeps(s, id);
    assert s'.ready[0] == s.ready[0];
    JoinOfTerminated(s', id);
  }

  // ---------------------------------------------------------------- yield

  // wut_yield returns -1 if and only if no other thread is ready, and then changes
  // nothing; otherwise the caller goes from the head of the queue to its tail.
  lemma YieldReturns(s: State)
    requires Inv(s)
    ensures var o := YieldOp(s);
      && o.Next?
      && (o.ret == -1 <==> |s.ready| == 1)
      && (|s.ready| == 1 ==> o == Next(s, -1, Nothing))
      && (|s.ready| > 1 ==> o.ret == 0 && o.s.ready == s.ready[1..] + [s.ready[0]] && Get(o.s, s.ready[0]) == Get(s, s.ready[0]))
  {
    HeadAlive(s);
    if |s.ready| > 1 {
      var x := s.ready[1];
      assert Alive(s, x) && x != s.ready[0];
      var j := Get(s, x).pending;
      if j >= 0 { assert WaitsFor(s, x, j); }
    }
  }
}
