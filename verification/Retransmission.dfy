/**
 What a reconnect is for: no operation with a packet id is forgotten. Unless the
 user has cancelled it, it is still alive after `resend()`, and it no longer waits
 for a reply of the old connection but is on its way out again.
 */
module Retransmission {
  import opened Requests
  import opened Client
  import opened SerialOrder
  import opened Places
  import opened Engine
  import opened Resending
  import opened Steps
  import opened Theorems

  /** Alive, with a packet id, and not cancelled. */
  ghost predicate Wanted(c: State, id: nat) {
    id in c.h.ops && c.h.ops[id].kind.Bearing() && id !in c.cancelled
  }

  ghost predicate Remembers(c: State, d: State) {
    && d.cancelled == c.cancelled
    && forall id :: Wanted(c, id) ==> Wanted(d, id) && d.h.ops[id] == c.h.ops[id]
  }

  /** Only inbound deliveries wait for a packet that the new connection may bring. */
  predicate OnlyInbound(s: seq<Waiter>) {
    forall w :: w in s ==> w.code.Pubrel?
  }

  ghost predicate Passes(c: State, d: State) {
    && Remembers(c, d) && d.writing && (OnlyInbound(c.table) ==> OnlyInbound(d.table))
    && PostsInbound(c, d)
  }

  /** Nothing new is alive, and only inbound deliveries have anything new posted. */
  ghost predicate PostsInbound(c: State, d: State) {
    && d.h.ops.Keys <= c.h.ops.Keys
    && forall p :: p in d.posted ==> p in c.posted || !p.item.op.kind.Bearing()
  }

  /** A handler that gives up a cancelled operation when it has to start over. */
  predicate GivesUp(item: Item) {
    item.stage.OnPublish? || item.stage.OnPuback? || item.stage.OnPubrec?
    || item.stage.OnSubscribe? || item.stage.OnSuback?
  }

  /** A packet that makes no sense on another connection. */
  predicate Bound(item: Item) {
    item.stage.OnOneShot? || item.stage.OnRecPuback? || item.stage.OnRecPubrec?
    || (item.stage.OnDisconnect? && item.op.kind == Disconnect(false))
  }

  ghost predicate GivenUp(c: State, item: Item) {
    Bound(item) || (GivesUp(item) && item.op.id in c.cancelled) ==> item.op.id !in c.h.ops
  }

  lemma EndPasses(c: State, d: State, op: Op, ending: Ending)
    requires c.writing && op.id in c.h.ops && c.h.ops[op.id] == op
    requires !op.kind.Bearing() || op.id in c.cancelled
    requires d == Complete(c, op, ending)
    ensures Passes(c, d)
  {
  }

  lemma AwaitPasses(c: State, d: State, item: Item)
    requires c.writing && item.stage.OnRecPubrel? && Fits(item) && d == AwaitReply(c, item)
    requires AllWaiters(c.h.ops, c.table)
    ensures Passes(c, d)
  {
    var i := FindWaiter(c.table, Pubrel, item.op.pid);
    if i < |c.table| { assert c.table[i] in c.table && WaiterOk(c.h.ops, c.table[i]); }
  }

  lemma WaiterPasses(c: State, d: State, item: Item)
    requires c.writing && Tracked(c.h.ops, item) && !item.stage.Writes() && d == OnResend(c, item)
    requires AllWaiters(c.h.ops, c.table)
    ensures Passes(c, d) && GivenUp(d, item)
  {
    if item.stage.OnRecPubrel? {
      AwaitPasses(c, d, item);
    } else if !item.stage.OnPubcomp? && item.op.id in c.cancelled {
      EndPasses(c, d, item.op, Failed);
    }
  }

  lemma RequestPasses(c: State, d: State, item: Item)
    requires c.writing && Tracked(c.h.ops, item) && item.stage.Writes() && d == OnTryAgain(c, item)
    requires AllWaiters(c.h.ops, c.table)
    ensures Passes(c, d) && GivenUp(d, item)
  {
    match item.stage
    case OnPublish => if item.op.id in c.cancelled { EndPasses(c, d, item.op, Failed); }
    case OnPubrel =>
    case OnSubscribe => if item.op.id in c.cancelled { EndPasses(c, d, item.op, Failed); }
    case OnDisconnect => if !item.op.kind.retry { EndPasses(c, d, item.op, Completed); }
    case OnOneShot => EndPasses(c, d, item.op, Failed);
    case OnRecPuback => EndPasses(c, d, item.op, Failed);
    case OnRecPubrec => EndPasses(c, d, item.op, Failed);
    case OnRecPubcomp => AwaitPasses(c, d, item.(stage := OnRecPubrel));
  }

  lemma {:induction false} WaitersPass(c: State, s: seq<Waiter>, reqs: seq<Request>)
    requires Holding(c, s, reqs) && WaitersFit(s) && c.writing
    ensures var d := ResendWaiters(c, s);
      Passes(c, d) && Holding(d, [], reqs) && forall w :: w in s ==> GivenUp(d, w.item)
    decreases |s|
  {
    if s != [] {
      assert s[0] in s;
      var d := OnResend(c, s[0].item);
      WaiterPasses(c, d, s[0].item);
      NextWaiter(c, d, s, reqs);
      WaitersPass(d, s[1..], reqs);
      assert forall w :: w in s ==> w == s[0] || w in s[1..];
    }
  }

  lemma {:induction false} RequestsPass(c: State, s: seq<Request>)
    requires Holding(c, [], s) && RequestsFit(s) && c.writing
    ensures var d := RetryRequests(c, s); Passes(c, d) && forall r :: r in s ==> GivenUp(d, r.item)
    decreases |s|
  {
    if s != [] {
      assert s[0] in s;
      assert RequestOk(c.h.ops, s[0]);
      var d := OnTryAgain(c, s[0].item);
      RequestPasses(c, d, s[0].item);
      NextRequest(c, d, s);
      RequestsPass(d, s[1..]);
      assert forall r :: r in s ==> r == s[0] || r in s[1..];
    }
  }

  /** `resend()` forgets no wanted operation and gives up the cancelled ones that have
      to start over; afterwards only inbound deliveries wait. */
  lemma ResendRemembers(c: State, d: State, limit: nat)
    requires Placed(c, multiset{}) && !c.writing && WaitersFit(c.table) && RequestsFit(c.queue)
    requires d == Resend(c, limit)
    ensures Remembers(c, d) && OnlyInbound(d.table) && PostsInbound(c, d) && AllGivenUp(d, c.table, c.queue)
  {
    var c1 := Log(c, EpochEvent(c)).(writing := true, limit := limit, quota := limit,
                                     queue := [], table := []);
    RefillPlaced(c, c1);
    var c2 := RetryRequests(ResendWaiters(c1, c.table), c.queue);
    RefillPasses(c1, c2, c.table, c.queue);
    PumpRemembers(c2, d);
  }

  lemma RefillPasses(c: State, d: State, table: seq<Waiter>, queue: seq<Request>)
    requires Holding(c, table, queue) && WaitersFit(table) && RequestsFit(queue)
    requires c.writing && d == RetryRequests(ResendWaiters(c, table), queue)
    ensures Passes(c, d) && AllGivenUp(d, table, queue)
  {
    WaitersPass(c, table, queue);
    RequestsPass(ResendWaiters(c, table), queue);
  }

  ghost predicate AllGivenUp(d: State, table: seq<Waiter>, queue: seq<Request>) {
    && (forall w :: w in table ==> GivenUp(d, w.item))
    && (forall r :: r in queue ==> GivenUp(d, r.item))
  }

  lemma PumpRemembers(c: State, d: State)
    requires d == Pump(c.(queue := StableSort(c.queue), writing := false))
    ensures Remembers(c, d) && d.table == c.table && PostsInbound(c, d) && d.h.ops == c.h.ops
  {
    PumpKeepsCalls(c.(queue := StableSort(c.queue), writing := false));
  }

  // ----- a new connection

  ghost predicate SameOps(ops: map<nat, Op>, s: seq<Waiter>) {
    forall w :: w in s && w.code.Pubrel? && w.item.op.id in ops ==>
      ops[w.item.op.id] == w.item.op && w.item.op.kind.Receive?
  }

  /** The waiters for a PUBREL end; the others are kept. */
  ghost predicate Cleared(c: State, d: State, s: seq<Waiter>, kept: seq<Waiter>) {
    && d.h.ops.Keys <= c.h.ops.Keys && d.posted == c.posted
    && (forall w :: w in s && w.code.Pubrel? ==> w.item.op.id !in d.h.ops)
    && (forall w :: w in d.table <==> w in kept || (w in s && !w.code.Pubrel?))
  }

  lemma {:induction false} ClearRemembers(c: State, s: seq<Waiter>, kept: seq<Waiter>)
    requires SameOps(c.h.ops, s)
    ensures var d := ClearPubrels(c, s, kept); Remembers(c, d) && Cleared(c, d, s, kept)
    decreases |s|
  {
    if s != [] {
      assert s[0] in s;
      if s[0].code.Pubrel? {
        ClearRemembers(Retire(c, s[0].item.op, Failed), s[1..], kept);
      } else {
        ClearRemembers(c, s[1..], kept + [s[0]]);
      }
      assert forall w :: w in s <==> w == s[0] || w in s[1..];
    }
  }

  lemma SessionRemembers(c: State, present: bool)
    requires AllWaiters(c.h.ops, c.table)
    ensures var d := UpdateSession(c, present); Remembers(c, d) && (if present then d == c else Cleared(c, d, c.table, []))
  {
    forall w | w in c.table && w.code.Pubrel? ensures c.h.ops[w.item.op.id] == w.item.op && w.item.op.kind.Receive? {
      assert WaiterOk(c.h.ops, w);
    }
    if !present { ClearRemembers(c, c.table, []); }
  }

  ghost predicate GoesOut(d: State, id: nat) {
    exists r :: (r in d.queue || r in d.batch) && r.item.op.id == id
  }

  /** After an effective resend, an operation with a packet id that has no reply
      posted to it is in the write queue or in the batch being written. */
  lemma OnItsWay(d: State, id: nat)
    requires Placed(d, multiset{}) && d.done == [] && OnlyInbound(d.table)
    requires id in d.h.ops && d.h.ops[id].kind.Bearing()
    requires forall p :: p in d.posted ==> p.item.op.id != id
    ensures GoesOut(d, id)
  {
    assert (Census(d) + multiset{})[id] == 1;
    forall i | 0 <= i < |d.table| ensures d.table[i].item.op.id != id {
      assert d.table[i] in d.table && WaiterOk(d.h.ops, d.table[i]);
    }
    NotAmong(d, id);
    if id in multiset(RequestIds(d.queue)) {
      Among(d.queue, id);
    } else {
      Among(d.batch, id);
    }
  }

  lemma NotAmong(d: State, id: nat)
    requires Census(d)[id] == 1 && d.done == []
    requires forall i :: 0 <= i < |d.table| ==> d.table[i].item.op.id != id
    requires forall p :: p in d.posted ==> p.item.op.id != id
    ensures id in multiset(RequestIds(d.queue)) || id in multiset(RequestIds(d.batch))
  {
    assert id !in WaiterIds(d.table);
    assert id !in PostedIds(d.posted);
    assert RequestIds(d.done) == [];
  }

  lemma Among(s: seq<Request>, id: nat)
    requires id in multiset(RequestIds(s))
    ensures exists r :: r in s && r.item.op.id == id
  {
    assert id in RequestIds(s);
    var i :| 0 <= i < |s| && RequestIds(s)[i] == id;
    assert s[i] in s;
  }

  /** A step in which `resend()` has an effect. */
  predicate Reconnects(c: State, s: Step) {
    s.WriteAgainStep? || (s.ReadAgainStep? && !c.writing)
  }

  /** What a reconnect leaves of the operations. */
  ghost predicate Renewed(c: State, d: State, present: bool, queue: seq<Request>) {
    && Remembers(c, d) && OnlyInbound(d.table) && PostsInbound(c, d) && AllGivenUp(d, c.table, queue)
    && (!present ==> EndsPubrels(c, d))
  }

  ghost predicate EndsPubrels(c: State, d: State) {
    forall w :: w in c.table && w.code.Pubrel? ==> w.item.op.id !in d.h.ops
  }

  lemma Renews(c: State, c1: State, c2: State, d: State, present: bool)
    requires AllWaiters(c.h.ops, c.table) && c1 == UpdateSession(c, present) && c2 == c1.(queue := c2.queue)
    requires Remembers(c2, d) && OnlyInbound(d.table) && PostsInbound(c2, d) && AllGivenUp(d, c2.table, c2.queue)
    ensures Renewed(c, d, present, c2.queue)
  {
    SessionRemembers(c, present);
    forall w | w in c.table ensures GivenUp(d, w.item) {
      assert WaiterOk(c.h.ops, w);
    }
  }

  /** The connection is replaced, as the writer or the reader finds out: in every
      reachable state no wanted operation is forgotten, and each is on its way out
      again unless it already had its reply. */
  lemma ReconnectForgetsNothing(c: State, s: Step, id: nat)
    requires Reachable(c) && WellShaped(c) && Enabled(c, s) && Reconnects(c, s) && Wanted(c, id)
    ensures var d := Next(c, s);
      && Wanted(d, id)
      && (GoesOut(d, id) || exists p :: p in c.posted && p.item.op.id == id)
  {
    ReachableKeeps(c);
    StepKeeps(c, s);
    var d := Next(c, s);
    StepRenews(c, s, d);
    if forall p :: p in c.posted ==> p.item.op.id != id {
      forall p | p in d.posted ensures p.item.op.id != id {
        assert PostedOk(d.h.ops, p);
      }
      OnItsWay(d, id);
    }
  }

  /** A waiter for anything but a PUBREL starts over: it is on its way out again, or, if
      the user has cancelled it, it has ended, unless its message is already released. */
  lemma WaitersStartOver(c: State, s: Step, w: Waiter)
    requires Reachable(c) && WellShaped(c) && Enabled(c, s) && Reconnects(c, s)
    requires w in c.table && w.code != Pubrel
    ensures var d, id := Next(c, s), w.item.op.id;
      && (id !in c.cancelled ==> GoesOut(d, id))
      && (id in c.cancelled && w.code != Pubcomp ==> id !in d.h.ops)
      && w !in d.table
  {
    ReachableKeeps(c);
    var d, id := Next(c, s), w.item.op.id;
    StepRenews(c, s, d);
    assert WaiterOk(c.h.ops, w);
    if id !in c.cancelled {
      ReconnectForgetsNothing(c, s, id);
      NotPostedToo(c, w);
    }
  }

  /** Whoever waits has nothing posted to it. */
  lemma NotPostedToo(c: State, w: Waiter)
    requires Placed(c, multiset{}) && w in c.table
    ensures forall p :: p in c.posted ==> p.item.op.id != w.item.op.id
  {
    var i :| 0 <= i < |c.table| && c.table[i] == w;
    WaiterIdsWithout(c.table, i);
    var d := c.(table := Without(c.table, i));
    assert Census(d) + multiset{w.item.op.id} == Census(c) + multiset{};
    HeldIsNowhere(d, multiset{w.item.op.id}, w.item.op.id);
  }

  /** Requests that are not written on the new connection: a PUBLISH or SUBSCRIBE that was
      cancelled, and a PINGREQ, a PUBACK, a PUBREC or a DISCONNECT of the client's own. */
  lemma RequestsLeftBehind(c: State, s: Step, r: Request)
    requires Reachable(c) && WellShaped(c) && Enabled(c, s) && Reconnects(c, s)
    requires r in c.queue || r in c.batch
    requires r.item.stage in {OnOneShot, OnRecPuback, OnRecPubrec} || r.item.op.kind == Disconnect(false)
      || (r.item.op.id in c.cancelled && r.item.stage in {OnPublish, OnSubscribe})
    ensures r.item.op.id !in Next(c, s).h.ops
  {
    ReachableKeeps(c);
    assert RequestOk(c.h.ops, r);
    StepRenews(c, s, Next(c, s));
  }

  /** Without a session on the broker no inbound delivery that waits for its PUBREL
      survives, whether or not a write is in progress. */
  lemma LostSessionEndsDeliveries(c: State, s: Step, w: Waiter)
    requires Reachable(c) && WellShaped(c) && Enabled(c, s)
    requires (s.WriteAgainStep? || s.ReadAgainStep?) && !s.present && w in c.table && w.code == Pubrel
    ensures w.item.op.id in c.h.ops && w.item.op.id !in Next(c, s).h.ops
  {
    ReachableKeeps(c);
    assert WaiterOk(c.h.ops, w);
    if Reconnects(c, s) {
      StepRenews(c, s, Next(c, s));
    } else {
      SessionRemembers(c, false);
      ShapeAfterSession(c, false);
    }
  }

  lemma StepRenews(c: State, s: Step, d: State)
    requires Invariant(c) && WellShaped(c) && Enabled(c, s) && Reconnects(c, s) && d == Next(c, s)
    ensures Renewed(c, d, s.present, c.batch + c.queue) && d.done == []
  {
    if s.WriteAgainStep? {
      WriteAgainRemembers(c, d, s.present, s.limit);
    } else {
      ReadAgainRemembers(c, d, s.present, s.limit);
    }
  }

  lemma ReadAgainRemembers(c: State, d: State, present: bool, limit: nat)
    requires Invariant(c) && WellShaped(c) && Enabled(c, ReadAgainStep(present, limit)) && !c.writing
    requires d == Next(c, ReadAgainStep(present, limit))
    ensures Renewed(c, d, present, c.batch + c.queue) && d.done == []
  {
    var c1 := UpdateSession(c, present);
    NoWaiters();
    SessionStep(c, c1, present, []);
    ShapeAfterSession(c, present);
    ResendRemembers(c1, d, limit);
    Renews(c, c1, c1, d, present);
    assert c.batch + c.queue == c.queue;
    ResendDone(c1, limit);
  }

  lemma WriteAgainRemembers(c: State, d: State, present: bool, limit: nat)
    requires Invariant(c) && WellShaped(c) && Enabled(c, WriteAgainStep(present, limit))
    requires d == Next(c, WriteAgainStep(present, limit))
    ensures Renewed(c, d, present, c.batch + c.queue) && d.done == []
  {
    var c0 := c.(writing := false, batch := []);
    TakenBack(c, c0);
    var c1 := UpdateSession(c0, present);
    SessionStep(c0, c1, present, c.batch);
    ShapeAfterSession(c0, present);
    var c2 := c1.(queue := c.batch + c1.queue);
    PutInPlace(c1, c2, c.batch);
    ResendRemembers(c2, d, limit);
    Renews(c0, c1, c2, d, present);
    ResendDone(c2, limit);
  }

  lemma {:induction false} WaitersDone(c: State, s: seq<Waiter>)
    requires WaitersFit(s) && c.writing
    ensures var d := ResendWaiters(c, s); d.done == c.done && d.writing
    decreases |s|
  {
    if s != [] {
      assert s[0] in s;
      WaiterQuietly(c, OnResend(c, s[0].item), s[0].item);
      WaitersDone(OnResend(c, s[0].item), s[1..]);
    }
  }

  lemma {:induction false} RequestsDone(c: State, s: seq<Request>)
    requires RequestsFit(s) && c.writing
    ensures RetryRequests(c, s).done == c.done
    decreases |s|
  {
    if s != [] {
      assert s[0] in s;
      RequestQuietly(c, OnTryAgain(c, s[0].item), s[0].item);
      RequestsDone(OnTryAgain(c, s[0].item), s[1..]);
    }
  }

  lemma ResendDone(c: State, limit: nat)
    requires WaitersFit(c.table) && RequestsFit(c.queue)
    ensures Resend(c, limit).done == c.done
  {
    if !c.writing {
      var c1 := Log(c, EpochEvent(c)).(writing := true, limit := limit, quota := limit,
                                       queue := [], table := []);
      WaitersDone(c1, c.table);
      RequestsDone(ResendWaiters(c1, c.table), c.queue);
    }
  }
}
