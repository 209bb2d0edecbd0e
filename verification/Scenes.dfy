/**
 What the client can be brought to do. From any state its queue can be flushed,
 and an idle client can be made to publish on any packet id that is free.
 */
module Scenes {
  import opened Requests
  import opened Client
  import opened SerialOrder
  import opened Places
  import opened Theorems
  import Seqs

  // ----- runs with given steps

  ghost predicate Comes(steps: seq<Step>, c: State) {
    exists states :: IsRun(states, steps) && c == states[|steps|]
  }

  lemma RunOf(steps: seq<Step>, c: State) returns (states: seq<State>)
    requires Comes(steps, c)
    ensures IsRun(states, steps) && states[|steps|] == c
  {
    states :| IsRun(states, steps) && c == states[|steps|];
  }

  lemma RunsFrom()
    ensures Comes([], Initial) && Reachable(Initial) && WellShaped(Initial)
  {
    assert IsRun([Initial], []);
    ReachableKeeps(Initial);
  }

  lemma RunsOn(steps: seq<Step>, c: State, s: Step, d: State)
    requires Comes(steps, c) && Follows(c, s, d)
    ensures Comes(steps + [s], d) && Reachable(d) && WellShaped(d)
  {
    var states :| IsRun(states, steps) && c == states[|steps|];
    Seqs.Prolonged((c, s, d) => Follows(c, s, d), states, steps, s, d);
    assert IsRun(states + [d], steps + [s]);
    assert (states + [d])[|steps + [s]|] == d;
    ReachableKeeps(d);
  }

  predicate Idle(c: State) {
    !c.writing && c.queue == [] && c.batch == [] && c.done == [] && c.limit == MAX_LIMIT
  }

  // ----- flushing

  /** Nothing new was called, no packet id was taken and the limit is the same. */
  predicate Leaves(c: State, d: State) {
    d.inUse <= c.inUse && d.h.next == c.h.next && d.limit == c.limit && d.done == c.done
  }

  predicate Aside(c: State, d: State) {
    Leaves(c, d) && d.queue == c.queue && d.batch == c.batch && d.writing == c.writing
  }

  lemma AwaitLeaves(c: State, d: State, item: Item)
    requires !item.stage.Writes() && d == AwaitReply(c, item)
    ensures Aside(c, d)
  {
  }

  lemma WrittenLeaves(c: State, d: State, item: Item)
    requires c.limit == MAX_LIMIT && item.stage.Writes() && Fits(item) && d == OnWritten(c, item)
    ensures Aside(c, d)
  {
    if item.stage.OnPublish? && !item.op.kind.Qos0? {
      AwaitLeaves(Log(c, Written(item.op.id)), d,
                  item.(stage := if item.op.kind.Qos1? then OnPuback else OnPubrec));
    } else if item.stage.OnPubrel? || item.stage.OnSubscribe? || item.stage.OnRecPubrec? {
      AwaitLeaves(c, d, item.(stage := if item.stage.OnPubrel? then OnPubcomp
                                       else if item.stage.OnSubscribe? then OnSuback else OnRecPubrel));
    } else {
      EndLeaves(c, d, item);
    }
  }

  lemma EndLeaves(c: State, d: State, item: Item)
    requires c.limit == MAX_LIMIT && (d == Complete(c, item.op, Completed)
               || (item.op.kind.Receive? && d == Deliver(c, item.op)))
    ensures Aside(c, d)
  {
  }

  /** The sender has sent what it could. */
  predicate Settling(c: State) {
    c.limit == MAX_LIMIT && (c.queue != [] ==> c.writing)
  }

  lemma PumpLeaves(c: State, d: State)
    requires c.limit == MAX_LIMIT && !c.writing && d == Pump(c)
    ensures Leaves(c, d) && Settling(d)
    ensures d.writing ==> |d.queue| < |c.queue|
  {
  }

  lemma TellLeaves(c: State, d: State)
    requires c.limit == MAX_LIMIT && !c.writing && c.done != [] && RequestsFit(c.done) && d == TellNext(c)
    ensures Leaves(c.(done := d.done), d) && d.done == c.done[1..]
    ensures d.done != [] ==> !d.writing && d.queue == c.queue
    ensures d.done == [] ==> Settling(d) && (d.writing ==> |d.queue| < |c.queue|)
  {
    assert c.done[0] in c.done;
    var c0 := Telling(c);
    var c1 := OnWritten(c0, c.done[0].item);
    WrittenLeaves(c0, c1, c.done[0].item);
    if c1.done == [] { PumpLeaves(c1, d); }
  }

  predicate Refills(c: State, d: State) {
    Leaves(c, d) && d.writing
  }

  lemma {:induction false} WaitersLeave(c: State, s: seq<Waiter>)
    requires c.limit == MAX_LIMIT && c.writing && WaitersFit(s)
    ensures Refills(c, ResendWaiters(c, s))
    decreases |s|
  {
    if s != [] {
      assert s[0] in s;
      WaitersLeave(OnResend(c, s[0].item), s[1..]);
    }
  }

  lemma {:induction false} RequestsLeave(c: State, s: seq<Request>)
    requires c.limit == MAX_LIMIT && c.writing && RequestsFit(s)
    ensures Refills(c, RetryRequests(c, s))
    decreases |s|
  {
    if s != [] {
      assert s[0] in s;
      RequestsLeave(OnTryAgain(c, s[0].item), s[1..]);
    }
  }

  /** A reconnect to a broker that sets no Receive Maximum. */
  lemma ResendLeaves(c: State)
    requires WaitersFit(c.table) && RequestsFit(c.queue) && !c.writing
    ensures var d := Resend(c, MAX_LIMIT); Leaves(c.(limit := MAX_LIMIT), d) && Settling(d)
  {
    var c1 := Log(c, EpochEvent(c)).(writing := true, limit := MAX_LIMIT, quota := MAX_LIMIT,
                                     queue := [], table := []);
    WaitersLeave(c1, c.table);
    var c2 := ResendWaiters(c1, c.table);
    RequestsLeave(c2, c.queue);
    var c3 := RetryRequests(c2, c.queue);
    PumpLeaves(c3.(queue := StableSort(c3.queue), writing := false), Resend(c, MAX_LIMIT));
  }

  // ----- one PUBLISH at a time

  function Sending(op: Op, dup: bool): Request { PublishRequest(Item(op, OnPublish, dup)) }

  function Replied(op: Op): Code { if op.kind.Qos1? then Puback else Pubrec }

  function Expecting(op: Op, dup: bool): Waiter {
    Waiter(Replied(op), op.pid, Item(op, if op.kind.Qos1? then OnPuback else OnPubrec, dup))
  }

  lemma OneEvent(r: Request)
    ensures HandedEvents([r]) == [HandedEvent(r)]
  {
    assert [r][..0] == [];
  }

  /** A request that meets an idle sender goes out alone. */
  lemma SentAlone(c: State, r: Request)
    requires !c.writing && c.queue == [r] && !r.terminal && c.limit == MAX_LIMIT
    ensures Pump(c) == c.(writing := true, batch := [r], queue := [], fast := [],
                          h := c.h.(trace := c.h.trace + [HandedEvent(r)]))
  {
    assert c.queue[1..] == [] && FirstTerminal(c.queue) == 1;
    OneEvent(r);
  }

  function AfterPublish(c: State, op: Op): State {
    c.(writing := true, batch := [Sending(op, false)], inUse := c.inUse + {op.pid}, fast := [],
       lastSerial := (c.lastSerial + 1) % SERIAL_MODULUS,
       h := History(c.h.ops[op.id := op], c.h.owner[op.pid := op.id], c.h.next + 1, c.h.published + 1,
                    c.h.trace + [Started(op.id), HandedEvent(Sending(op, false))]))
  }

  /** The operation of the next publish call. */
  function Upcoming(c: State, kind: Kind): Op {
    Op(c.h.next, kind, LeastFreeFrom(c.inUse, 1), c.h.published + 1)
  }

  lemma Publishes(c: State, op: Op)
    requires Idle(c) && op.kind.Metered() && op.pid != 0 && op == Upcoming(c, op.kind)
    ensures CallPublish(c, op.kind, Valid) == AfterPublish(c, op)
  {
    var r := Sending(op, false);
    var c1 := NextSerial(c);
    var c2 := Admit(c1, op.kind, op.pid, c1.h.published).(queue := [r]);
    assert [] + [r] == [r];
    assert CallPublish(c, op.kind, Valid) == Pump(c2);
    SentAlone(c2, r);
    assert c.h.trace + [Started(op.id)] + [HandedEvent(r)] == AfterPublish(c, op).h.trace;
  }

  function AfterTold(c: State, op: Op, dup: bool): State {
    c.(writing := false, batch := [], table := c.table + [Expecting(op, dup)],
       h := c.h.(trace := c.h.trace + [Told(op.id, PublishPacket), Written(op.id)]))
  }

  lemma IsTold(c: State, op: Op, dup: bool)
    requires c.queue == [] && c.done == [] && c.fast == [] && c.batch == [Sending(op, dup)]
    requires op.kind.Metered() && FindWaiter(c.table, Replied(op), op.pid) == |c.table|
    ensures var d := c.(done := c.batch, batch := [], writing := false);
            TellNext(d) == AfterTold(c, op, dup)
  {
    var d := c.(done := c.batch, batch := [], writing := false);
    assert d.done[1..] == [];
  }

  /** Nobody waits for a reply on a free packet id. */
  lemma NobodyWaits(c: State, code: Code, pid: nat)
    requires Placed(c, multiset{}) && pid !in c.inUse && !code.Pubrel?
    ensures FindWaiter(c.table, code, pid) == |c.table|
  {
    forall w | w in c.table && !w.code.Pubrel? ensures w.pid in c.inUse {
      assert WaiterOk(c.h.ops, w);
    }
  }

  lemma {:induction false} FindsLast(s: seq<Waiter>, w: Waiter)
    requires FindWaiter(s, w.code, w.pid) == |s|
    ensures FindWaiter(s + [w], w.code, w.pid) == |s|
  {
    if s != [] {
      FindsLast(s[1..], w);
      assert (s + [w])[1..] == s[1..] + [w];
    }
  }

  // ----- the least free id

  lemma {:induction false} LeastFreeBelow(taken: set<nat>, n: nat, p: nat)
    requires n <= p <= MAX_PACKET_ID && p !in taken
    ensures n <= LeastFreeFrom(taken, n) <= p
    decreases p - n
  {
    if n in taken { LeastFreeBelow(taken, n + 1, p); }
  }

  /** Once the least free id is taken, the next one is greater. */
  lemma {:induction false} LeastFreeGrows(taken: set<nat>, n: nat, p: nat)
    requires n <= p <= MAX_PACKET_ID && p !in taken && LeastFreeFrom(taken, n) != p
    ensures LeastFreeFrom(taken, n) < LeastFreeFrom(taken + {LeastFreeFrom(taken, n)}, n)
    decreases p - n
  {
    var x := LeastFreeFrom(taken, n);
    if n in taken {
      LeastFreeGrows(taken, n + 1, p);
    } else {
      LeastFreeBelow(taken + {n}, n + 1, p);
    }
  }
}
