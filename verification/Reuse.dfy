/**
 Why exactly once needs care with refusals: a refusal that is acted on while
 something about its PUBLISH is outstanding frees a packet id too early. From
 there the client and the broker can go on to a state in which a message was
 accepted that was never forwarded, because the broker took it for a duplicate
 of the one that had the id before. The network of `ExactlyOnce` may lose packets
 without a reconnect after it, and the way there makes use of that.
 */
module Reuse {
  import opened Requests
  import opened Client
  import opened Places
  import opened Soundness
  import opened Traffic
  import opened Engine
  import opened Steps
  import opened Broker
  import opened Exchange
  import opened ExactlyOnce
  import opened Scenes
  import Seqs

  ghost predicate Leading(w: World, steps: seq<WorldStep>, v: World)
    decreases |steps|
  {
    if steps == [] then v == w
    else
      var n := |steps| - 1;
      exists u :: Leading(w, steps[..n], u) && Feasible(u, steps[n]) && v == After(u, steps[n])
  }

  /** Some steps, whatever refusals they act on, lead from one world to the other. */
  ghost predicate Way(o: World, w: World) {
    exists steps :: Leading(o, steps, w)
  }

  /** Any step but a refusal by the broker. */
  predicate Lenient(s: WorldStep) { s.Serve? ==> s.accept }

  predicate AllLenient(steps: seq<WorldStep>) {
    forall s :: s in steps ==> Lenient(s)
  }

  /** Some steps in which the broker refuses nothing lead there. */
  ghost predicate Leniently(o: World, w: World) {
    exists steps :: Leading(o, steps, w) && AllLenient(steps)
  }

  lemma LeadsOn(o: World, steps: seq<WorldStep>, w: World, s: WorldStep, v: World)
    requires Leading(o, steps, w) && Feasible(w, s) && v == After(w, s)
    ensures Leading(o, steps + [s], v)
  {
    var more := steps + [s];
    assert more[..|steps|] == steps && more[|steps|] == s;
  }

  lemma OnwardAny(o: World, w: World, s: WorldStep, v: World)
    requires Way(o, w) && Feasible(w, s) && v == After(w, s)
    ensures Way(o, v)
  {
    var steps :| Leading(o, steps, w);
    LeadsOn(o, steps, w, s, v);
  }

  lemma Onward(o: World, w: World, s: WorldStep, v: World)
    requires Leniently(o, w) && Feasible(w, s) && v == After(w, s) && Lenient(s)
    ensures Leniently(o, v)
  {
    var steps :| Leading(o, steps, w) && AllLenient(steps);
    LeadsOn(o, steps, w, s, v);
    assert AllLenient(steps + [s]);
  }

  lemma NoWay(o: World)
    ensures Leniently(o, o) && Way(o, o)
  {
    assert Leading(o, [], o) && AllLenient([]);
  }

  /** One way and then another. */
  lemma {:induction false} Joined(o: World, u: World, steps: seq<WorldStep>, v: World)
    requires Way(o, u) && Leading(u, steps, v)
    ensures Way(o, v)
    decreases |steps|
  {
    if steps != [] {
      var n := |steps| - 1;
      var x :| Leading(u, steps[..n], x) && Feasible(x, steps[n]) && v == After(x, steps[n]);
      Joined(o, u, steps[..n], x);
      OnwardAny(o, x, steps[n], v);
    }
  }

  // ----- the client is brought to publish on a free packet id

  ghost predicate Clean(c: State) { Invariant(c) && WellShaped(c) }

  lemma Acts(o: World, w: World, s: Step) returns (v: World)
    requires Leniently(o, w) && Clean(w.c) && Enabled(w.c, s) && Uncancelled(s)
    ensures v == w.(c := Next(w.c, s)) && Leniently(o, v) && Clean(v.c)
  {
    v := w.(c := Next(w.c, s));
    StepKeeps(w.c, s);
    Onward(o, w, Act(s), v);
  }

  /** The whole batch is told, and the next one begins. */
  lemma {:induction false} TellsAll(o: World, w: World) returns (v: World)
    requires Leniently(o, w) && Clean(w.c) && w.c.limit == MAX_LIMIT && !w.c.writing && w.c.done != []
    ensures Leniently(o, v) && Clean(v.c) && v.n == w.n
    ensures Leaves(w.c.(done := []), v.c) && Settling(v.c) && (v.c.writing ==> |v.c.queue| < |w.c.queue|)
    decreases |w.c.done|
  {
    v := Acts(o, w, TellNextStep);
    TellLeaves(w.c, v.c);
    if v.c.done != [] {
      v := TellsAll(o, v);
    }
  }

  lemma {:induction false} Flushes(o: World, w: World) returns (v: World)
    requires Leniently(o, w) && Clean(w.c) && w.c.done == [] && Settling(w.c)
    ensures Leniently(o, v) && Clean(v.c) && v.n == w.n
    ensures Leaves(w.c, v.c) && Idle(v.c)
    decreases if w.c.writing then |w.c.queue| + 1 else 0
  {
    v := w;
    if w.c.writing {
      v := Acts(o, v, WriteOkStep);
      v := TellsAll(o, v);
      v := Flushes(o, v);
    }
  }

  lemma Reconnects(o: World, w: World) returns (v: World)
    requires Leniently(o, w) && Clean(w.c) && w.c.done == []
    ensures Leniently(o, v) && Clean(v.c) && v.n == w.n
    ensures Leaves(w.c.(limit := MAX_LIMIT), v.c) && Settling(v.c)
  {
    if w.c.writing {
      var c0 := w.c.(writing := false, batch := []);
      ResendLeaves(c0.(queue := w.c.batch + c0.queue));
      v := Acts(o, w, WriteAgainStep(true, MAX_LIMIT));
    } else {
      ResendLeaves(w.c);
      v := Acts(o, w, ReadAgainStep(true, MAX_LIMIT));
    }
  }

  /** An idle client publishes on the least free id and waits for the reply. */
  lemma SendsOne(o: World, w: World, op: Op) returns (v: World)
    requires Leniently(o, w) && Clean(w.c) && Idle(w.c)
    requires op.kind.Metered() && op.pid != 0 && op == Upcoming(w.c, op.kind)
    ensures v == w.(c := AfterTold(AfterPublish(w.c, op), op, false)) && Leniently(o, v) && Clean(v.c)
    ensures FindWaiter(v.c.table, Replied(op), op.pid) == |w.c.table|
  {
    LeastFree(w.c.inUse, 1);
    Publishes(w.c, op);
    NobodyWaits(w.c, Replied(op), op.pid);
    v := Acts(o, w, PublishStep(op.kind, Valid));
    IsTold(v.c, op, false);
    v := Acts(o, v, WriteOkStep);
    v := Acts(o, v, TellNextStep);
    FindsLast(w.c.table, Expecting(op, false));
  }

  /** Other messages take the free ids below. */
  lemma {:induction false} Fills(o: World, w: World, p: nat) returns (v: World)
    requires Leniently(o, w) && Clean(w.c) && Idle(w.c) && 1 <= p <= MAX_PACKET_ID && p !in w.c.inUse
    ensures Leniently(o, v) && Clean(v.c) && Idle(v.c) && v.n == w.n && w.c.h.next <= v.c.h.next
    ensures LeastFreeFrom(v.c.inUse, 1) == p
    decreases MAX_PACKET_ID - LeastFreeFrom(w.c.inUse, 1)
  {
    LeastFreeBelow(w.c.inUse, 1, p);
    v := w;
    if LeastFreeFrom(w.c.inUse, 1) != p {
      LeastFreeGrows(w.c.inUse, 1, p);
      v := SendsOne(o, w, Upcoming(w.c, Qos1));
      LeastFreeBelow(v.c.inUse, 1, p);
      v := Fills(o, v, p);
    }
  }

  /** An idle client waits for the PUBREC of its latest message. */
  ghost predicate Waits(c: State, op: Op) {
    && Clean(c) && Idle(c) && op.kind.Qos2? && op.id < c.h.next && op.pid in c.inUse
    && c.table != [] && c.table[|c.table| - 1] == Expecting(op, false)
    && FindWaiter(c.table, Pubrec, op.pid) == |c.table| - 1
  }

  /** What is recorded when the write is reported. */
  function Reports(op: Op): seq<Event> { [Told(op.id, PublishPacket), Written(op.id)] }

  /** The broker has seen nothing of it yet. */
  ghost predicate Posed(w: World, op: Op) {
    && Waits(w.c, op)
    && w.c.h.trace == w.n.past + ([Started(op.id), HandedEvent(Sending(op, false))] + Reports(op))
  }

  /** Whatever was on its way to the broker is lost. */
  lemma Loses(o: World, w: World, buffered: nat) returns (v: World)
    requires Leniently(o, w) && buffered <= |w.n.down|
    ensures Leniently(o, v) && v.c == w.c
    ensures v.n == w.n.(past := w.c.h.trace, down := w.n.down[..buffered])
  {
    v := After(w, Break(buffered));
    Onward(o, w, Break(buffered), v);
  }

  /** An idle client whose next packet id is the given one. */
  ghost predicate Ready(w: World, p: nat) {
    Clean(w.c) && Idle(w.c) && LeastFreeFrom(w.c.inUse, 1) == p && w.n.past == w.c.h.trace
  }

  lemma Readies(o: World, w: World, p: nat) returns (v: World)
    requires Leniently(o, w) && Clean(w.c) && w.c.done == [] && 1 <= p <= MAX_PACKET_ID && p !in w.c.inUse
    ensures Leniently(o, v) && Ready(v, p) && w.c.h.next <= v.c.h.next && v.n == w.n.(past := v.n.past)
  {
    v := Reconnects(o, w);
    v := Flushes(o, v);
    v := Fills(o, v, p);
    v := Loses(o, v, |v.n.down|);
    assert w.n.down[..|w.n.down|] == w.n.down;
  }

  lemma Poses(o: World, w: World, op: Op) returns (v: World)
    requires Leniently(o, w) && op.pid != 0 && op == Upcoming(w.c, Qos2) && Ready(w, op.pid)
    ensures Leniently(o, v) && Posed(v, op) && v.n == w.n
  {
    v := SendsOne(o, w, op);
    Seqs.Assoc(w.c.h.trace, [Started(op.id), HandedEvent(Sending(op, false))], Reports(op));
  }

  lemma Seats(o: World, w: World, p: nat) returns (v: World, op: Op)
    requires Leniently(o, w) && Clean(w.c) && w.c.done == [] && 1 <= p <= MAX_PACKET_ID && p !in w.c.inUse
    ensures Leniently(o, v) && Posed(v, op) && op.pid == p && w.c.h.next <= op.id
    ensures v.n == w.n.(past := v.n.past)
  {
    v := Readies(o, w, p);
    op := Upcoming(v.c, Qos2);
    v := Poses(o, v, op);
  }

  // ----- the broker deals with it

  /** The broker takes the message over, or takes the packet for a duplicate. */
  function Taken(b: Session, op: Op): Session {
    if op.pid in b.received then b
    else Session(b.received + {op.pid}, b.forwarded + [Message(op.id, op.pid)])
  }

  /** The broker has dealt with it. */
  ghost predicate Asked(w: World, op: Op) {
    && Waits(w.c, op) && w.c.h.trace == w.n.past + Reports(op)
    && HandedEvent(Sending(op, false)) in w.n.past
  }

  function Acceptance(op: Op, at: nat): Reply { Reply(Pubrec, op.pid, Success, op.id, at, 0) }

  lemma ServesOne(o: World, w: World, e: Event, rest: seq<Event>, v: World)
    requires Leniently(o, w) && w.c.h.trace == w.n.past + ([e] + rest) && v == w.(n := Served(w.n, e, true))
    ensures Leniently(o, v) && v.c.h.trace == v.n.past + rest
  {
    Seqs.Assoc(w.n.past, [e], rest);
    assert w.c.h.trace[|w.n.past|] == e;
    Onward(o, w, Serve(true), v);
  }

  lemma TakesOver(n: Net, op: Op, e: Event)
    requires e == HandedEvent(Sending(op, false)) && op.kind.Qos2?
    ensures var m := Served(Served(n, Started(op.id), true), e, true);
      m.session == Taken(n.session, op) && m.down == n.down + [Acceptance(op, |n.past| + 1)]
  {
  }

  lemma Serves(o: World, w: World, op: Op) returns (v: World)
    requires Leniently(o, w) && Posed(w, op)
    ensures Leniently(o, v) && Asked(v, op) && v.n.session == Taken(w.n.session, op)
    ensures v.n.down == w.n.down + [Acceptance(op, |w.n.past| + 1)]
  {
    var e, f, g := Started(op.id), HandedEvent(Sending(op, false)), Reports(op);
    assert [e] + ([f] + g) == [e, f] + g;
    var u := w.(n := Served(w.n, e, true));
    ServesOne(o, w, e, [f] + g, u);
    v := u.(n := Served(u.n, f, true));
    ServesOne(o, u, f, g, v);
    assert v.n.past[|v.n.past| - 1] == f;
    TakesOver(w.n, op, f);
  }

  lemma Asks(o: World, w: World, p: nat) returns (v: World, op: Op)
    requires Leniently(o, w) && Clean(w.c) && w.c.done == [] && 1 <= p <= MAX_PACKET_ID && p !in w.c.inUse
    ensures Leniently(o, v) && Asked(v, op) && op.pid == p && w.c.h.next <= op.id
    ensures v.n.session == Taken(w.n.session, op) && |v.n.down| == |w.n.down| + 1
    ensures v.n.down[..|w.n.down|] == w.n.down && v.n.down[|w.n.down|].code.Pubrec?
    ensures v.n.down[|w.n.down|].pid == p && v.n.down[|w.n.down|].verdict.Success?
  {
    v, op := Seats(o, w, p);
    v := Serves(o, v, op);
  }

  /** Of no later call has anything been forwarded. */
  ghost predicate Forwards(w: World) {
    forall m :: m in w.n.session.forwarded ==> m.op < w.c.h.next
  }

  /** A packet id is free for the client that the broker still holds. */
  ghost predicate Split(w: World, p: nat) {
    && Clean(w.c) && w.c.done == [] && Forwards(w)
    && 1 <= p <= MAX_PACKET_ID && p !in w.c.inUse && p in w.n.session.received
  }

  /** A message was accepted that the broker has not forwarded, and its PUBLISH is
      not on the way. */
  ghost predicate Stranded(w: World, id: nat) {
    && Accepted(id) in w.c.h.trace && !IsForwarded(w.n.session, id)
    && forall i :: |w.n.past| <= i < |w.c.h.trace| && OfQos2(w.c.h.trace[i]) && w.c.h.trace[i].id == id
         ==> w.c.h.trace[i].packet.PubrelPacket?
  }

  /** The message was sent on this packet id. */
  ghost predicate SentOn(t: seq<Event>, id: nat, p: nat) {
    exists e :: e in t && OfQos2(e) && !e.packet.PubrelPacket? && e.id == id && e.pid == p
  }

  lemma AcceptsIt(c: State, op: Op, r: Reply)
    requires Idle(c) && op.kind.Qos2? && r.verdict.Success?
    ensures var d := OnAnswer(c, Item(op, OnPubrec, false), r);
      d.h.trace == c.h.trace + [Answered(op.id, r.readAt, r.code, r.verdict), Accepted(op.id),
                                HandedEvent(PubrelRequest(Item(op, OnPubrel, false), false))]
  {
    var c1 := Log(Log(c, Answered(op.id, r.readAt, r.code, r.verdict)), Accepted(op.id));
    var req := PubrelRequest(Item(op, OnPubrel, false), false);
    SentAlone(c1.(queue := [req]), req);
  }

  lemma RefusesIt(c: State, op: Op, r: Reply)
    requires Idle(c) && op.kind.Qos2? && r.verdict.Failure?
    ensures var d := OnAnswer(c, Item(op, OnPubrec, false), r);
      d.inUse == c.inUse - {op.pid} && d.done == [] && d.h.next == c.h.next
  {
  }

  lemma Reads(o: World, w: World, op: Op) returns (v: World, c: State)
    requires Leniently(o, w) && Asked(w, op) && w.n.down != []
    requires w.n.down[0].code.Pubrec? && w.n.down[0].pid == op.pid
    ensures Leniently(o, v) && Clean(v.c) && v.n == w.n.(down := w.n.down[1..])
    ensures Idle(c) && c.h == w.c.h && c.inUse == w.c.inUse
    ensures v.c == OnAnswer(c, Item(op, OnPubrec, false), w.n.down[0].(readAt := |w.c.h.trace|))
  {
    c := w.c.(table := Without(w.c.table, |w.c.table| - 1));
    ReadsLatest(w.c, op, w.n.down[0]);
    v := w.(c := ReadReply(w.c, w.n.down[0]), n := w.n.(down := w.n.down[1..]));
    Onward(o, w, Read, v);
    ReadsClean(w.c, w.n.down[0], v.c);
  }

  lemma ReadsLatest(c: State, op: Op, r: Reply)
    requires Waits(c, op) && r.code.Pubrec? && r.pid == op.pid
    ensures ReadReply(c, r) == OnAnswer(c.(table := Without(c.table, |c.table| - 1)), Item(op, OnPubrec, false),
                                        r.(readAt := |c.h.trace|))
  {
  }

  lemma ReadsClean(c: State, r: Reply, d: State)
    requires Clean(c) && c.done == [] && d == ReadReply(c, r)
    ensures Clean(d)
  {
    StepKeeps(c, ReadReplyStep(r));
  }

  lemma ReadsAcceptance(o: World, w: World, op: Op) returns (v: World)
    requires Leniently(o, w) && Asked(w, op) && w.n.down != [] && !IsForwarded(w.n.session, op.id)
    requires w.n.down[0].code.Pubrec? && w.n.down[0].pid == op.pid && w.n.down[0].verdict.Success?
    ensures Leniently(o, v) && Stranded(v, op.id) && SentOn(v.c.h.trace, op.id, op.pid)
  {
    var c;
    v, c := Reads(o, w, op);
    AcceptsIt(c, op, w.n.down[0].(readAt := |w.c.h.trace|));
    assert v.c.h.trace[|c.h.trace| + 1] == Accepted(op.id);
    assert HandedEvent(Sending(op, false)) in v.c.h.trace;
  }

  lemma ReadsRefusal(o: World, w: World, op: Op) returns (v: World)
    requires Leniently(o, w) && Asked(w, op) && w.n.down != [] && Refuses(w.n.down[0]) && w.n.down[0].pid == op.pid
    ensures Leniently(o, v) && Clean(v.c) && v.c.done == [] && v.c.h.next == w.c.h.next
    ensures v.c.inUse == w.c.inUse - {op.pid} && v.n.session == w.n.session
  {
    var c;
    v, c := Reads(o, w, op);
    RefusesIt(c, op, w.n.down[0].(readAt := |w.c.h.trace|));
  }

  lemma Strands(o: World, w: World, p: nat) returns (v: World, b: nat)
    requires Leniently(o, w) && Split(w, p)
    ensures Leniently(o, v) && Stranded(v, b) && SentOn(v.c.h.trace, b, p)
  {
    var op;
    v := Loses(o, w, 0);
    v, op := Asks(o, v, p);
    b := op.id;
    v := ReadsAcceptance(o, v, op);
  }

  /** A refusal that is still on its way refuses the next message on its packet id. */
  lemma Poisons(o: World, w: World, p: nat) returns (v: World)
    requires Leniently(o, w) && Clean(w.c) && w.c.done == [] && Forwards(w)
    requires 1 <= p <= MAX_PACKET_ID && p !in w.c.inUse
    requires w.n.down != [] && Refuses(w.n.down[0]) && w.n.down[0].pid == p
    ensures Leniently(o, v) && Split(v, p)
  {
    v := Loses(o, w, 1);
    v := PoisonsNext(o, v, p);
  }

  lemma PoisonsNext(o: World, w: World, p: nat) returns (v: World)
    requires Leniently(o, w) && Clean(w.c) && w.c.done == [] && Forwards(w)
    requires 1 <= p <= MAX_PACKET_ID && p !in w.c.inUse
    requires |w.n.down| == 1 && Refuses(w.n.down[0]) && w.n.down[0].pid == p
    ensures Leniently(o, v) && Split(v, p)
  {
    var op;
    v, op := Asks(o, w, p);
    assert v.n.down[..1][0] == w.n.down[0];
    v := ReadsRefusal(o, v, op);
  }

  // ----- what a refusal may leave behind

  /** A PUBLISH on this packet id is on its way to the broker. */
  predicate OnItsWay(t: seq<Event>, n: Net, p: nat, i: nat) {
    |n.past| <= i < |t| && OfQos2(t[i]) && !t[i].packet.PubrelPacket? && t[i].pid == p
  }

  predicate RefusalPending(n: Net, p: nat, k: nat) {
    k < |n.down| && Refuses(n.down[k]) && n.down[k].pid == p
  }

  ghost predicate Outstanding(t: seq<Event>, n: Net, p: nat) {
    || p in n.session.received || (exists i: nat :: OnItsWay(t, n, p, i))
    || (exists k: nat :: RefusalPending(n, p, k))
  }

  /** If an id is not drained before its PUBREC was accepted, the broker holds it,
      or a PUBLISH or a refusal is on its way. */
  lemma WhatIsLeft(h: History, inUse: set<nat>, n: Net, item: Item)
    requires NetOk(h, n) && InPhase(h) && IdsOk(h, inUse) && Tracked(h.ops, item) && item.stage.OnPubrec?
    requires Facts(h.trace, item) && item.op.pid in n.watched && !Drained(h, n, item.op.pid)
    ensures Outstanding(h.trace, n, item.op.pid)
  {
    var p := item.op.pid;
    if r :| r in n.down && r.code.Pubrec? && r.pid == p {
      var k :| 0 <= k < |n.down| && n.down[k] == r;
      if r.verdict.Failure? {
        assert RefusalPending(n, p, k);
      } else {
        TellsHeld(h, inUse, n, item, r);
      }
    } else if i: nat :| |n.past| <= i < |h.trace| && OfQos2(h.trace[i]) && !h.trace[i].packet.PubrelPacket?
                        && h.trace[i].pid == p {
      assert OnItsWay(h.trace, n, p, i);
    }
  }

  lemma TellsHeld(h: History, inUse: set<nat>, n: Net, item: Item, r: Reply)
    requires NetOk(h, n) && InPhase(h) && IdsOk(h, inUse) && Tracked(h.ops, item) && item.stage.OnPubrec?
    requires Facts(h.trace, item) && item.op.pid in n.watched
    requires r in n.down && r.code.Pubrec? && r.verdict.Success? && r.pid == item.op.pid
    ensures item.op.pid in n.session.received
  {
    var p, a := item.op.pid, item.op.id;
    assert OwnedBy(h, p, r.source) && h.owner[p] == a && Honest(n, r);
    LastIsOwners(h, n, p);
    LastIsPublish(h, n, p, a);
  }

  lemma LastIsPublish(h: History, n: Net, p: nat, a: nat)
    requires Agrees(n.past, n.session, n.last) && n.past <= h.trace && Latest(h) && Accepted(a) !in h.trace
    requires p in n.last && 2 * a <= n.last[p] <= 2 * a + 1
    ensures p in n.session.received
  {
    assert SomePacket(n.past, p, n.last[p]);
    var f :| f in n.past && OfQos2(f) && f.pid == p && Phase(f) == n.last[p];
    assert f in h.trace && f.id == a;
    assert n.last[p] == 2 * f.id;
  }

  lemma ForwardsKnown(w: World)
    requires Agrees(w.n.past, w.n.session, w.n.last) && w.n.past <= w.c.h.trace && Known(w.c.h.trace, w.c.h)
    ensures Forwards(w)
  {
    forall m | m in w.n.session.forwarded ensures m.op < w.c.h.next {
      assert SomePublish(w.n.past, m);
      var f :| f in w.n.past && OfQos2(f) && f.pid == m.pid && f.id == m.op;
      assert f in w.c.h.trace && HasId(f);
    }
  }

  /** The broker takes the packets up to a PUBLISH, and that too. */
  lemma {:induction false} ServesTo(o: World, w: World, p: nat, i: nat) returns (v: World)
    requires Leniently(o, w) && Known(w.c.h.trace, w.c.h) && Forwards(w) && w.n.past <= w.c.h.trace
    requires OnItsWay(w.c.h.trace, w.n, p, i)
    ensures Leniently(o, v) && v.c == w.c && Forwards(v) && p in v.n.session.received
    decreases i - |w.n.past|
  {
    var e := w.c.h.trace[|w.n.past|];
    assert e in w.c.h.trace;
    v := w.(n := Served(w.n, e, true));
    Onward(o, w, Serve(true), v);
    if |w.n.past| < i {
      v := ServesTo(o, v, p, i);
    }
  }

  /** The world after a refusal, in which its packet id is free for the client. */
  ghost predicate Freed(w: World, p: nat) {
    && Clean(w.c) && w.c.done == [] && Forwards(w) && w.n.past <= w.c.h.trace
    && 1 <= p <= MAX_PACKET_ID && p !in w.c.inUse
  }

  lemma Skips(o: World, w: World, p: nat, k: nat) returns (v: World)
    requires Leniently(o, w) && Freed(w, p) && RefusalPending(w.n, p, k)
    ensures Leniently(o, v) && Split(v, p)
  {
    v := After(w, Drop(k));
    Onward(o, w, Drop(k), v);
    v := Poisons(o, v, p);
  }

  lemma Splits(o: World, w: World, p: nat) returns (v: World)
    requires Leniently(o, w) && Freed(w, p) && Outstanding(w.c.h.trace, w.n, p)
    ensures Leniently(o, v) && Split(v, p)
  {
    if p in w.n.session.received {
      v := w;
    } else if i: nat :| OnItsWay(w.c.h.trace, w.n, p, i) {
      Unfold(w.c, true);
      v := ServesTo(o, w, p, i);
    } else {
      var k: nat :| RefusalPending(w.n, p, k);
      v := Skips(o, w, p, k);
    }
  }

  lemma RefusalFrees(c: State, item: Item, r: Reply, d: State)
    requires item.stage.OnPubrec? && Fits(item) && r.verdict.Failure? && d == OnAnswer(c, item, r)
    ensures d.inUse == c.inUse - {item.op.pid} && d.done == c.done && c.h.trace <= d.h.trace
  {
    var c1 := Retire(Log(c, Answered(item.op.id, r.readAt, r.code, r.verdict)), item.op, Refused);
    PumpExtends(c1.(quota := if c1.quota == MAX_LIMIT then 0 else c1.quota + 1));
  }

  /** The refusal is acted on although the id is not drained. */
  ghost predicate TooEarly(c: State, n: Net, item: Item, r: Reply) {
    && Tracked(c.h.ops, item) && Facts(c.h.trace, item) && item.stage.OnPubrec? && r.verdict.Failure?
    && item.op.pid in n.watched && !Drained(c.h, n, item.op.pid)
  }

  lemma LeftBehind(w: World, c: State, item: Item, r: Reply, v: World)
    requires Clean(w.c) && Link(w.c, v.n) && w.c.done == [] && TooEarly(w.c, v.n, item, r)
    requires c.h == w.c.h && c.inUse == w.c.inUse && c.done == [] && v.c == OnAnswer(c, item, r) && Clean(v.c)
    ensures Freed(v, item.op.pid) && Outstanding(v.c.h.trace, v.n, item.op.pid)
  {
    Unfold(w.c, true);
    WhatIsLeft(w.c.h, w.c.inUse, v.n, item);
    RefusalFrees(c, item, r, v.c);
    Longer(w.c.h.trace, v.c.h.trace, v.n, item.op.pid);
    Unfold(v.c, true);
    ForwardsKnown(v);
  }

  lemma Longer(t: seq<Event>, u: seq<Event>, n: Net, p: nat)
    requires t <= u && Outstanding(t, n, p)
    ensures Outstanding(u, n, p)
  {
    if i: nat :| OnItsWay(t, n, p, i) {
      assert OnItsWay(u, n, p, i);
    }
  }

  ghost predicate Refusing(item: Item, r: Reply, p: nat) {
    item.stage.OnPubrec? && r.verdict.Failure? && item.op.pid == p
  }

  /** The step acts on a refusal, which frees this packet id. */
  ghost predicate ActsOn(w: World, s: WorldStep, p: nat) {
    || (s == Act(PostedStep) && w.c.posted != [] && w.c.posted[0].outcome.Got?
        && Refusing(w.c.posted[0].item, w.c.posted[0].outcome.reply, p))
    || (s.Read? && w.n.down != []
        && var i := FindWaiter(w.c.table, w.n.down[0].code, w.n.down[0].pid);
           i < |w.c.table| && Refusing(w.c.table[i].item, w.n.down[0], p))
  }

  lemma PostedLeaves(w: World, v: World) returns (p: nat)
    requires Healthy(w) && Feasible(w, Act(PostedStep)) && !Possible(w, Act(PostedStep))
    requires v == After(w, Act(PostedStep)) && Clean(v.c)
    ensures Freed(v, p) && Outstanding(v.c.h.trace, v.n, p) && ActsOn(w, Act(PostedStep), p)
  {
    var c, x := w.c, w.c.posted[0];
    PostedKnown(c);
    p := x.item.op.pid;
    LeftBehind(w, c.(posted := c.posted[1..]), x.item, x.outcome.reply, v);
  }

  lemma ReadLeaves(w: World, v: World) returns (p: nat)
    requires Healthy(w) && Feasible(w, Read) && !Possible(w, Read) && v == After(w, Read) && Clean(v.c)
    ensures Freed(v, p) && Outstanding(v.c.h.trace, v.n, p) && ActsOn(w, Read, p)
  {
    var c, n := w.c, w.n;
    var r := n.down[0].(readAt := |c.h.trace|);
    var i := FindWaiter(c.table, r.code, r.pid);
    WaiterKnown(c, i);
    Remaining(c, n, v.n);
    p := c.table[i].item.op.pid;
    LeftBehind(w, c.(table := Without(c.table, i)), c.table[i].item, r, v);
  }

  /** The care that `Possible` takes is needed wherever it is taken: after acting on
      a refusal that is not the last of its packet id, and with the broker refusing
      nothing any more, the next message on that packet id can be accepted without
      ever being forwarded. */
  lemma CareIsNeeded(w: World, s: WorldStep) returns (v: World, b: nat, p: nat)
    requires Healthy(w) && Feasible(w, s) && !Possible(w, s)
    ensures ActsOn(w, s, p) && p !in After(w, s).c.inUse
    ensures Leniently(After(w, s), v) && Stranded(v, b) && SentOn(v.c.h.trace, b, p)
  {
    var u := After(w, s);
    NoWay(u);
    p := Loosens(w, s, u);
    v := Splits(u, u, p);
    v, b := Strands(u, v, p);
  }

  lemma Loosens(w: World, s: WorldStep, u: World) returns (p: nat)
    requires Healthy(w) && Feasible(w, s) && !Possible(w, s) && u == After(w, s)
    ensures Freed(u, p) && Outstanding(u.c.h.trace, u.n, p) && ActsOn(w, s, p)
  {
    if s.Read? {
      ReadsClean(w.c, w.n.down[0], u.c);
      p := ReadLeaves(w, u);
    } else {
      StepKeeps(w.c, PostedStep);
      p := PostedLeaves(w, u);
    }
  }
}
