/**
 Why `Receiving.InTime` is needed: two operations may be open on one packet id.
 An inbound QoS 2 PUBLISH is repeated after a reconnect, and its PUBREL is read
 while the PUBREC of the repetition is still being written: the older operation
 takes the PUBREL and delivers the message. Its PUBCOMP is lost, the broker
 repeats the PUBREL, and the newer operation, by then waiting for it, delivers
 the message again.
 */
module Redelivery {
  import opened Requests
  import opened Client
  import opened Theorems
  import opened Scenes
  import opened Receiving
  import Seqs

  /** What the run below needs to know of a state. */
  predicate Looks(c: State, batch: seq<Request>, queue: seq<Request>, table: seq<Waiter>, channel: seq<Delivery>) {
    && c.batch == batch && c.queue == queue && c.table == table && c.channel == channel
    && c.done == [] && c.fast == [] && c.posted == [] && c.limit == MAX_LIMIT
    && (c.writing <==> batch != [])
  }

  const Inbound := Receive(true, 7)

  function Inbounds(id: nat): Op { Op(id, Inbound, 5, 0) }

  function Pubrecs(id: nat): Request { PlainRequest(Item(Inbounds(id), OnRecPubrec, false)) }
  function Awaiting(id: nat): Waiter { Waiter(Pubrel, 5, Item(Inbounds(id), OnRecPubrel, false)) }
  function Pubcomps(id: nat): Request { PlainRequest(Item(Inbounds(id), OnRecPubcomp, false)) }

  const Release := Reply(Pubrel, 5, Success, 7, 0, 0)

  lemma Arrives(c: State, table: seq<Waiter>, channel: seq<Delivery>)
    requires Looks(c, [], [], table, channel)
    ensures Looks(ReceivePublish(c, Inbound, 5), [Pubrecs(c.h.next)], [], table, channel)
    ensures ReceivePublish(c, Inbound, 5).h.next == c.h.next + 1
  {
    var c1 := Admit(c, Inbound, 5, 0).(queue := [Pubrecs(c.h.next)]);
    assert [] + [Pubrecs(c.h.next)] == [Pubrecs(c.h.next)];
    SentAlone(c1, Pubrecs(c.h.next));
  }

  /** The PUBREC has been written, and what is queued goes out. */
  lemma Acknowledged(c: State, d: State, id: nat, queue: seq<Request>, channel: seq<Delivery>)
    requires Looks(c, [Pubrecs(id)], queue, [], channel) && d == c.(done := c.batch, batch := [], writing := false)
    requires queue == [] || (|queue| == 1 && !queue[0].terminal)
    ensures Looks(TellNext(d), queue, [], [Awaiting(id)], channel) && TellNext(d).h.next == c.h.next
  {
    var e := Log(c.(batch := [], writing := false, table := [Awaiting(id)]), Told(id, PubrecPacket));
    assert d.done[1..] == [] && [] + [Awaiting(id)] == [Awaiting(id)];
    assert TellNext(d) == Pump(e);
    if queue != [] { SentAlone(e, queue[0]); }
  }

  /** The PUBREL is taken by the operation that waits for it. */
  lemma Released(c: State, id: nat, batch: seq<Request>, channel: seq<Delivery>)
    requires Looks(c, batch, [], [Awaiting(id)], channel)
    ensures WaitersFit(c.table)
    ensures ReadReply(c, Release).h.next == c.h.next
    ensures var d := ReadReply(c, Release);
      if batch == [] then Looks(d, [Pubcomps(id)], [], [], channel)
      else Looks(d, batch, [Pubcomps(id)], [], channel)
  {
    assert FindWaiter(c.table, Pubrel, 5) == 0 && Without(c.table, 0) == [];
    var c1 := Log(c.(table := []), Answered(id, |c.h.trace|, Pubrel, Success)).(queue := [Pubcomps(id)]);
    assert [] + [Pubcomps(id)] == [Pubcomps(id)];
    assert ReadReply(c, Release) == Pump(c1);
    if batch == [] { SentAlone(c1, Pubcomps(id)); }
  }

  lemma Delivered(c: State, d: State, id: nat, table: seq<Waiter>, channel: seq<Delivery>)
    requires Looks(c, [Pubcomps(id)], [], table, channel) && d == c.(done := c.batch, batch := [], writing := false)
    ensures Looks(TellNext(d), [], [], table, channel + [Delivery(2, 7)]) && TellNext(d).h.next == c.h.next
  {
    assert d.done[1..] == [];
  }

  /** A reconnect leaves it waiting. */
  lemma Rewaits(c: State, id: nat, channel: seq<Delivery>)
    requires Looks(c, [], [], [Awaiting(id)], channel)
    ensures WaitersFit(c.table) && RequestsFit(c.queue)
    ensures var d := Resend(c, MAX_LIMIT); Looks(d, [], [], [Awaiting(id)], channel) && d.h.next == c.h.next
  {
    var c1 := Log(c, EpochEvent(c)).(writing := true, limit := MAX_LIMIT, quota := MAX_LIMIT,
                                     queue := [], table := []);
    var c2 := c1.(table := [Awaiting(id)]);
    assert c.table[1..] == [] && [] + [Awaiting(id)] == [Awaiting(id)];
    assert OnResend(c1, c.table[0].item) == c2;
    assert ResendWaiters(c1, c.table) == ResendWaiters(c2, []) == c2;
  }

  // ----- the run

  datatype Point = Point(steps: seq<Step>, c: State)

  ghost predicate Here(p: Point, packets: seq<Receiving.Packet>) {
    Comes(p.steps, p.c) && WellShaped(p.c) && PacketsRead(p.steps) == packets
  }

  lemma Goes(p: Point, s: Step, packets: seq<Receiving.Packet>) returns (q: Point)
    requires Here(p, packets) && Enabled(p.c, s)
    ensures q.c == Next(p.c, s) && Here(q, packets + PacketOfStep(s))
  {
    q := Point(p.steps + [s], Next(p.c, s));
    RunsOn(p.steps, p.c, s, q.c);
    Seqs.Front(p.steps, s);
  }

  /** A write succeeds and its one handler is told. */
  lemma GoesTold(p: Point, packets: seq<Receiving.Packet>) returns (q: Point)
    requires Here(p, packets) && |p.c.batch| == 1 && p.c.done == []
    ensures var d := p.c.(done := p.c.batch, batch := [], writing := false);
      RequestsFit(d.done) && q.c == TellNext(d) && Here(q, packets)
  {
    q := Goes(p, WriteOkStep, packets);
    q := Goes(q, TellNextStep, packets + []);
    assert packets + [] + [] == packets;
  }

  lemma GoesReconnected(p: Point, packets: seq<Receiving.Packet>, id: nat, channel: seq<Delivery>) returns (q: Point)
    requires Here(p, packets) && Looks(p.c, [], [], [Awaiting(id)], channel)
    ensures Here(q, packets) && Looks(q.c, [], [], [Awaiting(id)], channel) && q.c.h.next == p.c.h.next
  {
    Rewaits(p.c, id, channel);
    q := Goes(p, ReadAgainStep(true, MAX_LIMIT), packets);
    assert packets + [] == packets;
  }

  const Publish := Receiving.Packet(false, 5, 7)
  const Pubrels := Receiving.Packet(true, 5, 7)

  /** The PUBLISH is read, acknowledged, and read again after a reconnect. */
  lemma Repeated() returns (q: Point)
    ensures Here(q, [Publish, Publish]) && Looks(q.c, [Pubrecs(1)], [], [Awaiting(0)], [])
  {
    RunsFrom();
    q := Point([], Initial);
    Arrives(q.c, [], []);
    q := Goes(q, ReceiveStep(Inbound, 5), []);
    Acknowledged(q.c, q.c.(done := q.c.batch, batch := [], writing := false), 0, [], []);
    q := GoesTold(q, [Publish]);
    q := GoesReconnected(q, [Publish], 0, []);
    Arrives(q.c, [Awaiting(0)], []);
    q := Goes(q, ReceiveStep(Inbound, 5), [Publish]);
  }

  /** The older operation takes the PUBREL and delivers the message. */
  lemma Overtakes() returns (q: Point)
    ensures Here(q, [Publish, Publish, Pubrels]) && Looks(q.c, [], [], [Awaiting(1)], [Delivery(2, 7)])
  {
    q := Repeated();
    Released(q.c, 0, [Pubrecs(1)], []);
    q := Goes(q, ReadReplyStep(Release), [Publish, Publish]);
    Acknowledged(q.c, q.c.(done := q.c.batch, batch := [], writing := false), 1, [Pubcomps(0)], []);
    q := GoesTold(q, [Publish, Publish, Pubrels]);
    Delivered(q.c, q.c.(done := q.c.batch, batch := [], writing := false), 0, [Awaiting(1)], []);
    q := GoesTold(q, [Publish, Publish, Pubrels]);
  }

  /** The newer one takes the repeated PUBREL. */
  lemma DeliversAgain() returns (q: Point)
    ensures Here(q, [Publish, Publish, Pubrels, Pubrels]) && q.c.channel == [Delivery(2, 7), Delivery(2, 7)]
  {
    q := Overtakes();
    var packets := [Publish, Publish, Pubrels];
    q := GoesReconnected(q, packets, 1, [Delivery(2, 7)]);
    Released(q.c, 1, [], [Delivery(2, 7)]);
    q := Goes(q, ReadReplyStep(Release), packets);
    Delivered(q.c, q.c.(done := q.c.batch, batch := [], writing := false), 1, [], [Delivery(2, 7)]);
    q := GoesTold(q, packets + [Pubrels]);
  }

  lemma NoneGoesBack()
    ensures NeverBack([Publish, Publish, Pubrels, Pubrels])
  {
  }

  /** The packets never go back, and the message is in the receive channel twice. */
  lemma DeliveredTwice() returns (states: seq<State>, steps: seq<Step>)
    ensures IsRun(states, steps) && NeverBack(PacketsRead(steps))
    ensures states[|steps|].channel == [Delivery(2, 7), Delivery(2, 7)]
  {
    var q := DeliversAgain();
    steps := q.steps;
    states := RunOf(steps, q.c);
    NoneGoesBack();
  }
}
