/**
 Runs of the client joined to a broker. In each of them a QoS 2 operation whose
 PUBREC was accepted has been forwarded by the broker exactly once, however the
 connection breaks, whichever writes and replies are lost, and however packet
 ids are reused.
 */
module ExactlyOnce {
  import opened Requests
  import opened Client
  import opened SerialOrder
  import opened Places
  import opened Runs
  import opened Soundness
  import opened Traffic
  import opened FlowControl
  import opened Engine
  import opened Resending
  import opened Steps
  import opened Broker
  import opened Exchange
  import Seqs

  // ----- what a PUBCOMP proves

  /** The broker has seen no phase beyond the one the owner of the id is in. */
  lemma LastIsOwners(h: History, n: Net, pid: nat)
    requires NetOk(h, n) && Latest(h) && pid in n.last && pid in h.owner
    ensures n.last[pid] <= 2 * h.owner[pid] + 1
  {
    assert SomePacket(n.past, pid, n.last[pid]);
    var f :| f in n.past && OfQos2(f) && f.pid == pid && Phase(f) == n.last[pid];
    assert f in h.trace;
  }

  lemma UpIsAhead(h: History, n: Net, i: nat)
    requires NetOk(h, n) && PhasesRise(h.trace) && |n.past| <= i < |h.trace| && OfQos2(h.trace[i])
    requires h.trace[i].pid in n.last
    ensures n.last[h.trace[i].pid] <= Phase(h.trace[i])
  {
    var p := h.trace[i].pid;
    assert SomePacket(n.past, p, n.last[p]);
    var f :| f in n.past && OfQos2(f) && f.pid == p && Phase(f) == n.last[p];
    var j :| 0 <= j < |n.past| && n.past[j] == f;
    assert h.trace[j] == f;
    PhasesAt(h.trace, j, i);
  }

  /** After the PUBCOMP of an operation, nothing about its PUBLISH is left. */
  lemma PubcompDrains(h: History, inUse: set<nat>, n: Net, item: Item, r: Reply)
    requires NetOk(h, n) && InPhase(h) && IdsOk(h, inUse) && Tracked(h.ops, item)
    requires item.op.kind.Qos2? && item.op.pid in n.watched
    requires Answerable(n, item, r) && r.code.Pubcomp? && r.pid == item.op.pid
    ensures Drained(h, n, item.op.pid)
  {
    var p, a := item.op.pid, item.op.id;
    assert h.owner[p] == a && PhaseOf(r) == 2 * a + 1;
    LastIsOwners(h, n, p);
    assert n.last[p] == 2 * a + 1;
    forall d | d in n.down && d.code.Pubrec? ensures d.pid != p {
      if d.pid == p {
        assert OwnedBy(h, d.pid, d.source);
        NotBefore(h, n, r, d);
      }
    }
    forall i | |n.past| <= i < |h.trace| && OfQos2(h.trace[i]) && !h.trace[i].packet.PubrelPacket?
      ensures h.trace[i].pid != p
    {
      if h.trace[i].pid == p {
        assert OwnedBy(h, h.trace[i].pid, h.trace[i].id);
        UpIsAhead(h, n, i);
      }
    }
  }

  /** The operation's PUBLISH was handed over once only. */
  ghost predicate SentOnce(t: seq<Event>, id: nat) {
    forall i: nat, j: nat :: CopyAt(t, id, i) && CopyAt(t, id, j) ==> i == j
  }

  /** Likewise after the refusal of an operation whose PUBLISH was sent once. */
  lemma RefusalDrains(h: History, inUse: set<nat>, n: Net, item: Item, r: Reply)
    requires NetOk(h, n) && IdsOk(h, inUse) && Tracked(h.ops, item)
    requires item.op.kind.Qos2? && item.op.pid in n.watched
    requires Answerable(n, item, r) && Refuses(r) && r.pid == item.op.pid
    requires SentOnce(h.trace, item.op.id)
    ensures Drained(h, n, item.op.pid)
  {
    var p, a := item.op.pid, item.op.id;
    assert h.owner[p] == a && r.source == a;
    assert CopyAt(h.trace, a, r.answers);
    forall d | d in n.down && d.code.Pubrec? ensures d.pid != p {
      assert d.pid == p ==> OwnedBy(h, d.pid, d.source);
      assert Receipt(n.past, d) && CopyAt(h.trace, d.source, d.answers);
    }
    forall i | |n.past| <= i < |h.trace| && OfQos2(h.trace[i]) && !h.trace[i].packet.PubrelPacket?
      ensures h.trace[i].pid != p
    {
      assert h.trace[i].pid == p ==> OwnedBy(h, h.trace[i].pid, h.trace[i].id);
      assert CopyAt(h.trace, h.trace[i].id, i);
    }
    if p in n.last && n.last[p] % 2 == 0 {
      assert OwnedBy(h, p, n.last[p] / 2) && IsForwarded(n.session, a);
      var j: nat :| j != r.answers && CopyAt(n.past, a, j);
      assert CopyAt(h.trace, a, j);
    }
  }

  // ----- handlers

  lemma DeliverLink(c: State, d: State, held: multiset<nat>, op: Op, n: Net)
    requires Placed(c, held) && op.id in c.h.ops && c.h.ops[op.id] == op
    requires Link(c, n) && op.kind.Receive? && d == Deliver(c, op)
    ensures Link(d, n)
  {
    RetireLink(c, Retire(c, op, Completed), op, Completed, n);
    SameLink(Retire(c, op, Completed), d, n);
  }

  lemma PublishedLink(c: State, d: State, held: multiset<nat>, item: Item, n: Net)
    requires Placed(c, held + multiset{item.op.id}) && Tracked(c.h.ops, item) && item.op.kind.Metered()
    requires Link(c, n) && Genuine(item, c.fast, n.watched) && item.stage.OnPublish?
    requires d == AwaitReply(Log(c, Written(item.op.id)),
                             item.(stage := if item.op.kind.Qos1? then OnPuback else OnPubrec))
    ensures Link(d, n)
  {
    var c1 := Log(c, Written(item.op.id));
    Frame(c, c1, held + multiset{item.op.id});
    LogLink(c, c1, Written(item.op.id), n);
    AwaitLink(c1, d, held, item.(stage := if item.op.kind.Qos1? then OnPuback else OnPubrec), n);
  }

  lemma ReceivedLink(c: State, d: State, held: multiset<nat>, item: Item, n: Net)
    requires Placed(c, held + multiset{item.op.id}) && Tracked(c.h.ops, item) && item.op.kind.Receive?
    requires Link(c, n) && item.stage.Writes() && d == OnWritten(c, item)
    ensures Link(d, n)
  {
    if item.stage.OnRecPubrec? {
      AwaitLink(c, d, held, item.(stage := OnRecPubrel), n);
    } else {
      DeliverLink(c, d, held + multiset{item.op.id}, item.op, n);
    }
  }

  lemma WrittenLink(c: State, d: State, held: multiset<nat>, item: Item, n: Net)
    requires Placed(c, held + multiset{item.op.id}) && Tracked(c.h.ops, item)
    requires Link(c, n) && Genuine(item, c.fast, n.watched) && item.stage.Writes() && d == OnWritten(c, item)
    ensures Link(d, n)
  {
    if item.op.kind.Receive? {
      ReceivedLink(c, d, held, item, n);
    } else if item.stage.OnPublish? && !item.op.kind.Qos0? {
      PublishedLink(c, d, held, item, n);
    } else if item.stage.OnPubrel? || item.stage.OnSubscribe? {
      ConfirmedLink(c, d, held, item, n);
    } else {
      EndLink(c, d, item.op, Completed, n);
    }
  }

  lemma ConfirmedLink(c: State, d: State, held: multiset<nat>, item: Item, n: Net)
    requires Placed(c, held + multiset{item.op.id}) && Tracked(c.h.ops, item)
    requires Link(c, n) && Genuine(item, c.fast, n.watched) && (item.stage.OnPubrel? || item.stage.OnSubscribe?)
    requires d == AwaitReply(c, item.(stage := if item.stage.OnPubrel? then OnPubcomp else OnSuback))
    ensures Link(d, n)
  {
    AwaitLink(c, d, held, item.(stage := if item.stage.OnPubrel? then OnPubcomp else OnSuback), n);
  }

  /** What a refusal of a PUBLISH presupposes. */
  ghost predicate RefusalIsLast(h: History, n: Net, item: Item, r: Reply) {
    item.stage.OnPubrec? && r.verdict.Failure? && item.op.pid in n.watched ==> Drained(h, n, item.op.pid)
  }

  lemma AcceptedLink(c: State, d: State, held: multiset<nat>, item: Item, r: Reply, n: Net)
    requires Placed(c, held + multiset{item.op.id}) && Tracked(c.h.ops, item) && Chronicle(c)
    requires InPhase(c.h) && Facts(c.h.trace, item) && Link(c, n) && Answerable(n, item, r)
    requires item.stage.OnPubrec? && r.code.Pubrec? && r.verdict.Success? && r.pid == item.op.pid
    requires d == Send(Log(c, Accepted(item.op.id)), PubrelRequest(item.(stage := OnPubrel), false))
    ensures Link(d, n)
  {
    var e := Accepted(item.op.id);
    var c1 := Log(c, e);
    AcceptLink(c, c1, item, r, n);
    Frame(c, c1, held + multiset{item.op.id});
    Logs(c, held + multiset{item.op.id}, e);
    AcceptedFacts(c.h.trace, item);
    SendLink(c1, d, held, PubrelRequest(item.(stage := OnPubrel), false), n);
  }

  lemma FinishedLink(c: State, d: State, held: multiset<nat>, item: Item, r: Reply, n: Net)
    requires Placed(c, held + multiset{item.op.id}) && Tracked(c.h.ops, item) && Chronicle(c) && InPhase(c.h)
    requires Link(c, n) && Answerable(n, item, r) && RefusalIsLast(c.h, n, item, r)
    requires Facts(c.h.trace, item)
    requires item.stage.OnPuback? || item.stage.OnPubcomp? || item.stage.OnSuback?
             || (item.stage.OnPubrec? && r.verdict.Failure?)
    requires r.code == AwaitedCode(item.stage) && r.pid == item.op.pid
    requires d == Complete(c, item.op, EndingOf(r.verdict))
    ensures Link(d, n)
  {
    if item.stage.OnPubcomp? && item.op.pid in n.watched { PubcompDrains(c.h, c.inUse, n, item, r); }
    CompleteLink(c, d, held, item.op, EndingOf(r.verdict), n);
  }

  lemma AcknowledgeLink(c: State, d: State, held: multiset<nat>, item: Item, r: Reply, n: Net)
    requires Placed(c, held + multiset{item.op.id}) && Tracked(c.h.ops, item) && Chronicle(c) && InPhase(c.h)
    requires Facts(c.h.trace, item)
    requires Link(c, n) && Answerable(n, item, r) && RefusalIsLast(c.h, n, item, r)
    requires !item.stage.Writes() && r.code == AwaitedCode(item.stage) && r.pid == item.op.pid
    requires d == Acknowledge(c, item, r.verdict)
    ensures Link(d, n)
  {
    if item.stage.OnPubrec? && r.verdict.Success? {
      AcceptedLink(c, d, held, item, r, n);
    } else if item.stage.OnRecPubrel? {
      SendLink(c, d, held, PlainRequest(item.(stage := OnRecPubcomp)), n);
    } else {
      FinishedLink(c, d, held, item, r, n);
    }
  }

  lemma AnswerLink(c: State, d: State, held: multiset<nat>, item: Item, r: Reply, n: Net)
    requires Placed(c, held + multiset{item.op.id}) && Tracked(c.h.ops, item) && Chronicle(c) && InPhase(c.h)
    requires Facts(c.h.trace, item) && SentBefore(c.h.trace, item.op.id, r.readAt)
    requires Link(c, n) && Answerable(n, item, r) && RefusalIsLast(c.h, n, item, r)
    requires !item.stage.Writes() && r.code == AwaitedCode(item.stage) && r.pid == item.op.pid
    requires d == OnAnswer(c, item, r)
    ensures Link(d, n)
  {
    var e := Answered(item.op.id, r.readAt, r.code, r.verdict);
    var c1 := Log(c, e);
    AnswerLogged(c, c1, held, item, e);
    LogLink(c, c1, e, n);
    DrainedStill(c.h, c1.h, e, n, item.op.pid);
    AnswerCases(c, item, r);
    AcknowledgeLink(c1, d, held, item, r, n);
  }

  lemma DrainedStill(h: History, k: History, e: Event, n: Net, pid: nat)
    requires k == h.(trace := h.trace + [e]) && !e.Handed?
    ensures Drained(h, n, pid) ==> Drained(k, n, pid)
  {
  }

  lemma AnswerLogged(c: State, d: State, held: multiset<nat>, item: Item, e: Event)
    requires Placed(c, held + multiset{item.op.id}) && Tracked(c.h.ops, item) && Chronicle(c) && InPhase(c.h)
    requires Facts(c.h.trace, item) && e.Answered? && e.id == item.op.id
    requires SentBefore(c.h.trace, e.id, e.readAt) && d == Log(c, e)
    ensures Placed(d, held + multiset{item.op.id}) && Chronicle(d) && InPhase(d.h) && Facts(d.h.trace, item)
  {
    Frame(c, d, held + multiset{item.op.id});
    Logs(c, held + multiset{item.op.id}, e);
    LogsInPhase(c.h, e, d.h);
    GrowFacts(c.h.trace, e, item);
  }

  // ----- resend

  lemma StartOverLink(c: State, d: State, held: multiset<nat>, item: Item, n: Net)
    requires Placed(c, held + multiset{item.op.id}) && Tracked(c.h.ops, item)
    requires c.writing && !item.stage.Writes() && Link(c, n) && d == OnResend(c, item)
    ensures Link(d, n)
  {
    if item.stage.OnRecPubrel? {
      AwaitLink(c, d, held, item, n);
    } else {
      SameLink(c, d, n);
    }
  }

  lemma EndLink(c: State, d: State, op: Op, ending: Ending, n: Net)
    requires IdsOk(c.h, c.inUse) && op.id in c.h.ops && c.h.ops[op.id] == op
    requires !op.kind.Metered() && Link(c, n) && d == Complete(c, op, ending)
    ensures Link(d, n)
  {
    RetireLink(c, d, op, ending, n);
  }

  lemma TryAgainLink(c: State, d: State, held: multiset<nat>, item: Item, n: Net)
    requires Placed(c, held + multiset{item.op.id}) && Tracked(c.h.ops, item) && c.writing && Link(c, n)
    requires item.stage.Writes() && d == OnTryAgain(c, item)
    ensures Link(d, n)
  {
    match item.stage
    case OnPublish => SameLink(c, d, n);
    case OnPubrel => SameLink(c, d, n);
    case OnSubscribe => SameLink(c, d, n);
    case OnDisconnect =>
      if item.op.kind.retry {
        SameLink(c, d, n);
      } else {
        EndLink(c, d, item.op, Completed, n);
      }
    case OnOneShot => EndLink(c, d, item.op, Failed, n);
    case OnRecPuback => EndLink(c, d, item.op, Failed, n);
    case OnRecPubrec => EndLink(c, d, item.op, Failed, n);
    case OnRecPubcomp => AwaitLink(c, d, held, item.(stage := OnRecPubrel), n);
  }

  lemma {:induction false} WaitersLink(c: State, s: seq<Waiter>, reqs: seq<Request>, n: Net)
    requires Holding(c, s, reqs) && WaitersFit(s) && c.writing && Link(c, n)
    ensures var d := ResendWaiters(c, s); Holding(d, [], reqs) && d.writing && Link(d, n)
    decreases |s|
  {
    if s != [] {
      var item := s[0].item;
      assert s[0] in s;
      HeadWaiter(s);
      var rest := multiset(WaiterIds(s[1..])) + multiset(RequestIds(reqs));
      assert rest + multiset{item.op.id} == multiset(WaiterIds(s)) + multiset(RequestIds(reqs));
      var d := OnResend(c, item);
      NextWaiter(c, d, s, reqs);
      StartOverLink(c, d, rest, item, n);
      WaiterQuietly(c, d, item);
      WaitersLink(d, s[1..], reqs, n);
    }
  }

  lemma {:induction false} RequestsLink(c: State, s: seq<Request>, n: Net)
    requires Holding(c, [], s) && RequestsFit(s) && c.writing && Link(c, n)
    ensures Link(RetryRequests(c, s), n)
    decreases |s|
  {
    if s != [] {
      var item := s[0].item;
      assert s[0] in s;
      HeadRequest(s);
      NoWaiters();
      var d := OnTryAgain(c, item);
      NextRequest(c, d, s);
      TryAgainLink(c, d, multiset(RequestIds(s[1..])), item, n);
      RequestQuietly(c, d, item);
      RequestsLink(d, s[1..], n);
    }
  }

  lemma RefillLink(c: State, d: State, limit: nat, n: Net)
    requires Link(c, n)
    requires d == Log(c, EpochEvent(c)).(writing := true, limit := limit, quota := limit,
                                         queue := [], table := [])
    ensures Link(d, n)
  {
    LogLink(c, Log(c, EpochEvent(c)), EpochEvent(c), n);
  }

  lemma ResendLink(c: State, limit: nat, n: Net)
    requires Placed(c, multiset{}) && Chronicle(c) && Serials(c.h, c.lastSerial) && InPhase(c.h)
    requires !c.writing && c.done == [] && limit <= MAX_LIMIT && Link(c, n)
    ensures WaitersFit(c.table) && RequestsFit(c.queue)
    ensures Link(Resend(c, limit), n)
  {
    ShapeFits(c);
    var base := WindowBase(c.h.ops);
    var c1 := Log(c, EpochEvent(c)).(writing := true, limit := limit, quota := limit,
                                     queue := [], table := []);
    RefillBegins(c, c1, limit);
    RefillStarts(c, c1);
    RefillLink(c, c1, limit, n);
    var c2 := RetryRequests(ResendWaiters(c1, c.table), c.queue);
    Refills(c1, c2, c.table, c.queue, base);
    RefilledLink(c1, c2, c.table, c.queue, n);
    RefillEndsLink(c2, Resend(c, limit), base, n);
  }

  lemma RefilledLink(c: State, d: State, table: seq<Waiter>, queue: seq<Request>, n: Net)
    requires Holding(c, table, queue) && WaitersFit(table) && RequestsFit(queue)
    requires c.writing && Link(c, n) && d == RetryRequests(ResendWaiters(c, table), queue)
    ensures Link(d, n)
  {
    WaitersLink(c, table, queue, n);
    RequestsLink(ResendWaiters(c, table), queue, n);
  }

  lemma RefillEndsLink(c: State, d: State, base: nat, n: Net)
    requires Placed(c, multiset{}) && Sound(c, false) && Refilling(c, base) && Link(c, n)
    requires d == Pump(c.(queue := StableSort(c.queue), writing := false))
    ensures Link(d, n)
  {
    var c1 := c.(queue := StableSort(c.queue), writing := false);
    Sorted(c, c1, base);
    Unfold(c1, true);
    SameLink(c, c1, n);
    PumpLink(c1, d, multiset{}, n);
  }

  // ----- steps of the client

  lemma CallLink(c: State, d: State, kind: Kind, pid: nat, seqno: nat, r: Request, stage: Stage, n: Net)
    requires Placed(c, multiset{}) && Sound(c, true) && Link(c, n)
    requires stage.Writes() && !Progressed(stage) && StageFits(kind, stage)
    requires kind.Bearing() ==> 1 <= pid <= MAX_PACKET_ID && pid !in c.inUse
    requires kind.Publishes() ==> Newest(c.h, seqno)
    requires r.item == Item(Op(c.h.next, kind, pid, seqno), stage, false)
    requires r == if stage.OnPublish? then PublishRequest(r.item) else PlainRequest(r.item)
    requires d == Send(Admit(c, kind, pid, seqno), r)
    ensures Link(d, n)
  {
    Unfold(c, true);
    var c1 := Admit(c, kind, pid, seqno);
    AdmitStep(c, c1, multiset{}, kind, pid, seqno, stage, true);
    Unfold(c1, true);
    AdmitLink(c, c1, kind, pid, seqno, n);
    SendLink(c1, d, multiset{}, r, n);
  }

  lemma SerialLink(c: State, d: State, n: Net)
    requires Link(c, n) && d == NextSerial(c)
    ensures Link(d, n)
  {
    NetSame(c.h, d.h, n);
  }

  lemma NetSame(h: History, k: History, n: Net)
    requires NetOk(h, n) && k.trace == h.trace && k.ops == h.ops && k.owner == h.owner
    ensures NetOk(k, n)
  {
    assert forall pid, id :: OwnedBy(h, pid, id) ==> OwnedBy(k, pid, id);
  }

  lemma PublishLink(c: State, d: State, kind: Kind, check: Check, n: Net)
    requires Invariant(c) && Link(c, n) && kind.Publishes() && d == CallPublish(c, kind, check)
    ensures Link(d, n)
  {
    var pid := if kind.Qos0? then 0 else LeastFreeFrom(c.inUse, 1);
    LeastFree(c.inUse, 1);
    if !((!kind.Qos0? && pid == 0) || check.Invalid?) {
      var c1 := NextSerial(c);
      SerialTaken(c, c1);
      SerialLink(c, c1, n);
      if !check.TooLarge? {
        var item := Item(Op(c.h.next, kind, pid, c1.h.published), OnPublish, false);
        CallLink(c1, d, kind, pid, c1.h.published, PublishRequest(item), OnPublish, n);
      }
    }
  }

  lemma OtherCallLink(c: State, d: State, kind: Kind, pid: nat, stage: Stage, n: Net)
    requires Invariant(c) && Link(c, n) && stage.Writes() && !Progressed(stage) && StageFits(kind, stage)
    requires !stage.OnPublish?
    requires kind.Bearing() ==> 1 <= pid <= MAX_PACKET_ID && pid !in c.inUse
    requires d == Send(Admit(c, kind, pid, 0), PlainRequest(Item(Op(c.h.next, kind, pid, 0), stage, false)))
    ensures Link(d, n)
  {
    CallLink(c, d, kind, pid, 0, PlainRequest(Item(Op(c.h.next, kind, pid, 0), stage, false)), stage, n);
  }

  lemma SubscribeLink(c: State, d: State, check: Check, n: Net)
    requires Invariant(c) && Link(c, n) && d == CallSubscribe(c, check)
    ensures Link(d, n)
  {
    var pid := LeastFreeFrom(c.inUse, 1);
    LeastFree(c.inUse, 1);
    if pid != 0 && check.Valid? { OtherCallLink(c, d, Subscribe, pid, OnSubscribe, n); }
  }

  lemma CallingLink(c: State, s: Step, n: Net)
    requires Invariant(c) && WellShaped(c) && Enabled(c, s) && Link(c, n)
    requires s.PublishStep? || s.SubscribeStep? || s.OtherStep? || s.ReceiveStep?
    ensures Link(Next(c, s), n)
  {
    var d := Next(c, s);
    match s
    case PublishStep(kind, check) => PublishLink(c, d, kind, check, n);
    case SubscribeStep(check) => SubscribeLink(c, d, check, n);
    case OtherStep(kind) =>
      OtherCallLink(c, d, kind, 0, if kind.OneShot? then OnOneShot else OnDisconnect, n);
    case ReceiveStep(kind, pid) =>
      OtherCallLink(c, d, kind, pid, if kind.qos2 then OnRecPubrec else OnRecPuback, n);
  }

  lemma TellNextLink(c: State, d: State, n: Net)
    requires Invariant(c) && c.done != [] && RequestsFit(c.done) && Link(c, n) && d == TellNext(c)
    ensures Link(d, n)
  {
    var r := c.done[0];
    assert r in c.done;
    assert RequestOk(c.h.ops, r);
    var c0 := Telling(c);
    TellingOne(c, c0, r);
    FewerTold(c, c0, n);
    var c1 := OnWritten(c0, r.item);
    assert multiset{} + multiset{r.item.op.id} == multiset{r.item.op.id};
    Writes(c0, c1, multiset{}, r.item);
    WrittenStep(c0, c1, multiset{}, r.item, true);
    Unfold(c1, true);
    WrittenLink(c0, c1, multiset{}, r.item, n);
    PumpLink(c1, Pump(c1), multiset{}, n);
  }

  lemma FewerTold(c: State, d: State, n: Net)
    requires Link(c, n) && c.done != [] && d == Telling(c)
    ensures Link(d, n) && Genuine(c.done[0].item, d.fast, n.watched)
  {
    assert c.done[0] in c.done;
    var b := c.(done := c.done[1..]);
    assert Link(b, n);
    LogLink(b, d, Told(c.done[0].item.op.id, PacketOf(c.done[0].item.stage)), n);
  }

  lemma WriteAgainLink(c: State, limit: nat, n: Net)
    requires Invariant(c) && WellShaped(c) && Enabled(c, WriteAgainStep(true, limit)) && Link(c, n)
    ensures Link(Next(c, WriteAgainStep(true, limit)), n)
  {
    var c0 := c.(writing := false, batch := []);
    TakenBack(c, c0);
    Unfold(c0, true);
    var c1 := c0.(queue := c.batch + c0.queue);
    PutBack(c0, c1, c.batch);
    assert Link(c1, n);
    ResendLink(c1, limit, n);
  }

  lemma ReadAgainLink(c: State, limit: nat, n: Net)
    requires Invariant(c) && WellShaped(c) && Enabled(c, ReadAgainStep(true, limit)) && Link(c, n)
    ensures Link(Next(c, ReadAgainStep(true, limit)), n)
  {
    if c.writing {
      assert Resend(c, limit) == c;
    } else {
      Unfold(c, true);
      ResendLink(c, limit, n);
    }
  }

  lemma PostedLink(c: State, d: State, n: Net)
    requires Invariant(c) && WellShaped(c) && c.posted != [] && Link(c, n) && d == RunPosted(c)
    requires var p := c.posted[0];
      p.outcome.Got? ==> RefusalIsLast(c.h, n, p.item, p.outcome.reply)
    ensures Link(d, n)
  {
    var p := c.posted[0];
    assert p in c.posted;
    var c1 := c.(posted := c.posted[1..]);
    TakePosted(c, c1);
    TakePostedSound(c, c1);
    Unfold(c1, true);
    assert PostedOk(c.h.ops, p);
    FewerPosted(c, c1, n);
    if p.outcome.Got? {
      AnswerLink(c1, d, multiset{}, p.item, p.outcome.reply, n);
    } else {
      CompleteLink(c1, d, multiset{}, p.item.op, Failed, n);
    }
  }

  lemma FewerPosted(c: State, d: State, n: Net)
    requires Link(c, n) && c.posted != [] && d == c.(posted := c.posted[1..])
    ensures Link(d, n)
    ensures c.posted[0].outcome.Got? ==> Answerable(n, c.posted[0].item, c.posted[0].outcome.reply)
    ensures c.posted[0].outcome.Aborted? ==> !c.posted[0].item.op.kind.Qos2?
  {
    assert c.posted[0] in c.posted;
  }

  // ----- the client and the broker together

  datatype World = World(c: State, n: Net)

  datatype WorldStep =
    /** A step of the client that reads nothing from the connection. */
    | Act(step: Step)
    /** The client reads the next reply. */
    | Read
    /** The broker takes the next packet; `accept` is its decision on a new PUBLISH. */
    | Serve(accept: bool)
    /** The broker sends some other packet that is answered by packet id. */
    | Chat(reply: Reply)
    /** The connection breaks; the first `buffered` replies are already with the reader. */
    | Break(buffered: nat)
    /** The reader throws away what it had buffered. */
    | Drop(count: nat)

  ghost const Everything: iset<nat> := iset p: nat | true

  ghost const Beginning := World(Initial, Net([], [], Session({}, []), map[], Everything))

  /** The broker's session is kept and nothing is cancelled. */
  predicate Uncancelled(s: Step) {
    match s
    case WriteAgainStep(present, _) => present
    case ReadAgainStep(present, _) => present
    case WriteAbortStep => false
    case ReadReplyStep(_) => false
    case CancelOneStep(_) => false
    case CancelAllStep => false
    case _ => true
  }

  /** A refusal is acted on only when nothing else is outstanding on its packet id. */
  ghost predicate RefusesLast(w: World, s: Step) {
    s.PostedStep? && w.c.posted != [] && w.c.posted[0].outcome.Got? ==>
      RefusalIsLast(w.c.h, w.n, w.c.posted[0].item, w.c.posted[0].outcome.reply)
  }

  ghost predicate ReadsLast(w: World) {
    w.n.down != [] ==>
      var r := w.n.down[0];
      var i := FindWaiter(w.c.table, r.code, r.pid);
      i < |w.c.table| ==> RefusalIsLast(w.c.h, w.n.(down := w.n.down[1..]), w.c.table[i].item, r)
  }

  /** What can happen next. */
  ghost predicate Feasible(w: World, s: WorldStep) {
    match s
    case Act(step) => WellShaped(w.c) && Enabled(w.c, step) && Uncancelled(step)
    case Read => WellShaped(w.c) && w.c.done == [] && w.n.down != []
    case Serve(_) => |w.n.past| < |w.c.h.trace|
    case Chat(reply) => !reply.code.Pubrec? && !reply.code.Pubcomp? && !reply.verdict.Malformed?
    case Break(buffered) => buffered <= |w.n.down|
    case Drop(count) => count <= |w.n.down|
  }

  ghost predicate Possible(w: World, s: WorldStep) {
    && Feasible(w, s)
    && (s.Act? ==> RefusesLast(w, s.step))
    && (s.Read? ==> ReadsLast(w))
  }

  /** The broker's answer to a QoS 2 packet at position `at` of the run. */
  function AnswerTo(b: Session, e: Event, accept: bool, at: nat): Reply
    requires OfQos2(e)
  {
    if e.packet.PubrelPacket? then
      Reply(Pubcomp, e.pid, if e.pid in b.received then Success else Failure, e.id, at, 0)
    else Reply(Pubrec, e.pid, if e.pid in b.received || accept then Success else Failure, e.id, at, 0)
  }

  function Served(n: Net, e: Event, accept: bool): Net {
    Net(n.past + [e],
        if OfQos2(e) then n.down + [AnswerTo(n.session, e, accept, |n.past|)] else n.down,
        Arrive(n.session, e, accept), LastPhase(n.session, n.last, e, accept), n.watched)
  }

  ghost function After(w: World, s: WorldStep): World
    requires Feasible(w, s)
  {
    match s
    case Act(step) => w.(c := Next(w.c, step))
    case Read => World(ReadReply(w.c, w.n.down[0]), w.n.(down := w.n.down[1..]))
    case Serve(accept) => w.(n := Served(w.n, w.c.h.trace[|w.n.past|], accept))
    case Chat(reply) => w.(n := w.n.(down := w.n.down + [reply]))
    case Break(buffered) => w.(n := w.n.(past := w.c.h.trace, down := w.n.down[..buffered]))
    case Drop(count) => w.(n := w.n.(down := w.n.down[count..]))
  }

  ghost predicate Leads(w: World, s: WorldStep, v: World) {
    Possible(w, s) && v == After(w, s)
  }

  ghost predicate Healthy(w: World) {
    Invariant(w.c) && WellShaped(w.c) && Link(w.c, w.n)
  }

  lemma ActKeeps(w: World, s: Step)
    requires Healthy(w) && Possible(w, Act(s))
    ensures Link(Next(w.c, s), w.n)
  {
    var c, n, d := w.c, w.n, Next(w.c, s);
    match s {
      case PublishStep(kind, check) => CallingLink(c, s, n);
      case SubscribeStep(check) => CallingLink(c, s, n);
      case OtherStep(kind) => CallingLink(c, s, n);
      case ReceiveStep(kind, pid) => CallingLink(c, s, n);
      case ReceiveQos0Step(msg) =>
        LogLink(c, Log(c, Arrived(msg)), Arrived(msg), n);
        SameLink(Log(c, Arrived(msg)), d, n);
      case WriteOkStep => assert Link(d, n);
      case TellNextStep => TellNextLink(c, d, n);
      case WriteAgainStep(present, limit) => WriteAgainLink(c, limit, n);
      case ReadAgainStep(present, limit) => ReadAgainLink(c, limit, n);
      case PostedStep => PostedLink(c, d, n);
      case _ =>
    }
  }

  // ----- reading

  lemma FewerDown(c: State, n: Net, k: nat, j: nat)
    requires Link(c, n) && k <= j <= |n.down|
    ensures Link(c, n.(down := n.down[k..j]))
  {
    var m := n.(down := n.down[k..j]);
    assert forall r :: r in m.down ==> r in n.down;
    FewerRise(n.down, k, j);
    assert forall r :: Honest(n, r) ==> Honest(m, r);
    assert forall k :: Overtaken(n.down, k) ==> Overtaken(m.down, k);
    assert forall pid, phase :: NotOlder(n.down, pid, phase) ==> NotOlder(m.down, pid, phase);
    FewerRead(c, n, m);
  }

  lemma FewerRise(down: seq<Reply>, k: nat, j: nat)
    requires DownRises(down) && k <= j <= |down|
    ensures DownRises(down[k..j])
  {
  }

  lemma FewerRead(c: State, n: Net, m: Net)
    requires Link(c, n) && DownRises(m.down) && m == n.(down := m.down)
    requires forall r :: r in m.down ==> r in n.down
    requires forall r :: Honest(n, r) ==> Honest(m, r)
    requires forall k :: Overtaken(n.down, k) ==> Overtaken(m.down, k)
    requires forall pid, phase :: NotOlder(n.down, pid, phase) ==> NotOlder(m.down, pid, phase)
    ensures Link(c, m)
  {
  }

  lemma Remaining(c: State, n: Net, m: Net)
    requires Link(c, n) && n.down != [] && m == n.(down := n.down[1..])
    ensures Link(c, m)
  {
    FewerDown(c, n, 1, |n.down|);
    assert n.down[1..|n.down|] == n.down[1..];
  }

  lemma WaiterKnown(c: State, i: nat)
    requires Invariant(c) && i < |c.table|
    ensures WaiterOk(c.h.ops, c.table[i]) && Facts(c.h.trace, c.table[i].item)
  {
    Unfold(c, true);
    assert c.table[i] in c.table;
  }

  lemma PostedKnown(c: State)
    requires Invariant(c) && c.posted != []
    ensures PostedOk(c.h.ops, c.posted[0])
    ensures c.posted[0].outcome.Got? ==> Facts(c.h.trace, c.posted[0].item)
  {
    Unfold(c, true);
    assert c.posted[0] in c.posted;
  }

  /** The reply at the head of the channel, once it is read. */
  lemma HeadIsReadable(c: State, n: Net, m: Net)
    requires Link(c, n) && n.down != [] && m == n.(down := n.down[1..])
    ensures ReadOk(m, n.down[0])
  {
    var r := n.down[0];
    assert r in n.down;
    forall d | d in m.down && OfFlow(d) && OfFlow(r) ensures r.answers < d.answers {
      var i :| 0 <= i < |m.down| && m.down[i] == d;
      assert n.down[i + 1] == d;
    }
  }

  /** A reply just read is not mistaken for one of an older operation. */
  lemma HeadIsGenuine(c: State, n: Net, item: Item)
    requires NetOk(c.h, n) && n.down != [] && InPhase(c.h) && IdsOk(c.h, c.inUse)
    requires Tracked(c.h.ops, item) && Facts(c.h.trace, item) && item.op.kind.Qos2? && item.op.pid in n.watched
    ensures var r := n.down[0];
      OfFlow(r) && r.pid == item.op.pid && r.code == Expected(item.stage) ==> r.source == item.op.id
  {
    var r, a := n.down[0], item.op.id;
    assert r in n.down;
    if OfFlow(r) && r.pid == item.op.pid && r.code == Expected(item.stage) {
      assert c.h.owner[r.pid] == a;
      if r.code.Pubrec? {
        assert OwnedBy(c.h, r.pid, r.source);
      } else {
        assert Accepted(a) in c.h.trace;
        assert PastPublish(n, r.pid, a);
        LastIsOwners(c.h, n, r.pid);
        assert 2 * a <= PhaseOf(r) <= 2 * a + 1;
      }
    }
  }

  /** The reply joins the early ones; nobody can mistake it for his own. */
  lemma EarlyGenuine(c: State, n: Net, fast: seq<Reply>, r: Reply, item: Item)
    requires NetOk(c.h, n) && n.down != [] && InPhase(c.h) && IdsOk(c.h, c.inUse)
    requires Tracked(c.h.ops, item) && Facts(c.h.trace, item) && Genuine(item, fast, n.watched)
    requires r == n.down[0].(readAt := r.readAt)
    ensures Genuine(item, fast + [r], n.watched)
  {
    if item.op.kind.Qos2? && item.op.pid in n.watched { HeadIsGenuine(c, n, item); }
  }

  lemma EarlyRequests(c: State, n: Net, r: Reply, s: seq<Request>)
    requires NetOk(c.h, n) && n.down != [] && InPhase(c.h) && IdsOk(c.h, c.inUse)
    requires AllRequests(c.h.ops, s) && RequestFacts(c.h.trace, s) && GenuineRequests(s, c.fast, n.watched)
    requires r == n.down[0].(readAt := r.readAt)
    ensures GenuineRequests(s, c.fast + [r], n.watched)
  {
    forall x | x in s ensures Genuine(x.item, c.fast + [r], n.watched) {
      assert RequestOk(c.h.ops, x);
      EarlyGenuine(c, n, c.fast, r, x.item);
    }
  }

  lemma EarlyWaiters(c: State, n: Net, r: Reply, s: seq<Waiter>)
    requires NetOk(c.h, n) && n.down != [] && InPhase(c.h) && IdsOk(c.h, c.inUse)
    requires AllWaiters(c.h.ops, s) && WaiterFacts(c.h.trace, s) && GenuineWaiters(s, c.fast, n.watched)
    requires r == n.down[0].(readAt := r.readAt)
    ensures GenuineWaiters(s, c.fast + [r], n.watched)
  {
    forall x | x in s ensures Genuine(x.item, c.fast + [r], n.watched) {
      assert WaiterOk(c.h.ops, x);
      EarlyGenuine(c, n, c.fast, r, x.item);
    }
  }

  lemma ReadEarly(c: State, d: State, n: Net, m: Net, r: Reply)
    requires Invariant(c) && Link(c, n) && n.down != [] && m == n.(down := n.down[1..])
    requires Link(c, m) && r == n.down[0].(readAt := r.readAt) && d == c.(fast := c.fast + [r])
    ensures Link(d, m)
  {
    Unfold(c, true);
    HeadIsReadable(c, n, m);
    SameReply(m, n.down[0], r);
    EarlyRequests(c, n, r, c.batch);
    EarlyRequests(c, n, r, c.done);
    EarlyWaiters(c, n, r, c.table);
    EarlyLink(c, d, m, r);
  }

  /** When a reply is read makes no difference to what it says. */
  lemma SameReply(n: Net, r: Reply, x: Reply)
    requires ReadOk(n, r) && x == r.(readAt := x.readAt)
    ensures ReadOk(n, x)
  {
  }

  lemma EarlyLink(c: State, d: State, m: Net, r: Reply)
    requires Link(c, m) && d == c.(fast := c.fast + [r]) && ReadOk(m, r)
    requires GenuineRequests(c.batch, d.fast, m.watched) && GenuineRequests(c.done, d.fast, m.watched) && GenuineWaiters(c.table, d.fast, m.watched)
    ensures Link(d, m)
  {
  }

  /** The reply just read may be given to the one who waits for it. */
  lemma HeadIsAnswer(c: State, n: Net, m: Net, item: Item, r: Reply)
    requires Invariant(c) && Link(c, n) && n.down != [] && m == n.(down := n.down[1..])
    requires r == n.down[0].(readAt := r.readAt) && Tracked(c.h.ops, item) && Facts(c.h.trace, item)
    requires !item.stage.Writes() && r.code == AwaitedCode(item.stage) && r.pid == item.op.pid
    ensures Answerable(m, item, r)
  {
    HeadIsReadable(c, n, m);
    SameReply(m, n.down[0], r);
    if item.op.kind.Qos2? && item.op.pid in n.watched {
      Unfold(c, true);
      HeadIsGenuine(c, n, item);
    }
  }

  lemma ReadWaiting(c: State, d: State, n: Net, m: Net, r: Reply, i: nat)
    requires Invariant(c) && Link(c, n) && n.down != [] && m == n.(down := n.down[1..])
    requires Link(c, m) && r == n.down[0].(readAt := |c.h.trace|)
    requires i < |c.table| && c.table[i].code == r.code && c.table[i].pid == r.pid
    requires WaitersFit(c.table) && RefusalIsLast(c.h, m, c.table[i].item, r)
    requires d == OnAnswer(c.(table := Without(c.table, i)), c.table[i].item, r)
    ensures Link(d, m)
  {
    var item := c.table[i].item;
    WaiterKnown(c, i);
    HeadIsAnswer(c, n, m, item, r);
    var c1 := c.(table := Without(c.table, i));
    TakeWaiter(c, c1, i);
    TakeWaiterSound(c, c1, i);
    Unfold(c1, true);
    FewerWaiters(c, c1, i, m);
    AnswerLink(c1, d, multiset{}, item, r, m);
  }

  lemma FewerWaiters(c: State, d: State, i: nat, n: Net)
    requires Link(c, n) && i < |c.table| && d == c.(table := Without(c.table, i))
    ensures Link(d, n)
  {
    WaiterIdsWithout(c.table, i);
  }

  lemma ReadKeeps(w: World)
    requires Healthy(w) && Possible(w, Read)
    ensures var v := After(w, Read); Link(v.c, v.n)
  {
    var c, n, m := w.c, w.n, w.n.(down := w.n.down[1..]);
    Remaining(c, n, m);
    var r := n.down[0].(readAt := |c.h.trace|);
    var i := FindWaiter(c.table, r.code, r.pid);
    if i == |c.table| {
      ReadEarly(c, ReadReply(c, n.down[0]), n, m, r);
    } else {
      ReadWaiting(c, ReadReply(c, n.down[0]), n, m, r, i);
    }
  }

  // ----- the broker's steps

  lemma ServedAgrees(h: History, n: Net, e: Event, accept: bool)
    requires NetOk(h, n) && PhasesRise(h.trace) && |n.past| < |h.trace| && e == h.trace[|n.past|]
    ensures Agrees(n.past + [e], Arrive(n.session, e, accept), LastPhase(n.session, n.last, e, accept))
    ensures OfQos2(e) ==> NoneAbove(n.past, e)
    ensures OfQos2(e) && e.pid in n.last ==> n.last[e.pid] <= Phase(e)
  {
    PhasesBefore(h.trace, |n.past|);
    assert h.trace[..|n.past|] == n.past;
    ArriveAgrees(n.past, e, n.session, n.last, accept);
    if OfQos2(e) && e.pid in n.last { UpIsAhead(h, n, |n.past|); }
  }

  /** The broker's memory only moves on, and it forgets no message. */
  ghost predicate MovesOn(n: Net, m: Net) {
    && (forall p :: p in n.last ==> p in m.last && n.last[p] <= m.last[p])
    && (forall id :: IsForwarded(n.session, id) ==> IsForwarded(m.session, id))
  }

  /** A message is forwarded when a packet of it arrives. */
  ghost predicate Moves(n: Net, m: Net, e: Event) {
    && MovesOn(n, m) && m.past == n.past + [e] && m.watched == n.watched
    && (forall id :: IsForwarded(m.session, id) && !IsForwarded(n.session, id) ==> CopyAt(m.past, id, |n.past|))
  }

  lemma StaysHonest(n: Net, m: Net, e: Event, r: Reply)
    requires Moves(n, m, e) && Honest(n, r)
    ensures Honest(m, r)
  {
    if Refuses(r) && IsForwarded(m.session, r.source) {
      if IsForwarded(n.session, r.source) {
        var j: nat :| j != r.answers && CopyAt(n.past, r.source, j);
        assert CopyAt(m.past, r.source, j);
      } else {
        assert CopyAt(m.past, r.source, |n.past|);
      }
    }
  }

  lemma ServedMoves(n: Net, m: Net, e: Event, accept: bool)
    requires (OfQos2(e) && e.pid in n.last ==> n.last[e.pid] <= Phase(e)) && m == Served(n, e, accept)
    ensures Moves(n, m, e)
    ensures forall p :: p in m.last && !(OfQos2(e) && p == e.pid) ==> p in n.last && n.last[p] == m.last[p]
  {
    forall id | IsForwarded(n.session, id) ensures IsForwarded(m.session, id) {
      var x :| x in n.session.forwarded && x.op == id;
      assert x in m.session.forwarded;
    }
    forall id | IsForwarded(m.session, id) && !IsForwarded(n.session, id) ensures CopyAt(m.past, id, |n.past|) {
      var x :| x in m.session.forwarded && x.op == id;
      assert x !in n.session.forwarded;
    }
  }

  /** The answer to the packet just served joins the channel. */
  ghost predicate Joins(h: History, n: Net, m: Net, e: Event, r: Reply) {
    && Moves(n, m, e) && m.down == n.down + [r] && OfFlow(r) && r.answers == |n.past| && Honest(m, r)
    && (r.pid in n.last ==> n.last[r.pid] <= PhaseOf(r))
    && (r.code.Pubrec? && r.pid in n.watched ==> OwnedBy(h, r.pid, r.source))
    && (forall p :: p in m.last && p != r.pid ==> p in n.last && n.last[p] == m.last[p])
    && (Tells(r) ==> r.pid in m.last && m.last[r.pid] == PhaseOf(r))
    && (!Tells(r) ==> m.last == n.last)
  }

  lemma JoinsRises(h: History, n: Net, m: Net, e: Event, r: Reply)
    requires NetOk(h, n) && Joins(h, n, m, e, r)
    ensures DownRises(m.down) && AllHonest(m, m.down)
  {
    forall d | d in n.down ensures Honest(m, d) && (OfFlow(d) ==> d.answers < r.answers) {
      StaysHonest(n, m, e, d);
    }
  }

  lemma JoinsPast(h: History, n: Net, m: Net, e: Event, r: Reply)
    requires AllPast(h, n) && Joins(h, n, m, e, r)
    ensures AllPast(h, m)
  {
    forall id | id in h.ops && h.ops[id].kind.Qos2? && h.ops[id].pid in m.watched && Accepted(id) in h.trace
      ensures PastPublish(m, h.ops[id].pid, id)
    {
      assert PastPublish(n, h.ops[id].pid, id);
    }
  }

  lemma JoinsRead(h: History, n: Net, m: Net, e: Event, r: Reply, x: Reply)
    requires Joins(h, n, m, e, r) && ReadOk(n, x)
    ensures ReadOk(m, x)
  {
    StaysHonest(n, m, e, x);
  }

  lemma JoinsOwned(h: History, n: Net, m: Net, e: Event, r: Reply)
    requires LastOwned(h, n.last, n.watched) && DownOwned(h, n.down, n.watched) && UpOwned(h, |n.past|, n.watched)
    requires Joins(h, n, m, e, r)
    ensures LastOwned(h, m.last, m.watched) && DownOwned(h, m.down, m.watched) && UpOwned(h, |m.past|, m.watched)
  {
    forall p | p in m.watched && p in m.last && m.last[p] % 2 == 0 ensures OwnedBy(h, p, m.last[p] / 2) {
      if p != r.pid || !Tells(r) { assert n.last[p] == m.last[p]; }
    }
  }

  lemma JoinsForwarded(h: History, n: Net, m: Net, e: Event, r: Reply)
    requires AllForwarded(h, n) && Joins(h, n, m, e, r)
    ensures AllForwarded(h, m)
  {
    forall p | p in m.watched && p in m.last && m.last[p] % 2 == 0 ensures IsForwarded(m.session, m.last[p] / 2) {
      if p != r.pid || !Tells(r) { assert n.last[p] == m.last[p]; }
    }
  }

  lemma JoinsNet(h: History, n: Net, m: Net, e: Event, r: Reply)
    requires NetOk(h, n) && Joins(h, n, m, e, r) && m.past <= h.trace && Agrees(m.past, m.session, m.last)
    ensures NetOk(h, m)
  {
    JoinsRises(h, n, m, e, r);
    JoinsPast(h, n, m, e, r);
    JoinsOwned(h, n, m, e, r);
    JoinsForwarded(h, n, m, e, r);
  }

  lemma JoinsLink(c: State, n: Net, m: Net, e: Event, r: Reply)
    requires Link(c, n) && Joins(c.h, n, m, e, r) && m.past <= c.h.trace && Agrees(m.past, m.session, m.last)
    ensures Link(c, m)
  {
    JoinsNet(c.h, n, m, e, r);
    forall x | x in c.fast ensures ReadOk(m, x) { JoinsRead(c.h, n, m, e, r, x); }
    forall p | p in c.posted && p.outcome.Got? ensures Answerable(m, p.item, p.outcome.reply) {
      JoinsRead(c.h, n, m, e, r, p.outcome.reply);
    }
  }

  /** Nothing that matters changes, but for a reply outside the QoS 2 exchange. */
  ghost predicate Chatter(n: Net, m: Net) {
    && n.past <= m.past && m.session == n.session && m.last == n.last && m.watched == n.watched
    && (m.down == n.down || (exists r :: m.down == n.down + [r] && !OfFlow(r) && !r.verdict.Malformed?))
  }

  lemma ChatterHonest(n: Net, m: Net, r: Reply)
    requires Chatter(n, m) && Honest(n, r)
    ensures Honest(m, r)
  {
    if Refuses(r) && IsForwarded(m.session, r.source) {
      var j: nat :| j != r.answers && CopyAt(n.past, r.source, j);
      assert CopyAt(m.past, r.source, j);
    }
  }

  lemma ChatterDown(n: Net, m: Net)
    requires Chatter(n, m) && DownRises(n.down) && AllHonest(n, n.down)
    ensures DownRises(m.down) && AllHonest(m, m.down)
    ensures forall r :: r in m.down && OfFlow(r) ==> r in n.down
    ensures forall k :: Overtaken(n.down, k) ==> Overtaken(m.down, k)
    ensures forall pid, phase :: NotOlder(n.down, pid, phase) ==> NotOlder(m.down, pid, phase)
  {
    forall r | r in n.down ensures Honest(m, r) { ChatterHonest(n, m, r); }
    if m.down != n.down {
      var r :| m.down == n.down + [r] && !OfFlow(r) && !r.verdict.Malformed?;
    }
  }

  lemma ChatterLink(c: State, n: Net, m: Net)
    requires Link(c, n) && Chatter(n, m) && m.past <= c.h.trace && Agrees(m.past, m.session, m.last)
    ensures Link(c, m)
  {
    ChatterDown(n, m);
    forall x | x in c.fast ensures ReadOk(m, x) { ChatterHonest(n, m, x); }
    forall p | p in c.posted && p.outcome.Got? ensures Answerable(m, p.item, p.outcome.reply) {
      ChatterHonest(n, m, p.outcome.reply);
    }
  }

  lemma ServeJoins(h: History, n: Net, e: Event, accept: bool)
    requires NetOk(h, n) && PhasesRise(h.trace) && |n.past| < |h.trace| && e == h.trace[|n.past|] && OfQos2(e)
    ensures Joins(h, n, Served(n, e, accept), e, AnswerTo(n.session, e, accept, |n.past|))
  {
    var m, r := Served(n, e, accept), AnswerTo(n.session, e, accept, |n.past|);
    ServedAgrees(h, n, e, accept);
    ServedMoves(n, m, e, accept);
    assert Receipt(m.past, r);
    if !e.packet.PubrelPacket? {
      if !(e.pid in n.session.received || accept) {
        NotForwardedYet(n, e);
      } else if e.pid in n.watched {
        assert OwnedBy(h, e.pid, e.id);
        PublishIsForwarded(h, n, m, e, accept);
      }
    }
  }

  /** A duplicate is one of the message that was taken over, never of another. */
  lemma PublishIsForwarded(h: History, n: Net, m: Net, e: Event, accept: bool)
    requires NetOk(h, n) && OfQos2(e) && !e.packet.PubrelPacket? && OwnedBy(h, e.pid, e.id)
    requires (e.pid in n.session.received || accept) && m == Served(n, e, accept) && e.pid in n.watched
    ensures IsForwarded(m.session, e.id)
  {
    if e.pid in n.session.received {
      assert OwnedBy(h, e.pid, n.last[e.pid] / 2);
    } else {
      assert Message(e.id, e.pid) in m.session.forwarded;
    }
  }

  /** A message that is refused was not taken over before. */
  lemma NotForwardedYet(n: Net, e: Event)
    requires Agrees(n.past, n.session, n.last) && OfQos2(e) && !e.packet.PubrelPacket?
    requires NoneAbove(n.past, e) && e.pid !in n.session.received
    ensures !IsForwarded(n.session, e.id)
  {
    NewMessage(n.past, e, n.session, n.last);
  }

  lemma ServeLink(c: State, n: Net, m: Net, e: Event, accept: bool)
    requires Link(c, n) && PhasesRise(c.h.trace) && |n.past| < |c.h.trace| && e == c.h.trace[|n.past|]
    requires m == Served(n, e, accept)
    ensures Link(c, m)
  {
    ServedAgrees(c.h, n, e, accept);
    if OfQos2(e) {
      ServeJoins(c.h, n, e, accept);
      JoinsLink(c, n, m, e, AnswerTo(n.session, e, accept, |n.past|));
    } else {
      ChatterLink(c, n, m);
    }
  }

  lemma {:induction false} AgreesLonger(t: seq<Event>, i: nat, j: nat, b: Session, last: map<nat, nat>)
    requires i <= j <= |t| && Agrees(t[..i], b, last)
    ensures Agrees(t[..j], b, last)
  {
    if i < j {
      AgreesLonger(t, i, j - 1, b, last);
      Lengthen(t[..j - 1], t[j - 1], b, last);
      assert t[..j] == t[..j - 1] + [t[j - 1]];
    }
  }

  lemma BreakKeeps(w: World, buffered: nat)
    requires Healthy(w) && Possible(w, Break(buffered))
    ensures var v := After(w, Break(buffered)); Link(v.c, v.n)
  {
    var c, n := w.c, w.n;
    FewerDown(c, n, 0, buffered);
    var m, t := n.(down := n.down[0..buffered]), c.h.trace;
    assert n.down[0..buffered] == n.down[..buffered];
    assert t[..|n.past|] == n.past && t[..|t|] == t;
    AgreesLonger(t, |n.past|, |t|, n.session, n.last);
    ChatterLink(c, m, m.(past := t));
  }

  /** Steps of the network and of the broker leave the client alone. */
  lemma NetStepKeeps(w: World, s: WorldStep)
    requires Healthy(w) && Possible(w, s) && !s.Act? && !s.Read?
    ensures After(w, s).c == w.c && Link(w.c, After(w, s).n)
  {
    if s.Serve? {
      Unfold(w.c, true);
      ServeLink(w.c, w.n, After(w, s).n, w.c.h.trace[|w.n.past|], s.accept);
    } else if s.Chat? {
      ChatterLink(w.c, w.n, After(w, s).n);
    } else if s.Break? {
      BreakKeeps(w, s.buffered);
    } else {
      FewerDown(w.c, w.n, s.count, |w.n.down|);
      assert w.n.down[s.count..|w.n.down|] == w.n.down[s.count..];
    }
  }

  lemma WorldStepKeeps(w: World, s: WorldStep, v: World)
    requires Healthy(w) && Leads(w, s, v)
    ensures Healthy(v) && v.n.watched == w.n.watched
  {
    if s.Act? {
      StepKeeps(w.c, s.step);
      ActKeeps(w, s.step);
    } else if s.Read? {
      StepKeeps(w.c, ReadReplyStep(w.n.down[0]));
      ReadKeeps(w);
    } else {
      NetStepKeeps(w, s);
    }
  }

  // ----- exactly once

  ghost predicate IsHistory(worlds: seq<World>, steps: seq<WorldStep>) {
    && |worlds| == |steps| + 1 && worlds[0] == Beginning
    && forall i: nat :: i < |steps| ==> Leads(worlds[i], steps[i], worlds[i + 1])
  }

  /** Healthy with all packet ids watched. */
  ghost predicate Whole(w: World) { Healthy(w) && w.n.watched == Everything }

  lemma BeginningHolds(w: World)
    requires w == Beginning
    ensures Whole(w)
  {
    InitialHolds();
    assert w.c.h.trace == [];
  }

  lemma HistoryKeeps(worlds: seq<World>, steps: seq<WorldStep>, i: nat)
    requires IsHistory(worlds, steps) && i <= |steps|
    ensures Whole(worlds[i])
  {
    BeginningHolds(worlds[0]);
    forall w, s, v | Whole(w) && Leads(w, s, v) ensures Whole(v) {
      WorldStepKeeps(w, s, v);
    }
    Seqs.Throughout(w => Whole(w), (w, s, v) => Leads(w, s, v), worlds, steps, i);
  }

  /** QoS 2 exactly once: at every point of every run, no message has been
      forwarded twice; one whose PUBREC the client accepted has been forwarded,
      and so has one whose operation ended in success. */
  lemma ForwardedExactlyOnce(worlds: seq<World>, steps: seq<WorldStep>, i: nat)
    requires IsHistory(worlds, steps) && i <= |steps|
    ensures NoRepeats(worlds[i].n.session.forwarded)
    ensures forall id :: Accepted(id) in worlds[i].c.h.trace ==> IsForwarded(worlds[i].n.session, id)
    ensures forall id :: Finished(id, Completed, Qos2) in worlds[i].c.h.trace
              ==> IsForwarded(worlds[i].n.session, id)
  {
    HistoryKeeps(worlds, steps, i);
    HealthyForwards(worlds[i]);
  }

  lemma HealthyForwards(w: World)
    requires Whole(w)
    ensures NoRepeats(w.n.session.forwarded)
    ensures forall id :: Accepted(id) in w.c.h.trace ==> IsForwarded(w.n.session, id)
    ensures forall id :: Finished(id, Completed, Qos2) in w.c.h.trace ==> IsForwarded(w.n.session, id)
  {
    Unfold(w.c, true);
    SucceedsForwarded(w.c.h, w.n);
  }

  lemma SucceedsForwarded(h: History, n: Net)
    requires AllForwarded(h, n) && SuccessIsEarned(h.trace) && n.watched == Everything
    ensures forall id :: Finished(id, Completed, Qos2) in h.trace ==> IsForwarded(n.session, id)
  {
    forall id | Finished(id, Completed, Qos2) in h.trace ensures IsForwarded(n.session, id) {
      var k :| 0 <= k < |h.trace| && h.trace[k] == Finished(id, Completed, Qos2);
      assert Succeeds(h.trace[k]);
      assert Accepted(id) in h.trace[..k];
    }
  }

  // ----- a condition on the client's own events

  predicate RefusedAt(t: seq<Event>, i: nat) {
    i < |t| && t[i].Finished? && t[i].kind.Qos2? && t[i].ending.Refused? && Accepted(t[i].id) !in t[..i]
  }

  /** Every operation that ended because its PUBLISH was refused had sent it once. */
  ghost predicate RefusedOnce(t: seq<Event>) {
    forall i: nat :: RefusedAt(t, i) ==> SentOnce(t[..i], t[i].id)
  }

  /** What acting on a refusal leaves in the run. */
  lemma RefusalShows(c: State, item: Item, r: Reply)
    requires item.stage.OnPubrec? && Fits(item) && r.verdict.Failure?
    ensures var t := OnAnswer(c, item, r).h.trace;
      c.h.trace + [Answered(item.op.id, r.readAt, r.code, r.verdict), Finished(item.op.id, Refused, item.op.kind)] <= t
  {
    var c1 := Log(c, Answered(item.op.id, r.readAt, r.code, r.verdict));
    var c2 := Retire(c1, item.op, Refused);
    assert c2.h.trace
        == c.h.trace + [Answered(item.op.id, r.readAt, r.code, r.verdict), Finished(item.op.id, Refused, item.op.kind)];
    PumpExtends(c2.(quota := if c2.quota == MAX_LIMIT then 0 else c2.quota + 1));
  }

  lemma SentOnceBefore(t: seq<Event>, e: Event, id: nat, u: seq<Event>)
    requires e.Answered? && t + [e, Finished(id, Refused, Qos2)] <= u
    requires RefusedOnce(u) && Accepted(id) !in t
    ensures SentOnce(t, id)
  {
    var i := |t| + 1;
    assert u[..i] == t + [e] && u[i] == Finished(id, Refused, Qos2);
    assert RefusedAt(u, i);
    forall j: nat, k: nat | CopyAt(t, id, j) && CopyAt(t, id, k) ensures j == k {
      assert CopyAt(u[..i], id, j) && CopyAt(u[..i], id, k);
    }
  }

  /** So a refusal of the only copy is acted on with the id drained. */
  lemma OnlyCopyDrains(c: State, c1: State, n: Net, item: Item, r: Reply, d: State)
    requires Placed(c, multiset{}) && Link(c, n) && Tracked(c.h.ops, item) && Facts(c.h.trace, item)
    requires item.stage.OnPubrec? && Answerable(n, item, r) && r.pid == item.op.pid && r.code.Pubrec?
    requires c1.h == c.h && d == OnAnswer(c1, item, r) && RefusedOnce(d.h.trace)
    ensures RefusalIsLast(c.h, n, item, r)
  {
    if r.verdict.Failure? && item.op.pid in n.watched {
      RefusalShows(c1, item, r);
      SentOnceBefore(c.h.trace, Answered(item.op.id, r.readAt, r.code, r.verdict), item.op.id, d.h.trace);
      RefusalDrains(c.h, c.inUse, n, item, r);
    }
  }

  lemma PostedCare(w: World)
    requires Healthy(w) && Feasible(w, Act(PostedStep)) && RefusedOnce(After(w, Act(PostedStep)).c.h.trace)
    ensures Possible(w, Act(PostedStep))
  {
    var c := w.c;
    var p := c.posted[0];
    PostedKnown(c);
    assert p in c.posted;
    if p.outcome.Got? && p.item.stage.OnPubrec? {
      OnlyCopyDrains(c, c.(posted := c.posted[1..]), w.n, p.item, p.outcome.reply, RunPosted(c));
    }
  }

  lemma ReadCare(w: World)
    requires Healthy(w) && Feasible(w, Read) && RefusedOnce(After(w, Read).c.h.trace)
    ensures Possible(w, Read)
  {
    var c, n, m := w.c, w.n, w.n.(down := w.n.down[1..]);
    var r := n.down[0].(readAt := |c.h.trace|);
    var i := FindWaiter(c.table, r.code, r.pid);
    if i < |c.table| && c.table[i].item.stage.OnPubrec? {
      WaiterKnown(c, i);
      Remaining(c, n, m);
      ReadWaiterCare(c, n, m, r, i);
    }
  }

  lemma ReadWaiterCare(c: State, n: Net, m: Net, r: Reply, i: nat)
    requires Invariant(c) && Link(c, n) && n.down != [] && m == n.(down := n.down[1..]) && Link(c, m)
    requires r == n.down[0].(readAt := |c.h.trace|) && i < |c.table| && c.table[i].item.stage.OnPubrec?
    requires c.table[i].code == r.code && c.table[i].pid == r.pid
    requires RefusedOnce(OnAnswer(c.(table := Without(c.table, i)), c.table[i].item, r).h.trace)
    ensures RefusalIsLast(c.h, m, c.table[i].item, r)
  {
    var item := c.table[i].item;
    WaiterKnown(c, i);
    HeadIsAnswer(c, n, m, item, r);
    var c1 := c.(table := Without(c.table, i));
    OnlyCopyDrains(c, c1, m, item, r, OnAnswer(c1, item, r));
  }

  lemma CareFollows(w: World, s: WorldStep)
    requires Healthy(w) && Feasible(w, s) && RefusedOnce(After(w, s).c.h.trace)
    ensures Possible(w, s)
  {
    if s.Read? {
      ReadCare(w);
    } else if s == Act(PostedStep) {
      PostedCare(w);
    }
  }

  /** A step of whatever kind; the client acted on no refusal of a PUBLISH that it
      had sent more than once. */
  ghost predicate LeadsFreely(w: World, s: WorldStep, v: World) {
    Feasible(w, s) && v == After(w, s) && RefusedOnce(v.c.h.trace)
  }

  ghost predicate IsFreeHistory(worlds: seq<World>, steps: seq<WorldStep>) {
    && |worlds| == |steps| + 1 && worlds[0] == Beginning
    && forall i: nat :: i < |steps| ==> LeadsFreely(worlds[i], steps[i], worlds[i + 1])
  }

  lemma FreeHistoryKeeps(worlds: seq<World>, steps: seq<WorldStep>, i: nat)
    requires IsFreeHistory(worlds, steps) && i <= |steps|
    ensures Whole(worlds[i])
  {
    BeginningHolds(worlds[0]);
    forall w, s, v | Whole(w) && LeadsFreely(w, s, v) ensures Whole(v) {
      CareFollows(w, s);
      WorldStepKeeps(w, s, v);
    }
    Seqs.Throughout(w => Whole(w), (w, s, v) => LeadsFreely(w, s, v), worlds, steps, i);
  }

  /** QoS 2 exactly once in every run, of whatever steps, in which the client acted
      on no refusal of a PUBLISH that it had sent more than once. */
  lemma ForwardedIfRefusedOnce(worlds: seq<World>, steps: seq<WorldStep>, i: nat)
    requires IsFreeHistory(worlds, steps) && i <= |steps|
    ensures NoRepeats(worlds[i].n.session.forwarded)
    ensures forall id :: Accepted(id) in worlds[i].c.h.trace ==> IsForwarded(worlds[i].n.session, id)
    ensures forall id :: Finished(id, Completed, Qos2) in worlds[i].c.h.trace
              ==> IsForwarded(worlds[i].n.session, id)
  {
    FreeHistoryKeeps(worlds, steps, i);
    HealthyForwards(worlds[i]);
  }
}
