/**
 Every handler and every step of the client keeps the whole invariant, so its
 consequences hold in every reachable state.
 */
module Engine {
  import opened Requests
  import opened Client
  import opened Places
  import opened Runs
  import opened Soundness
  import opened Traffic
  import opened FlowControl
  import opened Flight
  import opened Ledger

  /** `ordered` is false while `resend()` is refilling the queue. */
  ghost predicate AllSound(c: State, ordered: bool) {
    && Chronicle(c) && Flow(c) && Serials(c.h, c.lastSerial) && InPhase(c.h) && Booked(c) && Flying(c)
    && (ordered ==> Ordering(c))
  }

  /** A mark that brings the facts behind `Sound` into view. Lemmas that only pass
      `Sound` on do not mention it, so the verifier leaves them folded. */
  predicate Look(k: nat) { true }

  ghost predicate Sound(c: State, ordered: bool) {
    forall k: nat {:trigger Look(k)} :: Look(k) ==> AllSound(c, ordered)
  }

  lemma Unfold(c: State, ordered: bool)
    requires Sound(c, ordered)
    ensures AllSound(c, ordered)
  {
    assert Look(0);
  }

  lemma Fold(c: State, ordered: bool)
    requires AllSound(c, ordered)
    ensures Sound(c, ordered)
  {
  }

  /** The operation is metered and in flight, or not metered, unless the run is
      disturbed; the running code holds it after its write or its reply. */
  ghost predicate Away(c: State, item: Item) {
    (Tidy(c.h.trace) || Unanswered(c.h.trace)) && item.op.kind.Metered() ==> item.op.id in InFlight(c.h.trace)
  }

  /** The operation may end: in an undisturbed span it is in flight if metered. */
  ghost predicate Over(c: State, op: Op) {
    Tidy(c.h.trace) && op.kind.Metered() ==> op.id in InFlight(c.h.trace)
  }

  /** Likewise for an operation that a resend is putting back in the queue. */
  ghost predicate Back(c: State, item: Item) {
    Tidy(c.h.trace) ==> item.op.id !in InFlight(c.h.trace) && item.op.id !in c.cancelled
  }

  // ----- moves

  lemma PumpKeepsCalls(c: State)
    ensures var d := Pump(c);
      && d.h.ops == c.h.ops && d.h.published == c.h.published && d.lastSerial == c.lastSerial
      && d.h.next == c.h.next && d.cancelled == c.cancelled
  {
  }

  lemma SendKeepsCalls(c: State, r: Request)
    ensures var d := Send(c, r);
      && d.h.ops == c.h.ops && d.h.published == c.h.published && d.lastSerial == c.lastSerial
      && d.h.next == c.h.next && d.cancelled == c.cancelled
  {
    PumpKeepsCalls(c.(queue := c.queue + [r]));
  }

  /** A throttled packet may join an ordered queue behind everything else. */
  ghost predicate InTurn(c: State, r: Request) {
    BackInTurn(c.h.trace) && Near(c.h.trace) && r.throttled && r.item.op.id !in Returns(c.h.trace) ==>
      AllBefore(Transmissions(c.h.trace), RequestRank(r)) && Ahead(SetOf(Ranks(c.queue)), [RequestRank(r)])
  }

  lemma SendStep(c: State, d: State, held: multiset<nat>, r: Request, ordered: bool)
    requires Placed(c, held + multiset{r.item.op.id}) && Sound(c, ordered) && RequestOk(c.h.ops, r)
    requires Facts(c.h.trace, r.item) && d == Send(c, r)
    requires Tidy(c.h.trace) && r.item.op.kind.Metered() ==>
               (r.throttled <==> r.item.op.id !in InFlight(c.h.trace))
    requires Unanswered(c.h.trace) && r.item.op.kind.Metered() && !r.throttled ==> r.item.op.id in InFlight(c.h.trace)
    requires ordered ==> InTurn(c, r)
    ensures Sound(d, ordered)
  {
    Unfold(c, ordered);
    SendsSoundly(c, held, r);
    SendsMetered(c, held, r);
    SendKeepsCalls(c, r);
    Enqueue(c, held, r);
    PumpsInPhase(c.(queue := c.queue + [r]), d, held);
    PumpsBooked(c.(queue := c.queue + [r]), d);
    SendsAloft(c, d, r);
    if ordered { SendsInOrder(c, r); }
  }

  lemma AwaitStep(c: State, d: State, held: multiset<nat>, item: Item, ordered: bool)
    requires Placed(c, held + multiset{item.op.id}) && Sound(c, ordered)
    requires !item.stage.Writes() && Progressed(item.stage) && Facts(c.h.trace, item) && Away(c, item)
    requires d == AwaitReply(c, item)
    ensures Sound(d, ordered)
  {
    Unfold(c, ordered);
    AwaitsSoundly(c, held, item);
    AwaitsMetered(c, item);
    AwaitsAloft(c, d, item);
    assert d.h == c.h && d.queue == c.queue && d.lastSerial == c.lastSerial;
  }

  lemma LogStep(c: State, d: State, held: multiset<nat>, e: Event, ordered: bool)
    requires Placed(c, held) && Sound(c, ordered) && Fitting(c.h.trace, e)
    requires !e.Handed? && !e.Finished? && !e.Epoch? && !e.Started?
    requires HasId(e) ==> e.id < c.h.next
    requires e.Written? || e.Accepted? ==> e.id in held
    requires e.Returned? && Unanswered(c.h.trace) ==> e.id in InFlight(c.h.trace)
    requires d == Log(c, e)
    ensures Sound(d, ordered) && Placed(d, held)
    ensures InFlight(d.h.trace) == InFlight(c.h.trace)
    ensures Tidy(d.h.trace) == (Tidy(c.h.trace) && !e.Disturbed? && !e.Stopped? && !e.Returned?)
    ensures Unanswered(d.h.trace) == Unanswered(c.h.trace)
    ensures Returns(d.h.trace) == ReturnsAfter(Returns(c.h.trace), e)
  {
    Unfold(c, ordered);
    Logs(c, held, e);
    LogsMetered(c, e);
    LogsInPhase(c.h, e, d.h);
    LogsBooked(c, d, e);
    LogsAloft(c, d, e);
    Append(c.h.trace, e);
    ReturnsAppend(c.h.trace, e);
    if ordered { LogsInOrder(c, e); }
    Frame(c, d, held);
  }

  lemma SerialsShrink(h: History, lastSerial: nat, id: nat, t: seq<Event>, owner: map<nat, nat>)
    requires Serials(h, lastSerial)
    ensures Serials(h.(ops := h.ops - {id}, owner := owner, trace := t), lastSerial)
  {
  }

  lemma RetireInOrder(c: State, op: Op, ending: Ending)
    requires Ordering(c) && Nowhere(c, op.id)
    ensures Ordering(Retire(c, op, ending))
  {
    Append(c.h.trace, Finished(op.id, ending, op.kind));
    ReturnsAppend(c.h.trace, Finished(op.id, ending, op.kind));
    RanksMembers(c.queue);
    assert forall x :: x in Ranks(c.queue) ==> x.id != op.id;
    assert forall i :: 0 <= i < |Ranks(c.queue)| ==> Ranks(c.queue)[i] in Ranks(c.queue);
  }

  lemma RetireStep(c: State, d: State, held: multiset<nat>, op: Op, ending: Ending, ordered: bool)
    requires Placed(c, held + multiset{op.id}) && op.id in c.h.ops && c.h.ops[op.id] == op
    requires Sound(c, ordered) && !op.kind.Metered() && d == Retire(c, op, ending)
    ensures Sound(d, ordered)
  {
    HeldIsNowhere(c, held + multiset{op.id}, op.id);
    SettleSound(c, d, op, ending, ordered);
  }

  /** The state in which `complete` lets the sender look at its queue again. */
  function Settled(c: State, op: Op, ending: Ending): State {
    var c1 := Retire(c, op, ending);
    if op.kind.Metered() && c.limit != MAX_LIMIT
    then c1.(quota := if c1.quota == MAX_LIMIT then 0 else c1.quota + 1) else c1
  }

  lemma CompleteIsSettledPump(c: State, op: Op, ending: Ending)
    ensures Complete(c, op, ending)
         == if op.kind.Metered() && c.limit != MAX_LIMIT then Pump(Settled(c, op, ending))
            else Settled(c, op, ending)
  {
  }

  lemma SettleSound(c: State, d: State, op: Op, ending: Ending, ordered: bool)
    requires Nowhere(c, op.id) && op.id in c.h.ops && c.h.ops[op.id] == op && op.id < c.h.next
    requires Sound(c, ordered) && Over(c, op) && Earned(c.h.trace, op, ending)
    requires d == Settled(c, op, ending)
    ensures Sound(d, ordered)
  {
    Unfold(c, ordered);
    RetiresSoundly(c, op, ending);
    SameChronicle(Retire(c, op, ending), d);
    Settles(c, op, ending);
    SerialsShrink(c.h, c.lastSerial, op.id, d.h.trace, d.h.owner);
    RetiresInPhase(c.h, d.h, Finished(op.id, ending, op.kind));
    SettlesBooked(c, d, op, ending);
    RetiresAloft(c, d, op, ending);
    if ordered { RetireInOrder(c, op, ending); }
    Fold(d, ordered);
  }

  lemma SettleStep(c: State, d: State, held: multiset<nat>, op: Op, ending: Ending, ordered: bool)
    requires Placed(c, held + multiset{op.id}) && op.id in c.h.ops && c.h.ops[op.id] == op
    requires Sound(c, ordered) && Over(c, op) && Earned(c.h.trace, op, ending)
    requires d == Settled(c, op, ending)
    ensures Sound(d, ordered) && Placed(d, held)
  {
    HeldIsNowhere(c, held + multiset{op.id}, op.id);
    SettleSound(c, d, op, ending, ordered);
    Retires(c, held, op, ending);
    Frame(Retire(c, op, ending), d, held);
  }

  lemma CompleteStep(c: State, d: State, held: multiset<nat>, op: Op, ending: Ending, ordered: bool)
    requires Placed(c, held + multiset{op.id}) && op.id in c.h.ops && c.h.ops[op.id] == op
    requires Sound(c, ordered) && Over(c, op) && Earned(c.h.trace, op, ending)
    requires d == Complete(c, op, ending)
    ensures Sound(d, ordered)
  {
    var c1 := Settled(c, op, ending);
    SettleStep(c, c1, held, op, ending, ordered);
    CompleteIsSettledPump(c, op, ending);
    if op.kind.Metered() && c.limit != MAX_LIMIT {
      PumpStep(c1, d, held, ordered);
    }
  }

  lemma PumpStep(c: State, d: State, held: multiset<nat>, ordered: bool)
    requires Placed(c, held) && Sound(c, ordered) && d == Pump(c)
    ensures Sound(d, ordered)
  {
    Unfold(c, ordered);
    PumpsSoundly(c, held);
    PumpsMetered(c, held);
    PumpsInPhase(c, d, held);
    PumpsBooked(c, d);
    PumpsAloft(c, d);
    PumpKeepsCalls(c);
    if ordered { PumpsInOrder(c); }
  }

  lemma DeliverStep(c: State, d: State, held: multiset<nat>, op: Op, ordered: bool)
    requires Placed(c, held + multiset{op.id}) && op.id in c.h.ops && c.h.ops[op.id] == op
    requires Sound(c, ordered) && op.kind.Receive? && d == Deliver(c, op)
    ensures Sound(d, ordered)
  {
    var c1 := Retire(c, op, Completed);
    RetireStep(c, c1, held, op, Completed, ordered);
    Unfold(c1, ordered);
    SameChronicle(c1, d);
  }

  /** The number of the latest publish call, greater than that of every live one. */
  ghost predicate Newest(h: History, seqno: nat) {
    && seqno == h.published >= 1
    && forall id :: id in h.ops && h.ops[id].kind.Publishes() ==> h.ops[id].seqno < seqno
  }

  /** A new operation, in the hands of the code that makes its first request. */
  lemma AdmitStep(c: State, d: State, held: multiset<nat>, kind: Kind, pid: nat, seqno: nat,
                  stage: Stage, ordered: bool)
    requires Placed(c, held) && Sound(c, ordered) && !Progressed(stage)
    requires kind.Bearing() ==> 1 <= pid <= MAX_PACKET_ID && pid !in c.inUse
    requires kind.Publishes() ==> Newest(c.h, seqno)
    requires d == Admit(c, kind, pid, seqno)
    ensures Placed(d, held + multiset{c.h.next}) && Sound(d, ordered)
    ensures c.h.next in d.h.ops && d.h.ops[c.h.next] == Op(c.h.next, kind, pid, seqno)
    ensures Facts(d.h.trace, Item(d.h.ops[c.h.next], stage, false))
    ensures InFlight(d.h.trace) == InFlight(c.h.trace) && c.h.next !in InFlight(c.h.trace)
    ensures Tidy(d.h.trace) == Tidy(c.h.trace) && Transmissions(d.h.trace) == Transmissions(c.h.trace)
    ensures Returns(d.h.trace) == Returns(c.h.trace) && Unanswered(d.h.trace) == Unanswered(c.h.trace)
  {
    Unfold(c, ordered);
    Admits(c, held, kind, pid, seqno);
    AdmitsSoundly(c, held, kind, pid, seqno, stage);
    Append(c.h.trace, Started(c.h.next));
    LentAppend(c.h.trace, Started(c.h.next));
    ReturnsAppend(c.h.trace, Started(c.h.next));
    assert d.h.trace == c.h.trace + [Started(c.h.next)];
    AdmitFlow(c, d);
    AdmitsInPhase(c.h, d.h, Started(c.h.next), pid);
    LogsBooked(c, d, Started(c.h.next));
    LogsAloft(c, d, Started(c.h.next));
    AdmitSerials(c, d, Op(c.h.next, kind, pid, seqno));
  }

  lemma AdmitFlow(c: State, d: State)
    requires Flow(c) && d.queue == c.queue && d.batch == c.batch && d.done == c.done
    requires d.table == c.table && d.posted == c.posted && d.limit == c.limit && d.quota == c.quota
    requires InFlight(d.h.trace) == InFlight(c.h.trace) && Tidy(d.h.trace) == Tidy(c.h.trace)
    requires Drift(d.h.trace) == Drift(c.h.trace)
    requires forall id :: id in c.h.ops && id != c.h.next ==> id in d.h.ops && d.h.ops[id] == c.h.ops[id]
    requires c.h.next !in c.h.ops
    ensures Flow(d)
  {
  }

  lemma AdmitSerials(c: State, d: State, op: Op)
    requires Serials(c.h, c.lastSerial) && d.lastSerial == c.lastSerial && d.h.published == c.h.published
    requires op.id == c.h.next && forall id :: id in c.h.ops ==> id < c.h.next
    requires d.h.ops == c.h.ops[op.id := op]
    requires op.kind.Publishes() ==> Newest(c.h, op.seqno)
    ensures Serials(d.h, d.lastSerial)
  {
  }

  /** Everything handed over or queued so far is about earlier calls. */
  lemma EarlierRanks(c: State)
    requires Known(c.h.trace, c.h) && Shaped(c) && IdsOk(c.h, c.inUse)
    ensures forall x :: x in Transmissions(c.h.trace) ==> x.id < c.h.next
    ensures forall x :: x in Ranks(c.queue) ==> x.id < c.h.next
  {
    EarlierTransmissions(c.h.trace, c.h.next);
    RanksMembers(c.queue);
    forall x | x in Ranks(c.queue) ensures x.id < c.h.next {
      var r :| r in c.queue && r.throttled && RequestRank(r) == x;
      assert RequestOk(c.h.ops, r);
    }
  }

  lemma {:induction false} EarlierTransmissions(t: seq<Event>, next: nat)
    requires forall e :: e in t && HasId(e) ==> e.id < next
    ensures forall x :: x in Transmissions(t) ==> x.id < next
  {
    if t != [] {
      EarlierTransmissions(t[..|t| - 1], next);
      assert t[|t| - 1] in t;
    }
  }

  // ----- the DISCONNECT after a malformed packet

  lemma FactsThroughPump(c: State, item: Item)
    requires Facts(c.h.trace, item)
    ensures Facts(Pump(c).h.trace, item)
    ensures Tidy(Pump(c).h.trace) == Tidy(c.h.trace) && Returns(Pump(c).h.trace) == Returns(c.h.trace)
  {
    var d := Pump(c);
    if d.h.trace != c.h.trace {
      assert d.h.trace == c.h.trace + HandedEvents(d.batch);
      HandFacts(c.h.trace, d.batch, item);
      HandInFlight(c.h.trace, d.batch);
      HandReturns(c.h.trace, d.batch);
    }
  }

  lemma MalformStep(c: State, d: State, held: multiset<nat>, item: Item, ordered: bool)
    requires Placed(c, held + multiset{item.op.id}) && Sound(c, ordered) && d == Malform(c, item.op)
    requires Facts(c.h.trace, item) && Away(c, item) && item.op.id < c.h.next
    ensures Sound(d, ordered) && !Tidy(d.h.trace) && Facts(d.h.trace, item)
    ensures item.op.kind.Metered() ==> item.op.id in Returns(d.h.trace)
  {
    var all, c0 := held + multiset{item.op.id}, Log(c, Complaint(item.op));
    ComplainStep(c, c0, held, item, ordered);
    var c1 := Admit(c0, Disconnect(false), 0, 0);
    AdmitStep(c0, c1, all, Disconnect(false), 0, 0, OnDisconnect, ordered);
    GrowFacts(c0.h.trace, Started(c0.h.next), item);
    assert c1.h.trace == c0.h.trace + [Started(c0.h.next)];
    var r := PlainRequest(DisconnectItem(c));
    SendStep(c1, d, all, r, ordered);
    FactsThroughPump(c1.(queue := c1.queue + [r]), item);
  }

  lemma ComplainStep(c: State, d: State, held: multiset<nat>, item: Item, ordered: bool)
    requires Placed(c, held + multiset{item.op.id}) && Sound(c, ordered) && d == Log(c, Complaint(item.op))
    requires Facts(c.h.trace, item) && Away(c, item) && item.op.id < c.h.next
    ensures Placed(d, held + multiset{item.op.id}) && Sound(d, ordered)
    ensures !Tidy(d.h.trace) && Facts(d.h.trace, item)
    ensures item.op.kind.Metered() ==> item.op.id in Returns(d.h.trace)
  {
    LogStep(c, d, held + multiset{item.op.id}, Complaint(item.op), ordered);
    GrowFacts(c.h.trace, Complaint(item.op), item);
  }

  // ----- handlers

  lemma ReceivedStep(c: State, d: State, held: multiset<nat>, item: Item, ordered: bool)
    requires Placed(c, held + multiset{item.op.id}) && Tracked(c.h.ops, item) && Sound(c, ordered)
    requires Facts(c.h.trace, item) && WasSent(c.h.trace, item.op.id)
    requires item.op.kind.Receive? && item.stage.Writes() && d == OnWritten(c, item)
    ensures Sound(d, ordered)
  {
    if item.stage.OnRecPubrec? {
      AwaitStep(c, d, held, item.(stage := OnRecPubrel), ordered);
    } else {
      DeliverStep(c, d, held, item.op, ordered);
    }
  }

  lemma WrittenFacts(t: seq<Event>, item: Item, stage: Stage)
    requires Facts(t, item) && item.stage.OnPublish? && WasSent(t, item.op.id)
    requires stage.OnPuback? || stage.OnPubrec?
    ensures Facts(t + [Written(item.op.id)], item.(stage := stage))
  {
    GrowSent(t, Written(item.op.id), item.op.id);
  }

  lemma AcceptedFacts(t: seq<Event>, item: Item)
    requires Facts(t, item) && item.stage.OnPubrec?
    ensures Facts(t + [Accepted(item.op.id)], item.(stage := OnPubrel))
  {
    GrowSent(t, Accepted(item.op.id), item.op.id);
  }

  lemma WrittenLogged(c: State, d: State, held: multiset<nat>, item: Item, next: Item, ordered: bool)
    requires Placed(c, held + multiset{item.op.id}) && Tracked(c.h.ops, item) && Sound(c, ordered)
    requires Facts(c.h.trace, item) && WasSent(c.h.trace, item.op.id) && Away(c, item)
    requires item.stage.OnPublish? && d == Log(c, Written(item.op.id))
    requires next == item.(stage := next.stage) && (next.stage.OnPuback? || next.stage.OnPubrec?)
    ensures Placed(d, held + multiset{item.op.id}) && Sound(d, ordered)
    ensures Facts(d.h.trace, next) && Away(d, next)
  {
    LogStep(c, d, held + multiset{item.op.id}, Written(item.op.id), ordered);
    WrittenFacts(c.h.trace, item, next.stage);
  }

  lemma PublishedStep(c: State, c1: State, d: State, held: multiset<nat>, item: Item, next: Item, ordered: bool)
    requires Placed(c, held + multiset{item.op.id}) && Tracked(c.h.ops, item) && Sound(c, ordered)
    requires Facts(c.h.trace, item) && WasSent(c.h.trace, item.op.id) && Away(c, item)
    requires item.stage.OnPublish?
    requires next == item.(stage := next.stage) && (next.stage.OnPuback? || next.stage.OnPubrec?)
    requires c1 == Log(c, Written(item.op.id)) && d == AwaitReply(c1, next)
    ensures Sound(d, ordered)
  {
    WrittenLogged(c, c1, held, item, next, ordered);
    AwaitStep(c1, d, held, next, ordered);
  }

  lemma WrittenStep(c: State, d: State, held: multiset<nat>, item: Item, ordered: bool)
    requires Placed(c, held + multiset{item.op.id}) && Tracked(c.h.ops, item) && Sound(c, ordered)
    requires Facts(c.h.trace, item) && WasSent(c.h.trace, item.op.id) && Away(c, item)
    requires item.stage.Writes() && d == OnWritten(c, item)
    ensures Sound(d, ordered)
  {
    if item.op.kind.Receive? {
      ReceivedStep(c, d, held, item, ordered);
    } else if item.stage.OnPublish? && !item.op.kind.Qos0? {
      PublishedStep(c, Log(c, Written(item.op.id)), d, held, item,
                    item.(stage := if item.op.kind.Qos1? then OnPuback else OnPubrec), ordered);
    } else if item.stage.OnPubrel? {
      AwaitStep(c, d, held, item.(stage := OnPubcomp), ordered);
    } else if item.stage.OnSubscribe? {
      AwaitStep(c, d, held, item.(stage := OnSuback), ordered);
    } else {
      CompleteStep(c, d, held, item.op, Completed, ordered);
    }
  }

  /** The operation may be put back in the queue by `resend_publish` and the like. */
  ghost predicate MayReturn(c: State, item: Item, ordered: bool) {
    && Back(c, item)
    && (ordered && item.op.kind.Metered() ==> item.op.id in Returns(c.h.trace))
  }

  lemma PublishAgainStep(c: State, d: State, held: multiset<nat>, item: Item, ordered: bool)
    requires Placed(c, held + multiset{item.op.id}) && Tracked(c.h.ops, item) && Sound(c, ordered)
    requires item.op.kind.Publishes() && Facts(c.h.trace, item.(stage := OnPublish))
    requires MayReturn(c, item, ordered) && d == ResendPublish(c, item)
    ensures Sound(d, ordered)
  {
    if item.op.id in c.cancelled {
      CompleteStep(c, d, held, item.op, Failed, ordered);
    } else {
      SendStep(c, d, held, PublishRequest(item.(stage := OnPublish)), ordered);
    }
  }

  lemma SubscribeAgainStep(c: State, d: State, held: multiset<nat>, item: Item, ordered: bool)
    requires Placed(c, held + multiset{item.op.id}) && Tracked(c.h.ops, item) && Sound(c, ordered)
    requires item.op.kind.Subscribe? && Facts(c.h.trace, item) && d == ResendSubscribe(c, item)
    ensures Sound(d, ordered)
  {
    if item.op.id in c.cancelled {
      CompleteStep(c, d, held, item.op, Failed, ordered);
    } else {
      SendStep(c, d, held, PlainRequest(item.(stage := OnSubscribe)), ordered);
    }
  }

  lemma PubrelAgainStep(c: State, d: State, held: multiset<nat>, item: Item, ordered: bool)
    requires Placed(c, held + multiset{item.op.id}) && Tracked(c.h.ops, item) && Sound(c, ordered)
    requires item.stage.OnPubrel? && Facts(c.h.trace, item)
    requires MayReturn(c, item, ordered) && d == Send(c, PubrelRequest(item, true))
    ensures Sound(d, ordered)
  {
    SendStep(c, d, held, PubrelRequest(item, true), ordered);
  }

  lemma TryAgainStep(c: State, d: State, held: multiset<nat>, item: Item)
    requires Placed(c, held + multiset{item.op.id}) && Tracked(c.h.ops, item) && Sound(c, false)
    requires Facts(c.h.trace, item) && Back(c, item)
    requires item.stage.Writes() && d == OnTryAgain(c, item)
    ensures Sound(d, false)
  {
    match item.stage
    case OnPublish => PublishAgainStep(c, d, held, item, false);
    case OnPubrel => PubrelAgainStep(c, d, held, item, false);
    case OnSubscribe => SubscribeAgainStep(c, d, held, item, false);
    case OnDisconnect =>
      if item.op.kind.retry {
        SendStep(c, d, held, PlainRequest(item), false);
      } else {
        CompleteStep(c, d, held, item.op, Completed, false);
      }
    case OnOneShot => CompleteStep(c, d, held, item.op, Failed, false);
    case OnRecPuback => CompleteStep(c, d, held, item.op, Failed, false);
    case OnRecPubrec => CompleteStep(c, d, held, item.op, Failed, false);
    case OnRecPubcomp => AwaitStep(c, d, held, item.(stage := OnRecPubrel), false);
  }

  /** `OnResend`, and what follows a malformed reply once the DISCONNECT is queued. */
  lemma StartOverStep(c: State, d: State, held: multiset<nat>, item: Item, ordered: bool)
    requires Placed(c, held + multiset{item.op.id}) && Tracked(c.h.ops, item) && Sound(c, ordered)
    requires Facts(c.h.trace, item) && MayReturn(c, item, ordered)
    requires !item.stage.Writes() && d == OnResend(c, item)
    ensures Sound(d, ordered)
  {
    match item.stage
    case OnPuback => PublishAgainStep(c, d, held, item.(dup := true), ordered);
    case OnPubrec => PublishAgainStep(c, d, held, item.(dup := true), ordered);
    case OnPubcomp => PubrelAgainStep(c, d, held, item.(stage := OnPubrel), ordered);
    case OnSuback => SubscribeAgainStep(c, d, held, item, ordered);
    case OnRecPubrel => AwaitStep(c, d, held, item, ordered);
  }

  lemma AcceptStep(c: State, d: State, held: multiset<nat>, item: Item, ordered: bool)
    requires Placed(c, held + multiset{item.op.id}) && Tracked(c.h.ops, item) && Sound(c, ordered)
    requires item.stage.OnPubrec? && Facts(c.h.trace, item) && Away(c, item)
    requires d == Send(Log(c, Accepted(item.op.id)), PubrelRequest(item.(stage := OnPubrel), false))
    ensures Sound(d, ordered)
  {
    var e := Accepted(item.op.id);
    var c1 := Log(c, e);
    LogStep(c, c1, held + multiset{item.op.id}, e, ordered);
    AcceptedFacts(c.h.trace, item);
    SendStep(c1, d, held, PubrelRequest(item.(stage := OnPubrel), false), ordered);
  }

  lemma MalformedStep(c: State, d: State, held: multiset<nat>, item: Item, ordered: bool)
    requires Placed(c, held + multiset{item.op.id}) && Tracked(c.h.ops, item) && Sound(c, ordered)
    requires Facts(c.h.trace, item) && !item.stage.Writes() && d == OnResend(Malform(c, item.op), item)
    requires Away(c, item)
    ensures Sound(d, ordered)
  {
    var c1 := Malform(c, item.op);
    Malforms(c, held + multiset{item.op.id}, item.op);
    MalformStep(c, c1, held, item, ordered);
    StartOverStep(c1, d, held, item, ordered);
  }

  /** What a well-formed reply brings about. */
  function Acknowledge(c: State, item: Item, v: Verdict): State
    requires !item.stage.Writes() && !v.Malformed?
  {
    if item.stage.OnPubrec? && v.Success? then
      Send(Log(c, Accepted(item.op.id)), PubrelRequest(item.(stage := OnPubrel), false))
    else if item.stage.OnRecPubrel? then Send(c, PlainRequest(item.(stage := OnRecPubcomp)))
    else Complete(c, item.op, EndingOf(v))
  }

  lemma AnswerCases(c: State, item: Item, reply: Reply)
    requires !item.stage.Writes() && Fits(item)
    ensures var c1 := Log(c, Answered(item.op.id, reply.readAt, reply.code, reply.verdict));
      OnAnswer(c, item, reply)
      == if reply.verdict.Malformed? then OnResend(Malform(c1, item.op), item)
         else Acknowledge(c1, item, reply.verdict)
  {
  }

  lemma AcknowledgeStep(c: State, d: State, held: multiset<nat>, item: Item, v: Verdict, ordered: bool)
    requires Placed(c, held + multiset{item.op.id}) && Tracked(c.h.ops, item) && Sound(c, ordered)
    requires Facts(c.h.trace, item) && Away(c, item)
    requires !item.stage.Writes() && !v.Malformed? && d == Acknowledge(c, item, v)
    ensures Sound(d, ordered)
  {
    if item.stage.OnPubrec? && v.Success? {
      AcceptStep(c, d, held, item, ordered);
    } else if item.stage.OnRecPubrel? {
      SendStep(c, d, held, PlainRequest(item.(stage := OnRecPubcomp)), ordered);
    } else {
      CompleteStep(c, d, held, item.op, EndingOf(v), ordered);
    }
  }

  lemma AnswerStep(c: State, d: State, held: multiset<nat>, item: Item, reply: Reply, ordered: bool)
    requires Placed(c, held + multiset{item.op.id}) && Tracked(c.h.ops, item) && Sound(c, ordered)
    requires Facts(c.h.trace, item) && Away(c, item) && SentBefore(c.h.trace, item.op.id, reply.readAt)
    requires !item.stage.Writes() && d == OnAnswer(c, item, reply)
    ensures Sound(d, ordered)
  {
    var e := Answered(item.op.id, reply.readAt, reply.code, reply.verdict);
    var c1 := Log(c, e);
    LogStep(c, c1, held + multiset{item.op.id}, e, ordered);
    GrowFacts(c.h.trace, e, item);
    AnswerCases(c, item, reply);
    if reply.verdict.Malformed? {
      MalformedStep(c1, d, held, item, ordered);
    } else {
      AcknowledgeStep(c1, d, held, item, reply.verdict, ordered);
    }
  }
}
