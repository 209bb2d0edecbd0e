/**
 Receiving at QoS 2. A broker that follows section 4.3.3 of MQTT 5.0 as a sender
 never goes back on a packet id: it repeats the PUBLISH of a message, then the
 PUBREL, and then uses the id for a later message. Whatever is lost on the way,
 each message enters the receive channel at most once, provided that a PUBREL
 finds at most one operation of each message open on its packet id. It does
 whenever the client has processed the completion of a PUBREC write before it
 reads the PUBREL that answers it.
 */
module Receiving {
  import opened Requests
  import opened Client
  import opened SerialOrder
  import opened Places
  import opened Engine
  import opened Steps
  import opened Theorems

  /** What has been read from the broker: on each packet id the latest phase
      (2m for the PUBLISH of message m, 2m + 1 for its PUBREL) and the latest
      PUBREL; the packet id of each message; the operation that was open when the
      first PUBREL that concerns a message was read; and the messages of which
      anything is said. */
  datatype Inbox = Inbox(key: map<nat, nat>, released: map<nat, nat>, home: map<nat, nat>,
                         champion: imap<nat, nat>, watched: iset<nat>)

  predicate Inbound(item: Item) { item.op.kind.Receive? && item.op.kind.qos2 }

  ghost predicate Watched(e: Inbox, item: Item) { Inbound(item) && item.op.kind.msg in e.watched }

  /** A PUBREL of the message, or of a later one on its packet id, has been read. */
  predicate Past(e: Inbox, pid: nat, msg: nat) { pid in e.released && 2 * msg < e.released[pid] }

  /** An operation that may still deliver its message. */
  ghost predicate Entitled(e: Inbox, channel: seq<Delivery>, item: Item) {
    Watched(e, item) ==>
      var m, pid := item.op.kind.msg, item.op.pid;
      && m in e.home && e.home[m] == pid && pid in e.key && 2 * m <= e.key[pid]
      && Delivery(2, m) !in channel
      && (Past(e, pid, m) ==> m in e.champion && e.champion[m] == item.op.id)
      && (item.stage.OnRecPubcomp? ==> Past(e, pid, m))
  }

  /** No early PUBREL can be mistaken for the one still to come. */
  ghost predicate Unmistaken(e: Inbox, fast: seq<Reply>, item: Item) {
    Watched(e, item) && !Committed(e, item) ==>
      forall r :: r in fast && r.code.Pubrel? ==> r.pid != item.op.pid
  }

  /** The PUBREL of the message has been read. */
  ghost predicate Committed(e: Inbox, item: Item) {
    Watched(e, item) ==> Past(e, item.op.pid, item.op.kind.msg)
  }

  ghost predicate QueueEntitled(e: Inbox, channel: seq<Delivery>, s: seq<Request>) {
    forall r :: r in s ==> Entitled(e, channel, r.item)
  }
  ghost predicate TableEntitled(e: Inbox, channel: seq<Delivery>, s: seq<Waiter>) {
    forall w :: w in s ==> Entitled(e, channel, w.item)
  }
  ghost predicate PostedEntitled(e: Inbox, channel: seq<Delivery>, s: seq<Posted>) {
    forall p :: p in s && p.outcome.Got? ==> Entitled(e, channel, p.item) && Committed(e, p.item)
  }
  ghost predicate HandedUnmistaken(e: Inbox, fast: seq<Reply>, s: seq<Request>) {
    forall r :: r in s ==> Unmistaken(e, fast, r.item)
  }
  ghost predicate TableUnmistaken(e: Inbox, fast: seq<Reply>, s: seq<Waiter>) {
    forall w :: w in s ==> Unmistaken(e, fast, w.item)
  }

  /** At most one operation waits for the PUBREL on a packet id. */
  ghost predicate OneWaiter(s: seq<Waiter>) {
    forall i, j :: 0 <= i < j < |s| && s[i].code.Pubrel? && s[j].code.Pubrel? ==> s[i].pid != s[j].pid
  }

  ghost predicate Once(e: Inbox, channel: seq<Delivery>) {
    && (forall i, j :: 0 <= i < j < |channel| && channel[i].qos == 2 && channel[i].msg in e.watched ==>
          channel[i] != channel[j])
    && (forall d :: d in channel && d.qos == 2 && d.msg in e.watched ==>
          d.msg in e.home && Past(e, e.home[d.msg], d.msg))
  }

  /** A PUBREL that was read counts as read. */
  ghost predicate Ordered(e: Inbox) {
    forall p :: p in e.released ==> p in e.key && e.released[p] <= e.key[p]
  }

  ghost predicate Inboxed(c: State, e: Inbox) {
    && Ordered(e) && Once(e, c.channel) && OneWaiter(c.table)
    && QueueEntitled(e, c.channel, c.queue) && QueueEntitled(e, c.channel, c.batch)
    && QueueEntitled(e, c.channel, c.done)
    && TableEntitled(e, c.channel, c.table) && PostedEntitled(e, c.channel, c.posted)
    && HandedUnmistaken(e, c.fast, c.batch) && HandedUnmistaken(e, c.fast, c.done)
    && TableUnmistaken(e, c.fast, c.table)
  }

  // ----- moves

  lemma SameInbox(c: State, d: State, e: Inbox)
    requires Inboxed(c, e) && d.channel == c.channel && d.table == c.table && d.queue == c.queue
    requires d.batch == c.batch && d.done == c.done && d.posted == c.posted && d.fast == c.fast
    ensures Inboxed(d, e)
  {
  }

  lemma PumpInbox(c: State, d: State, e: Inbox)
    requires Inboxed(c, e) && d == Pump(c)
    ensures Inboxed(d, e)
  {
    SplitKeeps(c.queue, c.quota);
  }

  lemma SendInbox(c: State, d: State, r: Request, e: Inbox)
    requires Inboxed(c, e) && Entitled(e, c.channel, r.item) && d == Send(c, r)
    ensures Inboxed(d, e)
  {
    PumpInbox(c.(queue := c.queue + [r]), d, e);
  }

  lemma RetireInbox(c: State, d: State, op: Op, ending: Ending, e: Inbox)
    requires Inboxed(c, e) && d == Complete(c, op, ending)
    ensures Inboxed(d, e)
  {
    var c1, c2 := Retire(c, op, ending), Settled(c, op, ending);
    SameInbox(c, c2, e);
    CompleteIsSettledPump(c, op, ending);
    PumpInbox(c2, Pump(c2), e);
  }

  lemma EvictInbox(c: State, d: State, code: Code, pid: nat, e: Inbox)
    requires Inboxed(c, e) && d == Evict(c, code, pid)
    ensures Inboxed(d, e)
    ensures code.Pubrel? ==> forall w :: w in d.table && w.code.Pubrel? ==> w.pid != pid
  {
    var i := FindWaiter(c.table, code, pid);
    if i < |c.table| {
      WaiterIdsWithout(c.table, i);
    }
  }

  lemma RegisterInbox(c: State, d: State, w: Waiter, e: Inbox)
    requires Inboxed(c, e) && Entitled(e, c.channel, w.item) && Unmistaken(e, c.fast, w.item)
    requires w.code.Pubrel? ==> forall x :: x in c.table && x.code.Pubrel? ==> x.pid != w.pid
    requires d == c.(table := c.table + [w])
    ensures Inboxed(d, e)
  {
  }

  lemma TakeEarlyInbox(c: State, d: State, item: Item, f: nat, e: Inbox)
    requires Inboxed(c, e) && Entitled(e, c.channel, item) && Unmistaken(e, c.fast, item)
    requires f < |c.fast| && (Inbound(item) ==> c.fast[f].code.Pubrel? && c.fast[f].pid == item.op.pid)
    requires d == c.(fast := Without(c.fast, f), posted := c.posted + [Posted(item, Got(c.fast[f]))])
    ensures Inboxed(d, e)
  {
    assert c.fast[f] in c.fast;
    assert forall x :: x in d.fast ==> x in c.fast;
  }

  lemma AwaitInbox(c: State, d: State, item: Item, e: Inbox)
    requires Inboxed(c, e) && Entitled(e, c.channel, item) && Unmistaken(e, c.fast, item)
    requires !item.stage.Writes() && Fits(item) && d == AwaitReply(c, item)
    ensures Inboxed(d, e)
  {
    var code, pid := AwaitedCode(item.stage), item.op.pid;
    var c1 := Evict(c, code, pid);
    EvictInbox(c, c1, code, pid, e);
    var f := FindReply(c1.fast, code, pid);
    if f == |c1.fast| {
      RegisterInbox(c1, d, Waiter(code, pid, item), e);
    } else {
      TakeEarlyInbox(c1, d, item, f, e);
    }
  }

  /** The message enters the channel; no other operation holds it. */
  lemma DeliverInbox(c: State, d: State, held: multiset<nat>, op: Op, e: Inbox)
    requires Counted(c, held + multiset{op.id}) && Inboxed(c, e) && op.kind.Receive?
    requires Entitled(e, c.channel, Item(op, if op.kind.qos2 then OnRecPubcomp else OnRecPuback, false))
    requires d == Deliver(c, op)
    ensures Inboxed(d, e)
  {
    HeldIsNowhere(c, held + multiset{op.id}, op.id);
    var x := Delivery(if op.kind.qos2 then 2 else 1, op.kind.msg);
    assert d.channel == c.channel + [x];
    DeliverOnce(e, c.channel, d.channel, x);
    forall item | Entitled(e, c.channel, item) && item.op.id != op.id ensures Entitled(e, d.channel, item) {
    }
  }

  lemma DeliverOnce(e: Inbox, s: seq<Delivery>, t: seq<Delivery>, x: Delivery)
    requires Once(e, s) && t == s + [x]
    requires x.qos == 2 && x.msg in e.watched ==> x !in s && x.msg in e.home && Past(e, e.home[x.msg], x.msg)
    ensures Once(e, t)
  {
  }

  lemma AdmitInbox(c: State, d: State, kind: Kind, pid: nat, seqno: nat, e: Inbox)
    requires Inboxed(c, e) && d == Admit(c, kind, pid, seqno)
    ensures Inboxed(d, e)
  {
    SameInbox(c, d, e);
  }

  lemma MalformInbox(c: State, d: State, op: Op, e: Inbox)
    requires Inboxed(c, e) && d == Malform(c, op)
    ensures Inboxed(d, e) && d.channel == c.channel
    ensures forall r :: r in d.fast ==> r in c.fast
  {
    var c1 := Admit(Log(c, Complaint(op)), Disconnect(false), 0, 0);
    SameInbox(c, c1, e);
    SendInbox(c1, d, PlainRequest(DisconnectItem(c)), e);
  }

  // ----- handlers

  lemma ReceivedInbox(c: State, d: State, held: multiset<nat>, item: Item, e: Inbox)
    requires Counted(c, held + multiset{item.op.id}) && Fits(item) && item.stage.Writes() && Inboxed(c, e)
    requires item.op.kind.Receive?
    requires Entitled(e, c.channel, item) && Unmistaken(e, c.fast, item) && d == OnWritten(c, item)
    ensures Inboxed(d, e)
  {
    if item.stage.OnRecPubrec? {
      AwaitInbox(c, d, item.(stage := OnRecPubrel), e);
    } else {
      DeliverInbox(c, d, held, item.op, e);
    }
  }

  /** The stage in which an operation waits after its write, if it waits. */
  function NextWait(item: Item): Stage {
    match item.stage
    case OnPublish => if item.op.kind.Qos1? then OnPuback else OnPubrec
    case OnPubrel => OnPubcomp
    case _ => OnSuback
  }

  lemma SentCases(c: State, item: Item)
    requires Fits(item) && item.stage.Writes() && !item.op.kind.Receive?
    ensures OnWritten(c, item)
         == if item.op.kind.Bearing()
            then AwaitReply(if item.stage.OnPublish? then Log(c, Written(item.op.id)) else c,
                            item.(stage := NextWait(item)))
            else Complete(c, item.op, Completed)
  {
  }

  lemma WrittenInbox(c: State, d: State, item: Item, e: Inbox)
    requires Fits(item) && item.stage.Writes() && Inboxed(c, e) && !item.op.kind.Receive?
    requires d == OnWritten(c, item)
    ensures Inboxed(d, e)
  {
    SentCases(c, item);
    if item.op.kind.Bearing() {
      var c1 := if item.stage.OnPublish? then Log(c, Written(item.op.id)) else c;
      SameInbox(c, c1, e);
      AwaitInbox(c1, d, item.(stage := NextWait(item)), e);
    } else {
      RetireInbox(c, d, item.op, Completed, e);
    }
  }

  lemma PublishAgainInbox(c: State, d: State, item: Item, e: Inbox)
    requires Inboxed(c, e) && item.op.kind.Publishes() && d == ResendPublish(c, item)
    ensures Inboxed(d, e)
  {
    if item.op.id in c.cancelled {
      RetireInbox(c, d, item.op, Failed, e);
    } else {
      SendInbox(c, d, PublishRequest(item.(stage := OnPublish)), e);
    }
  }

  lemma SubscribeAgainInbox(c: State, d: State, item: Item, e: Inbox)
    requires Inboxed(c, e) && item.op.kind.Subscribe? && d == ResendSubscribe(c, item)
    ensures Inboxed(d, e)
  {
    if item.op.id in c.cancelled {
      RetireInbox(c, d, item.op, Failed, e);
    } else {
      SendInbox(c, d, PlainRequest(item.(stage := OnSubscribe)), e);
    }
  }

  lemma TryAgainInbox(c: State, d: State, item: Item, e: Inbox)
    requires Fits(item) && item.stage.Writes() && Inboxed(c, e) && Entitled(e, c.channel, item)
    requires d == OnTryAgain(c, item)
    ensures Inboxed(d, e)
  {
    match item.stage
    case OnPublish => PublishAgainInbox(c, d, item, e);
    case OnPubrel => SendInbox(c, d, PubrelRequest(item, true), e);
    case OnSubscribe => SubscribeAgainInbox(c, d, item, e);
    case OnDisconnect =>
      if item.op.kind.retry {
        SendInbox(c, d, PlainRequest(item), e);
      } else {
        RetireInbox(c, d, item.op, Completed, e);
      }
    case OnOneShot => RetireInbox(c, d, item.op, Failed, e);
    case OnRecPuback => RetireInbox(c, d, item.op, Failed, e);
    case OnRecPubrec => RetireInbox(c, d, item.op, Failed, e);
    case OnRecPubcomp => AwaitInbox(c, d, item.(stage := OnRecPubrel), e);
  }

  lemma StartOverInbox(c: State, d: State, item: Item, e: Inbox)
    requires Fits(item) && !item.stage.Writes() && Inboxed(c, e)
    requires Entitled(e, c.channel, item) && Unmistaken(e, c.fast, item) && d == OnResend(c, item)
    ensures Inboxed(d, e)
  {
    match item.stage
    case OnPuback => PublishAgainInbox(c, d, item.(dup := true), e);
    case OnPubrec => PublishAgainInbox(c, d, item.(dup := true), e);
    case OnPubcomp => SendInbox(c, d, PubrelRequest(item.(stage := OnPubrel), true), e);
    case OnSuback => SubscribeAgainInbox(c, d, item, e);
    case OnRecPubrel => AwaitInbox(c, d, item, e);
  }

  lemma AnswerInbox(c: State, d: State, item: Item, reply: Reply, e: Inbox)
    requires Fits(item) && !item.stage.Writes() && Inboxed(c, e)
    requires Entitled(e, c.channel, item) && Committed(e, item) && d == OnAnswer(c, item, reply)
    ensures Inboxed(d, e)
  {
    var c1 := Log(c, Answered(item.op.id, reply.readAt, reply.code, reply.verdict));
    SameInbox(c, c1, e);
    AnswerCases(c, item, reply);
    if reply.verdict.Malformed? {
      var c2 := Malform(c1, item.op);
      MalformInbox(c1, c2, item.op, e);
      StartOverInbox(c2, d, item, e);
    } else if item.stage.OnPubrec? && reply.verdict.Success? {
      var c2 := Log(c1, Accepted(item.op.id));
      SameInbox(c1, c2, e);
      SendInbox(c2, d, PubrelRequest(item.(stage := OnPubrel), false), e);
    } else if item.stage.OnRecPubrel? {
      SendInbox(c1, d, PlainRequest(item.(stage := OnRecPubcomp)), e);
    } else {
      RetireInbox(c1, d, item.op, EndingOf(reply.verdict), e);
    }
  }

  // ----- resend

  /** Handlers run by `resend()` deliver nothing and bring no early reply. */
  ghost predicate Subdued(c: State, d: State) {
    d.writing && d.channel == c.channel && forall r :: r in d.fast ==> r in c.fast
  }

  lemma AwaitSubdued(c: State, d: State, item: Item)
    requires c.writing && !item.stage.Writes() && d == AwaitReply(c, item)
    ensures Subdued(c, d)
  {
  }

  lemma {:induction false} WaitersInbox(c: State, s: seq<Waiter>, e: Inbox)
    requires WaitersFit(s) && c.writing && Inboxed(c, e)
    requires TableEntitled(e, c.channel, s) && TableUnmistaken(e, c.fast, s)
    ensures Inboxed(ResendWaiters(c, s), e) && Subdued(c, ResendWaiters(c, s))
    decreases |s|
  {
    if s != [] {
      var item := s[0].item;
      assert s[0] in s;
      var d := OnResend(c, item);
      StartOverInbox(c, d, item, e);
      if item.stage.OnRecPubrel? { AwaitSubdued(c, d, item); }
      assert Subdued(c, d);
      WaitersInbox(d, s[1..], e);
    }
  }

  lemma {:induction false} RequestsInbox(c: State, s: seq<Request>, e: Inbox)
    requires RequestsFit(s) && c.writing && Inboxed(c, e) && QueueEntitled(e, c.channel, s)
    ensures Inboxed(RetryRequests(c, s), e)
    decreases |s|
  {
    if s != [] {
      var item := s[0].item;
      assert s[0] in s;
      var d := OnTryAgain(c, item);
      TryAgainInbox(c, d, item, e);
      if item.stage.OnRecPubcomp? { AwaitSubdued(c, d, item.(stage := OnRecPubrel)); }
      assert Subdued(c, d);
      RequestsInbox(d, s[1..], e);
    }
  }

  lemma ResendInbox(c: State, limit: nat, e: Inbox)
    requires WaitersFit(c.table) && RequestsFit(c.queue) && Inboxed(c, e)
    ensures Inboxed(Resend(c, limit), e)
  {
    if !c.writing {
      var c1 := Log(c, EpochEvent(c)).(writing := true, limit := limit, quota := limit,
                                       queue := [], table := []);
      assert Inboxed(c1, e);
      WaitersInbox(c1, c.table, e);
      var c2 := ResendWaiters(c1, c.table);
      RequestsInbox(c2, c.queue, e);
      var c3 := RetryRequests(c2, c.queue);
      var c4 := c3.(queue := StableSort(c3.queue), writing := false);
      SortMembers(c3.queue);
      assert Inboxed(c4, e);
      PumpInbox(c4, Pump(c4), e);
    }
  }

  lemma {:induction false} ClearInbox(c: State, s: seq<Waiter>, kept: seq<Waiter>, e: Inbox)
    requires Inboxed(c.(table := kept + s), e)
    ensures Inboxed(ClearPubrels(c, s, kept), e)
    decreases |s|
  {
    if s == [] {
      assert kept + s == kept;
    } else if s[0].code.Pubrel? {
      var d := Retire(c, s[0].item.op, Failed);
      FewerWaiters(c.(table := kept + s), d.(table := kept + s[1..]), kept, s, e);
      ClearInbox(d, s[1..], kept, e);
    } else {
      assert kept + s == (kept + [s[0]]) + s[1..];
      ClearInbox(c, s[1..], kept + [s[0]], e);
    }
  }

  lemma FewerWaiters(c: State, d: State, kept: seq<Waiter>, s: seq<Waiter>, e: Inbox)
    requires Inboxed(c, e) && s != [] && c.table == kept + s && d.table == kept + s[1..]
    requires d.channel == c.channel && d.queue == c.queue && d.batch == c.batch && d.done == c.done
    requires d.posted == c.posted && d.fast == c.fast
    ensures Inboxed(d, e)
  {
    assert d.table == Without(c.table, |kept|);
    WaiterIdsWithout(c.table, |kept|);
    assert OneWaiter(d.table);
  }

  lemma SessionInbox(c: State, present: bool, e: Inbox)
    requires Inboxed(c, e)
    ensures Inboxed(UpdateSession(c, present), e)
  {
    if !present {
      assert [] + c.table == c.table;
      assert c.(table := c.table) == c;
      ClearInbox(c, c.table, [], e);
    }
  }

  lemma {:induction false} AbortInbox(c: State, s: seq<Request>, e: Inbox)
    requires Inboxed(c, e)
    ensures Inboxed(AbortAll(c, s), e)
    decreases |s|
  {
    if s != [] {
      RetireInbox(c, OnAbort(c, s[0].item), s[0].item.op, Failed, e);
      AbortInbox(OnAbort(c, s[0].item), s[1..], e);
    }
  }

  // ----- what the broker may send, and what is read

  /** The item's operation is acknowledging the PUBLISH or waits for the PUBREL. */
  ghost predicate Open(c: State, pid: nat, item: Item) {
    && Inbound(item) && item.op.pid == pid
    && (|| (item.stage.OnRecPubrec? && exists r :: (r in c.queue || r in c.batch || r in c.done) && r.item == item)
        || (item.stage.OnRecPubrel? && exists w :: w in c.table && w.item == item))
  }

  ghost predicate OpenFor(c: State, pid: nat, m: nat, item: Item) {
    Open(c, pid, item) && item.op.kind.msg == m
  }

  /** Two operations of this message are open on the packet id. */
  ghost predicate TwoOpen(c: State, pid: nat, m: nat) {
    exists a, b :: OpenFor(c, pid, m, a) && OpenFor(c, pid, m, b) && a.op != b.op
  }

  /** At most one operation of each message is open on the packet id. */
  ghost predicate OneOpen(c: State, pid: nat) {
    forall m :: !TwoOpen(c, pid, m)
  }

  /** Likewise of the messages watched. */
  ghost predicate OneWatched(c: State, pid: nat, e: Inbox) {
    forall m :: m in e.watched ==> !TwoOpen(c, pid, m)
  }

  /** The step does not go back behind what has been read on its packet id, a
      message keeps its packet id, and a PUBREL finds no more than one operation of
      a message that is watched. */
  ghost predicate Conforming(c: State, e: Inbox, s: Step) {
    match s
    case ReceiveStep(kind, pid) =>
      kind.Receive? && (kind.qos2 ==>
        && (pid in e.key ==> e.key[pid] <= 2 * kind.msg)
        && (kind.msg in e.home ==> e.home[kind.msg] == pid))
    case ReadReplyStep(reply) =>
      reply.code.Pubrel? ==>
        (reply.pid in e.key ==> e.key[reply.pid] <= 2 * reply.source + 1) && OneWatched(c, reply.pid, e)
    case _ => true
  }

  ghost function Noted(c: State, e: Inbox, s: Step): Inbox {
    match s
    case ReceiveStep(kind, pid) =>
      if kind.Receive? && kind.qos2 then
        e.(key := e.key[pid := 2 * kind.msg], home := e.home[kind.msg := pid])
      else e
    case ReadReplyStep(reply) =>
      if reply.code.Pubrel? then NotedPubrel(c, e, reply.pid, reply.source) else e
    case _ => e
  }

  ghost function NotedPubrel(c: State, e: Inbox, pid: nat, msg: nat): Inbox {
    Inbox(e.key[pid := 2 * msg + 1], e.released[pid := 2 * msg + 1], e.home, Champions(c, e, pid), e.watched)
  }

  /** An operation of this message is open, and no PUBREL concerned it before. */
  ghost predicate Decides(c: State, e: Inbox, pid: nat, m: nat) {
    !Past(e, pid, m) && exists item :: OpenFor(c, pid, m, item)
  }

  ghost function Champions(c: State, e: Inbox, pid: nat): imap<nat, nat> {
    imap m | m in e.champion || Decides(c, e, pid, m) ::
      if Decides(c, e, pid, m) then
        var item :| OpenFor(c, pid, m, item); item.op.id
      else e.champion[m]
  }

  /** The first PUBREL that concerns the item is being read. */
  ghost predicate Decided(e: Inbox, item: Item, pid: nat) {
    Watched(e, item) && item.op.pid == pid && !Past(e, pid, item.op.kind.msg)
  }

  lemma OpenEntitled(c: State, e: Inbox, pid: nat, item: Item)
    requires Inboxed(c, e) && Open(c, pid, item)
    ensures Entitled(e, c.channel, item)
  {
  }

  /** The one operation of a message that is open may deliver it from now on. */
  lemma PubrelItem(c: State, e: Inbox, f: Inbox, item: Item, pid: nat, msg: nat)
    requires Inboxed(c, e) && Entitled(e, c.channel, item) && OneWatched(c, pid, e)
    requires pid in e.key ==> e.key[pid] <= 2 * msg + 1
    requires f == NotedPubrel(c, e, pid, msg)
    requires Decided(e, item, pid) ==> Open(c, pid, item)
    ensures Entitled(f, c.channel, item)
    ensures Committed(e, item) ==> Committed(f, item)
  {
    if Watched(e, item) {
      var m := item.op.kind.msg;
      if Decides(c, e, pid, m) {
        var y :| OpenFor(c, pid, m, y) && f.champion[m] == y.op.id;
        assert Decided(e, item, pid) ==> OpenFor(c, pid, m, item) && !TwoOpen(c, pid, m);
        OpenEntitled(c, e, pid, y);
      }
    }
  }

  lemma PubrelWaiters(c: State, e: Inbox, f: Inbox, pid: nat, msg: nat)
    requires Shaped(c) && Inboxed(c, e) && (pid in e.key ==> e.key[pid] <= 2 * msg + 1) && OneWatched(c, pid, e)
    requires f == NotedPubrel(c, e, pid, msg)
    ensures TableEntitled(f, c.channel, c.table) && PostedEntitled(f, c.channel, c.posted)
  {
    forall w | w in c.table ensures Entitled(f, c.channel, w.item) {
      assert WaiterOk(c.h.ops, w);
      PubrelItem(c, e, f, w.item, pid, msg);
    }
    forall p | p in c.posted && p.outcome.Got? ensures Entitled(f, c.channel, p.item) && Committed(f, p.item) {
      PubrelItem(c, e, f, p.item, pid, msg);
    }
  }

  lemma PubrelRequests(c: State, e: Inbox, f: Inbox, pid: nat, msg: nat)
    requires Shaped(c) && Inboxed(c, e) && (pid in e.key ==> e.key[pid] <= 2 * msg + 1) && OneWatched(c, pid, e)
    requires f == NotedPubrel(c, e, pid, msg)
    ensures forall r :: r in c.queue || r in c.batch || r in c.done ==> Entitled(f, c.channel, r.item)
  {
    forall r | r in c.queue || r in c.batch || r in c.done ensures Entitled(f, c.channel, r.item) {
      assert RequestOk(c.h.ops, r);
      PubrelItem(c, e, f, r.item, pid, msg);
    }
  }

  /** A PUBREL is read: whoever is open is the only one that may deliver. */
  lemma PubrelNoted(c: State, e: Inbox, pid: nat, msg: nat)
    requires Shaped(c) && Inboxed(c, e) && (pid in e.key ==> e.key[pid] <= 2 * msg + 1) && OneWatched(c, pid, e)
    ensures Inboxed(c, NotedPubrel(c, e, pid, msg))
  {
    var f := NotedPubrel(c, e, pid, msg);
    PubrelRequests(c, e, f, pid, msg);
    PubrelWaiters(c, e, f, pid, msg);
    assert forall item :: Unmistaken(e, c.fast, item) ==> Unmistaken(f, c.fast, item);
  }

  /** The completion of each PUBREC write on this id has been processed. */
  ghost predicate PubrecsTold(c: State, pid: nat) {
    forall r :: r in c.queue || r in c.batch || r in c.done ==>
      !(r.item.stage.OnRecPubrec? && r.item.op.pid == pid)
  }

  /** Then no more than one operation is open, because an older one is displaced. */
  lemma ToldInTime(c: State, e: Inbox, pid: nat)
    requires Shaped(c) && Inboxed(c, e) && PubrecsTold(c, pid)
    ensures OneOpen(c, pid)
  {
    forall m, a, b | OpenFor(c, pid, m, a) && OpenFor(c, pid, m, b) ensures a.op == b.op {
      var v :| v in c.table && v.item == a;
      var w :| w in c.table && w.item == b;
      assert WaiterOk(c.h.ops, v) && WaiterOk(c.h.ops, w);
      OnlyWaiter(c.table, v);
      OnlyWaiter(c.table, w);
    }
  }

  lemma OnlyWaiter(s: seq<Waiter>, w: Waiter)
    requires OneWaiter(s) && w in s && w.code.Pubrel?
    ensures var i := FindWaiter(s, Pubrel, w.pid); i < |s| && s[i] == w
  {
    var j :| 0 <= j < |s| && s[j] == w;
  }

  lemma PublishNoted(c: State, e: Inbox, f: Inbox, pid: nat, msg: nat)
    requires Inboxed(c, e) && f == e.(key := e.key[pid := 2 * msg], home := e.home[msg := pid])
    requires pid in e.key ==> e.key[pid] <= 2 * msg
    requires msg in e.home ==> e.home[msg] == pid
    ensures Inboxed(c, f) && (msg in e.watched ==> Delivery(2, msg) !in c.channel)
  {
    assert forall item :: Entitled(e, c.channel, item) ==> Entitled(f, c.channel, item);
    assert forall item :: Entitled(e, c.channel, item) && Unmistaken(e, c.fast, item) ==> Unmistaken(f, c.fast, item);
    assert forall item :: Committed(e, item) && Entitled(e, c.channel, item) ==> Committed(f, item);
  }

  // ----- steps

  lemma CallInbox(c: State, d: State, kind: Kind, pid: nat, seqno: nat, r: Request, e: Inbox)
    requires Inboxed(c, e) && Entitled(e, c.channel, r.item) && d == Send(Admit(c, kind, pid, seqno), r)
    ensures Inboxed(d, e)
  {
    AdmitInbox(c, Admit(c, kind, pid, seqno), kind, pid, seqno, e);
    SendInbox(Admit(c, kind, pid, seqno), d, r, e);
  }

  lemma PublishInbox(c: State, d: State, kind: Kind, check: Check, e: Inbox)
    requires Inboxed(c, e) && kind.Publishes() && d == CallPublish(c, kind, check)
    ensures Inboxed(d, e)
  {
    var pid := if kind.Qos0? then 0 else LeastFreeFrom(c.inUse, 1);
    if !((!kind.Qos0? && pid == 0) || check.Invalid?) {
      var c1 := NextSerial(c);
      SameInbox(c, c1, e);
      if !check.TooLarge? {
        CallInbox(c1, d, kind, pid, c1.h.published,
                  PublishRequest(Item(Op(c.h.next, kind, pid, c1.h.published), OnPublish, false)), e);
      }
    }
  }

  lemma ReceiveInbox(c: State, d: State, kind: Kind, pid: nat, e: Inbox)
    requires Inboxed(c, e) && kind.Receive? && Conforming(c, e, ReceiveStep(kind, pid))
    requires d == ReceivePublish(c, kind, pid)
    ensures Inboxed(d, Noted(c, e, ReceiveStep(kind, pid)))
  {
    var f := Noted(c, e, ReceiveStep(kind, pid));
    var item := Item(Op(c.h.next, kind, pid, 0), if kind.qos2 then OnRecPubrec else OnRecPuback, false);
    if kind.qos2 { PublishNoted(c, e, f, pid, kind.msg); }
    CallInbox(c, d, kind, pid, 0, PlainRequest(item), f);
  }

  lemma TellInbox(c: State, d: State, e: Inbox)
    requires Invariant(c) && c.done != [] && RequestsFit(c.done) && Inboxed(c, e) && d == TellNext(c)
    ensures Inboxed(d, e)
  {
    var item := c.done[0].item;
    assert c.done[0] in c.done;
    var b, c0 := c.(done := c.done[1..]), Telling(c);
    TakeTold(c);
    assert Inboxed(b, e);
    SameInbox(b, c0, e);
    var c1 := OnWritten(c0, item);
    if item.op.kind.Receive? {
      ReceivedInbox(c0, c1, multiset{}, item, e);
    } else {
      WrittenInbox(c0, c1, item, e);
    }
    PumpInbox(c1, Pump(c1), e);
  }

  lemma ReadWaiterInbox(c: State, d: State, i: nat, r: Reply, e: Inbox)
    requires Shaped(c) && Inboxed(c, e) && i < |c.table| && WaitersFit(c.table)
    requires c.table[i].code == r.code && c.table[i].pid == r.pid
    requires r.code.Pubrel? ==> Committed(e, c.table[i].item)
    requires d == OnAnswer(c.(table := Without(c.table, i)), c.table[i].item, r)
    ensures Inboxed(d, e)
  {
    assert c.table[i] in c.table && WaiterOk(c.h.ops, c.table[i]);
    var c1 := c.(table := Without(c.table, i));
    WaiterIdsWithout(c.table, i);
    assert OneWaiter(c1.table);
    assert Inboxed(c1, e);
    AnswerInbox(c1, d, c.table[i].item, r, e);
  }

  /** Once its PUBREL is read, everything on the packet id is committed. */
  lemma AllCommitted(c: State, e: Inbox, f: Inbox, pid: nat, msg: nat)
    requires f == NotedPubrel(c, e, pid, msg)
    ensures forall item :: Entitled(f, c.channel, item) && item.op.pid == pid ==> Committed(f, item)
  {
  }

  lemma ReadInbox(c: State, d: State, reply: Reply, e: Inbox)
    requires Shaped(c) && WaitersFit(c.table) && Inboxed(c, e) && Conforming(c, e, ReadReplyStep(reply))
    requires d == ReadReply(c, reply)
    ensures Inboxed(d, Noted(c, e, ReadReplyStep(reply)))
  {
    var f := Noted(c, e, ReadReplyStep(reply));
    if reply.code.Pubrel? {
      PubrelNoted(c, e, reply.pid, reply.source);
      AllCommitted(c, e, f, reply.pid, reply.source);
    }
    var r := reply.(readAt := |c.h.trace|);
    var i := FindWaiter(c.table, r.code, r.pid);
    if i < |c.table| {
      assert c.table[i] in c.table && WaiterOk(c.h.ops, c.table[i]);
      ReadWaiterInbox(c, d, i, r, f);
    } else {
      EarlyInbox(c, d, r, f);
    }
  }

  lemma EarlyInbox(c: State, d: State, r: Reply, e: Inbox)
    requires Inboxed(c, e) && d == c.(fast := c.fast + [r])
    requires r.code.Pubrel? ==> forall item :: Entitled(e, c.channel, item) && item.op.pid == r.pid ==> Committed(e, item)
    ensures Inboxed(d, e)
  {
    assert forall item :: Entitled(e, c.channel, item) && Unmistaken(e, c.fast, item) ==> Unmistaken(e, d.fast, item);
  }

  lemma PostedInbox(c: State, d: State, e: Inbox)
    requires c.posted != [] && PostedFit(c.posted) && Inboxed(c, e) && d == RunPosted(c)
    ensures Inboxed(d, e)
  {
    var p := c.posted[0];
    assert p in c.posted;
    var c1 := c.(posted := c.posted[1..]);
    assert Inboxed(c1, e);
    if p.outcome.Got? {
      AnswerInbox(c1, d, p.item, p.outcome.reply, e);
    } else {
      RetireInbox(c1, d, p.item.op, Failed, e);
    }
  }

  lemma CancelInbox(c: State, d: State, e: Inbox)
    requires Inboxed(c, e) && d == CancelAll(c)
    ensures Inboxed(d, e)
  {
    forall p | p in d.posted && p.outcome.Got? ensures p in c.posted {
      PostedFrom(c, p);
    }
  }

  lemma ReconnectInbox(c: State, s: Step, e: Inbox)
    requires Invariant(c) && WellShaped(c) && Enabled(c, s) && Inboxed(c, e)
    requires s.WriteAgainStep? || s.ReadAgainStep?
    ensures Inboxed(Next(c, s), e)
  {
    var c0 := if s.WriteAgainStep? then c.(writing := false, batch := []) else c;
    ShapeAfterSession(c0, s.present);
    SessionInbox(c0, s.present, e);
    var c1 := UpdateSession(c0, s.present);
    if s.WriteAgainStep? {
      SessionChannel(c0, c0.table, []);
      var c2 := c1.(queue := c.batch + c1.queue);
      assert Inboxed(c2, e);
      ResendInbox(c2, s.limit, e);
    } else {
      ResendInbox(c1, s.limit, e);
    }
  }

  lemma {:induction false} SessionChannel(c: State, s: seq<Waiter>, kept: seq<Waiter>)
    ensures ClearPubrels(c, s, kept).channel == c.channel
    decreases |s|
  {
    if s != [] {
      if s[0].code.Pubrel? {
        SessionChannel(Retire(c, s[0].item.op, Failed), s[1..], kept);
      } else {
        SessionChannel(c, s[1..], kept + [s[0]]);
      }
    }
  }

  lemma CallsInbox(c: State, s: Step, e: Inbox)
    requires WellShaped(c) && Enabled(c, s) && Inboxed(c, e) && (s.SubscribeStep? || s.OtherStep?)
    ensures Inboxed(Next(c, s), e)
  {
    var d := Next(c, s);
    if s.OtherStep? {
      var stage := if s.kind.OneShot? then OnOneShot else OnDisconnect;
      CallInbox(c, d, s.kind, 0, 0, PlainRequest(Item(Op(c.h.next, s.kind, 0, 0), stage, false)), e);
    } else {
      var pid := LeastFreeFrom(c.inUse, 1);
      if pid != 0 && s.check.Valid? {
        CallInbox(c, d, Subscribe, pid, 0, PlainRequest(Item(Op(c.h.next, Subscribe, pid, 0), OnSubscribe, false)), e);
      }
    }
  }

  lemma WriteOkInbox(c: State, d: State, e: Inbox)
    requires Inboxed(c, e) && c.done == [] && d == c.(done := c.batch, batch := [], writing := false)
    ensures Inboxed(d, e)
  {
  }

  lemma Qos0Inbox(c: State, d: State, msg: nat, e: Inbox)
    requires Inboxed(c, e) && d == Log(c, Arrived(msg)).(channel := c.channel + [Delivery(0, msg)])
    ensures Inboxed(d, e)
  {
    DeliverOnce(e, c.channel, d.channel, Delivery(0, msg));
    assert forall item :: Entitled(e, c.channel, item) ==> Entitled(e, d.channel, item);
  }

  lemma WriteAbortInbox(c: State, d: State, e: Inbox)
    requires Inboxed(c, e) && d == AbortAll(Log(c, Stopped).(writing := false, batch := []), c.batch)
    ensures Inboxed(d, e)
  {
    var c1 := Log(c, Stopped).(writing := false, batch := []);
    assert Inboxed(c1, e);
    AbortInbox(c1, c.batch, e);
  }

  /** Steps that read no QoS 2 packet. */
  lemma QuietInbox(c: State, s: Step, e: Inbox)
    requires Invariant(c) && WellShaped(c) && Enabled(c, s) && Inboxed(c, e)
    requires !s.ReceiveStep? && !s.ReadReplyStep?
    ensures Inboxed(Next(c, s), e)
  {
    var d := Next(c, s);
    match s {
      case PublishStep(kind, check) => PublishInbox(c, d, kind, check, e);
      case SubscribeStep(check) => CallsInbox(c, s, e);
      case OtherStep(kind) => CallsInbox(c, s, e);
      case ReceiveQos0Step(msg) => Qos0Inbox(c, d, msg, e);
      case WriteOkStep => WriteOkInbox(c, d, e);
      case TellNextStep => TellInbox(c, d, e);
      case WriteAgainStep(present, limit) => ReconnectInbox(c, s, e);
      case WriteAbortStep => WriteAbortInbox(c, d, e);
      case ReadAgainStep(present, limit) => ReconnectInbox(c, s, e);
      case PostedStep => PostedInbox(c, d, e);
      case CancelOneStep(id) => SameInbox(c, d, e);
      case CancelAllStep => CancelInbox(c, d, e);
      case _ =>
    }
  }

  lemma StepInbox(c: State, s: Step, e: Inbox)
    requires Invariant(c) && WellShaped(c) && Enabled(c, s) && Inboxed(c, e) && Conforming(c, e, s)
    ensures Inboxed(Next(c, s), Noted(c, e, s))
  {
    if s.ReceiveStep? {
      ReceiveInbox(c, Next(c, s), s.kind, s.pid, e);
    } else if s.ReadReplyStep? {
      ReadInbox(c, Next(c, s), s.reply, e);
    } else {
      QuietInbox(c, s, e);
    }
  }

  // ----- runs

  /** A QoS 2 packet from the broker: the PUBLISH or the PUBREL of a message. */
  datatype Packet = Packet(release: bool, pid: nat, msg: nat)

  function PhaseOf(p: Packet): nat { 2 * p.msg + (if p.release then 1 else 0) }

  /** On each packet id PUBLISH comes before PUBREL and messages come in order;
      a message has one packet id. */
  ghost predicate NeverBack(s: seq<Packet>) {
    && (forall i, j :: 0 <= i < j < |s| && s[i].pid == s[j].pid ==> PhaseOf(s[i]) <= PhaseOf(s[j]))
    && (forall i, j :: 0 <= i < j < |s| && s[i].msg == s[j].msg ==> s[i].pid == s[j].pid)
  }

  /** What is left of a sequence when some of it is lost. */
  ghost predicate Remains(left: seq<Packet>, all: seq<Packet>) {
    exists at: seq<nat> ::
      && |at| == |left| && (forall i :: 0 <= i < |at| ==> at[i] < |all| && all[at[i]] == left[i])
      && (forall i, j :: 0 <= i < j < |at| ==> at[i] < at[j])
  }

  lemma LossesDoNotMatter(left: seq<Packet>, all: seq<Packet>)
    requires NeverBack(all) && Remains(left, all)
    ensures NeverBack(left)
  {
  }

  function PacketOfStep(s: Step): seq<Packet> {
    match s
    case ReceiveStep(kind, pid) =>
      if kind.Receive? && kind.qos2 then [Packet(false, pid, kind.msg)] else []
    case ReadReplyStep(reply) =>
      if reply.code.Pubrel? then [Packet(true, reply.pid, reply.source)] else []
    case _ => []
  }

  /** The QoS 2 packets that the steps of a run read. */
  function PacketsRead(steps: seq<Step>): seq<Packet> {
    if steps == [] then [] else PacketsRead(steps[..|steps| - 1]) + PacketOfStep(steps[|steps| - 1])
  }

  /** Each PUBREL finds at most one operation of each message open on its packet id. */
  ghost predicate InTime(states: seq<State>, steps: seq<Step>) {
    && |states| == |steps| + 1
    && forall i :: 0 <= i < |steps| && steps[i].ReadReplyStep? && steps[i].reply.code.Pubrel? ==>
         OneOpen(states[i], steps[i].reply.pid)
  }

  ghost const All: iset<nat> := iset m: nat | true

  ghost function InboxAfter(states: seq<State>, steps: seq<Step>, i: nat): (e: Inbox)
    requires |states| == |steps| + 1 && i <= |steps|
    ensures e.watched == All
  {
    if i == 0 then Inbox(map[], map[], map[], imap[], All)
    else Noted(states[i - 1], InboxAfter(states, steps, i - 1), steps[i - 1])
  }

  /** The inbox knows the latest phase of each id and the id of each message read. */
  ghost predicate Reflects(e: Inbox, s: seq<Packet>) {
    && (forall p :: p in e.key ==> exists x :: x in s && x.pid == p && PhaseOf(x) == e.key[p])
    && (forall m :: m in e.home ==> exists x :: x in s && x.msg == m && x.pid == e.home[m])
  }

  lemma {:induction false} InboxReflects(states: seq<State>, steps: seq<Step>, i: nat)
    requires |states| == |steps| + 1 && i <= |steps|
    ensures Reflects(InboxAfter(states, steps, i), PacketsRead(steps[..i]))
  {
    if i > 0 {
      InboxReflects(states, steps, i - 1);
      assert steps[..i][..i - 1] == steps[..i - 1];
      var e, s, more := InboxAfter(states, steps, i - 1), PacketsRead(steps[..i - 1]), PacketOfStep(steps[i - 1]);
      NotedReflects(states[i - 1], e, steps[i - 1], s);
    }
  }

  lemma NotedReflects(c: State, e: Inbox, step: Step, s: seq<Packet>)
    requires Reflects(e, s)
    ensures Reflects(Noted(c, e, step), s + PacketOfStep(step))
  {
    var f, more := Noted(c, e, step), PacketOfStep(step);
    var t := s + more;
    assert forall x :: x in s ==> x in t;
    if more != [] { assert more[0] in t; }
    forall p | p in f.key ensures exists x :: x in t && x.pid == p && PhaseOf(x) == f.key[p] {
      if more == [] || more[0].pid != p {
        var x :| x in s && x.pid == p && PhaseOf(x) == e.key[p];
      }
    }
    forall m | m in f.home ensures exists x :: x in t && x.msg == m && x.pid == f.home[m] {
      if more == [] || more[0].release || more[0].msg != m {
        var x :| x in s && x.msg == m && x.pid == e.home[m];
      }
    }
  }

  lemma {:induction false} ReadsPrefix(steps: seq<Step>, i: nat)
    requires i <= |steps|
    ensures |PacketsRead(steps[..i])| <= |PacketsRead(steps)|
    ensures PacketsRead(steps[..i]) == PacketsRead(steps)[..|PacketsRead(steps[..i])|]
  {
    if i == |steps| {
      assert steps[..i] == steps;
    } else {
      var front := steps[..|steps| - 1];
      assert front[..i] == steps[..i];
      ReadsPrefix(front, i);
    }
  }

  /** A packet read next does not go back behind those read before. */
  lemma NextIsNew(e: Inbox, step: Step, s: seq<Packet>)
    requires Reflects(e, s) && NeverBack(s + PacketOfStep(step))
    ensures forall y :: y in PacketOfStep(step) ==>
      (y.pid in e.key ==> e.key[y.pid] <= PhaseOf(y)) && (y.msg in e.home ==> e.home[y.msg] == y.pid)
  {
    var more := PacketOfStep(step);
    if more != [] {
      var t, y := s + more, more[0];
      assert t[|s|] == y;
      if y.pid in e.key {
        var x :| x in s && x.pid == y.pid && PhaseOf(x) == e.key[y.pid];
        var j :| 0 <= j < |s| && s[j] == x;
        assert t[j] == x;
      }
      if y.msg in e.home {
        var x :| x in s && x.msg == y.msg && x.pid == e.home[y.msg];
        var j :| 0 <= j < |s| && s[j] == x;
        assert t[j] == x;
      }
    }
  }

  lemma NextConforms(c: State, e: Inbox, step: Step, s: seq<Packet>)
    requires Reflects(e, s) && NeverBack(s + PacketOfStep(step)) && (step.ReceiveStep? ==> step.kind.Receive?)
    requires step.ReadReplyStep? && step.reply.code.Pubrel? ==> OneWatched(c, step.reply.pid, e)
    ensures Conforming(c, e, step)
  {
    NextIsNew(e, step, s);
    if PacketOfStep(step) != [] { assert PacketOfStep(step)[0] in PacketOfStep(step); }
  }

  lemma StepConforms(states: seq<State>, steps: seq<Step>, i: nat)
    requires InTime(states, steps) && NeverBack(PacketsRead(steps)) && i < |steps|
    requires steps[i].ReceiveStep? ==> steps[i].kind.Receive?
    ensures Conforming(states[i], InboxAfter(states, steps, i), steps[i])
  {
    InboxReflects(states, steps, i);
    ReadsPrefix(steps, i + 1);
    assert steps[..i + 1][..i] == steps[..i];
    FewerGoBack(PacketsRead(steps), |PacketsRead(steps[..i + 1])|);
    NextConforms(states[i], InboxAfter(states, steps, i), steps[i], PacketsRead(steps[..i]));
  }

  lemma FewerGoBack(s: seq<Packet>, n: nat)
    requires NeverBack(s) && n <= |s|
    ensures NeverBack(s[..n])
  {
  }

  lemma FollowsInbox(c: State, s: Step, d: State, e: Inbox)
    requires Sane(c) && Follows(c, s, d) && Inboxed(c, e) && Conforming(c, e, s)
    ensures Inboxed(d, Noted(c, e, s))
  {
    StepInbox(c, s, e);
  }

  lemma {:induction false} InboxHolds(states: seq<State>, steps: seq<Step>, i: nat)
    requires IsRun(states, steps) && InTime(states, steps) && NeverBack(PacketsRead(steps)) && i <= |steps|
    ensures Inboxed(states[i], InboxAfter(states, steps, i))
  {
    if i > 0 {
      InboxHolds(states, steps, i - 1);
      RunKeeps(states, steps, i - 1);
      assert Follows(states[i - 1], steps[i - 1], states[i - 1 + 1]);
      StepConforms(states, steps, i - 1);
      FollowsInbox(states[i - 1], steps[i - 1], states[i - 1 + 1], InboxAfter(states, steps, i - 1));
    }
  }

  /** QoS 2 at most once to the user: if the packets read are what losses left of
      those of a broker that never goes back, no message is in the receive channel
      twice, at any point of any run. */
  lemma ReceivedAtMostOnce(states: seq<State>, steps: seq<Step>, sent: seq<Packet>, i: nat)
    requires IsRun(states, steps) && InTime(states, steps) && i <= |steps|
    requires NeverBack(sent) && Remains(PacketsRead(steps), sent)
    ensures var channel := states[i].channel;
      forall j, k :: 0 <= j < k < |channel| && channel[j].qos == 2 ==> channel[j] != channel[k]
  {
    LossesDoNotMatter(PacketsRead(steps), sent);
    InboxHolds(states, steps, i);
  }
}
