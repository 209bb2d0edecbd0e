/**
 The client side of the retransmission engine as a transition system: the write
 queue (`async_sender`), the table of waiting operations (`replies`), the QoS 1
 and QoS 2 state machines (`publish_send_op`, `publish_rec_op`), SUBSCRIBE, and
 the packet id bookkeeping of `client_service`.

 Every function below is one handler or one member function of the program.
 `History` records the run; no decision of the client depends on it.
 */
module Client {
  import opened Requests
  import opened SerialOrder

  // ----- the run

  datatype Packet = PublishPacket | PubrelPacket | PubackPacket | PubrecPacket | PubcompPacket | OtherPacket

  /** How an operation ended: no error and a success reason code, no error and
      a failure reason code, or an error. */
  datatype Ending = Completed | Refused | Failed

  datatype Event =
    | Started(id: nat)
    /** The request was handed to the transport, in a write that begins here. */
    | Handed(id: nat, packet: Packet, throttled: bool, dup: bool, kind: Kind, pid: nat)
    /** The write that carried the operation's PUBLISH was reported successful. */
    | Written(id: nat)
    /** The operation's handler is told that the write of this packet succeeded. */
    | Told(id: nat, packet: Packet)
    /** The operation was given the reply that had been read at `readAt`. */
    | Answered(id: nat, readAt: nat, code: Code, verdict: Verdict)
    /** The operation's PUBREC was accepted. */
    | Accepted(id: nat)
    /** An effective `resend()`: no operation was being cancelled and nothing was
        posted to a QoS 1 or QoS 2 one (`tidy`), the serials were in one window
        (`near`), and no reply was posted to a QoS 1 or QoS 2 one (`unanswered`). */
    | Epoch(tidy: bool, near: bool, unanswered: bool)
    /** A malformed acknowledgement puts the operation's packet back in the queue. */
    | Returned(id: nat)
    /** Some other malformed reply. */
    | Disturbed
    /** Everything was cancelled, or a write failed for good. */
    | Stopped
    /** One operation was cancelled. */
    | Dropped(id: nat)
    /** A QoS 0 message was read. */
    | Arrived(msg: nat)
    | Finished(id: nat, ending: Ending, kind: Kind)

  /** `ops` holds the live operations, `owner` the operation that has each
      packet id in use; `next` numbers the calls, `published` the publish calls. */
  datatype History = History(ops: map<nat, Op>, owner: map<nat, nat>,
                             next: nat, published: nat, trace: seq<Event>)

  // ----- the client

  /** A message handed to the user's receive channel. */
  datatype Delivery = Delivery(qos: nat, msg: nat)

  /** `batch` is the write in progress; `done` is what remains to be told of a
      batch that has been written. */
  datatype State = State(
    queue: seq<Request>, writing: bool, batch: seq<Request>, done: seq<Request>,
    limit: nat, quota: nat, lastSerial: nat,
    table: seq<Waiter>, fast: seq<Reply>, posted: seq<Posted>,
    inUse: set<nat>, channel: seq<Delivery>, cancelled: set<nat>,
    h: History)

  const Initial := State([], false, [], [], MAX_LIMIT, MAX_LIMIT, 0, [], [], [], {}, [], {},
                         History(map[], map[], 0, 0, []))

  function Log(c: State, e: Event): State {
    c.(h := c.h.(trace := c.h.trace + [e]))
  }

  function Without<T>(s: seq<T>, i: nat): seq<T>
    requires i < |s|
  {
    s[..i] + s[i + 1..]
  }

  // ----- async_sender

  /** Index of the first terminal request, or the length of the queue. */
  function FirstTerminal(s: seq<Request>): (i: nat)
    ensures i <= |s|
    ensures i < |s| ==> s[i].terminal
    ensures forall j :: 0 <= j < i ==> !s[j].terminal
  {
    if s == [] || s[0].terminal then 0 else 1 + FirstTerminal(s[1..])
  }

  datatype Share = Share(taken: seq<Request>, left: seq<Request>, quota: nat)

  /** Unthrottled requests go out; throttled ones do while the quota lasts. */
  function Split(s: seq<Request>, quota: nat): Share {
    if s == [] then Share([], [], quota)
    else if !s[0].throttled then
      var rest := Split(s[1..], quota);
      rest.(taken := [s[0]] + rest.taken)
    else if quota > 0 then
      var rest := Split(s[1..], quota - 1);
      rest.(taken := [s[0]] + rest.taken)
    else
      var rest := Split(s[1..], quota);
      rest.(left := [s[0]] + rest.left)
  }

  function PacketOf(stage: Stage): Packet {
    match stage
    case OnPublish => PublishPacket
    case OnPubrel => PubrelPacket
    case OnRecPuback => PubackPacket
    case OnRecPubrec => PubrecPacket
    case OnRecPubcomp => PubcompPacket
    case _ => OtherPacket
  }

  function HandedEvent(r: Request): Event {
    Handed(r.item.op.id, PacketOf(r.item.stage), r.throttled, r.item.dup,
           r.item.op.kind, r.item.op.pid)
  }

  function HandedEvents(s: seq<Request>): seq<Event> {
    if s == [] then [] else HandedEvents(s[..|s| - 1]) + [HandedEvent(s[|s| - 1])]
  }

  /** A write begins: early replies from before it are dropped. */
  function Begin(c: State, taken: seq<Request>, left: seq<Request>, quota: nat): State {
    c.(writing := true, batch := taken, queue := left, quota := quota, fast := [],
       h := c.h.(trace := c.h.trace + HandedEvents(taken)))
  }

  /** `do_write` */
  function Pump(c: State): State {
    if c.writing || c.queue == [] then c
    else
      var t := FirstTerminal(c.queue);
      if t < |c.queue| then Begin(c, [c.queue[t]], Without(c.queue, t), c.quota)
      else if c.limit == MAX_LIMIT then Begin(c, c.queue, [], c.quota)
      else
        var share := Split(c.queue, c.quota);
        if share.taken == [] then c else Begin(c, share.taken, share.left, share.quota)
  }

  /** `async_send` */
  function Send(c: State, r: Request): State {
    Pump(c.(queue := c.queue + [r]))
  }

  /** `throttled_op_done`; the quota is a 16-bit counter. */
  function Refund(c: State): State {
    if c.limit == MAX_LIMIT then c
    else Pump(c.(quota := if c.quota == MAX_LIMIT then 0 else c.quota + 1))
  }

  function PublishRequest(item: Item): Request {
    Request(item, item.op.seqno % SERIAL_MODULUS, !item.op.kind.Qos0?, false, false)
  }

  function PubrelRequest(item: Item, throttled: bool): Request {
    Request(item, item.op.seqno % SERIAL_MODULUS, throttled, true, false)
  }

  function PlainRequest(item: Item): Request {
    Request(item, 0, false, false, item.stage.OnDisconnect?)
  }

  // ----- replies

  /** Index of the first waiter for (code, pid), or the length of the table. */
  function FindWaiter(s: seq<Waiter>, code: Code, pid: nat): (i: nat)
    ensures i <= |s|
    ensures i < |s| ==> s[i].code == code && s[i].pid == pid
    ensures forall j :: 0 <= j < i ==> !(s[j].code == code && s[j].pid == pid)
  {
    if s == [] || (s[0].code == code && s[0].pid == pid) then 0
    else 1 + FindWaiter(s[1..], code, pid)
  }

  function FindReply(s: seq<Reply>, code: Code, pid: nat): (i: nat)
    ensures i <= |s|
    ensures i < |s| ==> s[i].code == code && s[i].pid == pid
    ensures forall j :: 0 <= j < i ==> !(s[j].code == code && s[j].pid == pid)
  {
    if s == [] || (s[0].code == code && s[0].pid == pid) then 0
    else 1 + FindReply(s[1..], code, pid)
  }

  /** A waiter already registered for (code, pid) is told it was aborted. */
  function Evict(c: State, code: Code, pid: nat): State {
    var i := FindWaiter(c.table, code, pid);
    if i == |c.table| then c
    else c.(table := Without(c.table, i),
            posted := c.posted + [Posted(c.table[i].item, Aborted)])
  }

  /** `async_wait_reply` */
  function AwaitReply(c: State, item: Item): State
    requires !item.stage.Writes()
  {
    var code, pid := AwaitedCode(item.stage), item.op.pid;
    var c1 := Evict(c, code, pid);
    var f := FindReply(c1.fast, code, pid);
    if f == |c1.fast| then c1.(table := c1.table + [Waiter(code, pid, item)])
    else c1.(fast := Without(c1.fast, f),
             posted := c1.posted + [Posted(item, Got(c1.fast[f]))])
  }

  // ----- how operations start and end

  function Admit(c: State, kind: Kind, pid: nat, seqno: nat): State {
    var op := Op(c.h.next, kind, pid, seqno);
    c.(inUse := if kind.Bearing() then c.inUse + {pid} else c.inUse,
       h := c.h.(ops := c.h.ops[op.id := op],
                 owner := if kind.Bearing() then c.h.owner[pid := op.id] else c.h.owner,
                 next := c.h.next + 1,
                 trace := c.h.trace + [Started(op.id)]))
  }

  function Retire(c: State, op: Op, ending: Ending): State {
    c.(inUse := if op.kind.Bearing() then c.inUse - {op.pid} else c.inUse,
       h := c.h.(ops := c.h.ops - {op.id},
                 owner := if op.kind.Bearing() then c.h.owner - {op.pid} else c.h.owner,
                 trace := c.h.trace + [Finished(op.id, ending, op.kind)]))
  }

  /** `complete`: the packet id is freed and the quota given back. */
  function Complete(c: State, op: Op, ending: Ending): State {
    var c1 := Retire(c, op, ending);
    if op.kind.Metered() then Refund(c1) else c1
  }

  function Deliver(c: State, op: Op): State
    requires op.kind.Receive?
  {
    Retire(c, op, Completed).(channel := c.channel + [Delivery(if op.kind.qos2 then 2 else 1, op.kind.msg)])
  }

  function Complaint(op: Op): Event {
    if op.kind.Metered() then Returned(op.id) else Disturbed
  }

  /** `on_malformed_packet`: a DISCONNECT is put in the queue. */
  function Malform(c: State, op: Op): State {
    var c1 := Admit(Log(c, Complaint(op)), Disconnect(false), 0, 0);
    Send(c1, PlainRequest(Item(c1.h.ops[c.h.next], OnDisconnect, false)))
  }

  // ----- handlers

  /** `resend_publish` */
  function ResendPublish(c: State, item: Item): State {
    if item.op.id in c.cancelled then Complete(c, item.op, Failed)
    else Send(c, PublishRequest(item.(stage := OnPublish)))
  }

  /** `resend_subscribe` */
  function ResendSubscribe(c: State, item: Item): State {
    if item.op.id in c.cancelled then Complete(c, item.op, Failed)
    else Send(c, PlainRequest(item.(stage := OnSubscribe)))
  }

  /** A write handler is told that its write succeeded. */
  function OnWritten(c: State, item: Item): State
    requires item.stage.Writes() && StageFits(item.op.kind, item.stage)
  {
    match item.stage
    case OnPublish =>
      if item.op.kind.Qos0? then Complete(c, item.op, Completed)
      else AwaitReply(Log(c, Written(item.op.id)),
                      item.(stage := if item.op.kind.Qos1? then OnPuback else OnPubrec))
    case OnPubrel => AwaitReply(c, item.(stage := OnPubcomp))
    case OnSubscribe => AwaitReply(c, item.(stage := OnSuback))
    case OnDisconnect => Complete(c, item.op, Completed)
    case OnOneShot => Complete(c, item.op, Completed)
    case OnRecPuback => Deliver(c, item.op)
    case OnRecPubrec => AwaitReply(c, item.(stage := OnRecPubrel))
    case OnRecPubcomp => Deliver(c, item.op)
  }

  /** A write handler is told that its write has to be made again. */
  function OnTryAgain(c: State, item: Item): State
    requires item.stage.Writes() && StageFits(item.op.kind, item.stage)
  {
    match item.stage
    case OnPublish => ResendPublish(c, item)
    case OnPubrel => Send(c, PubrelRequest(item, true))
    case OnSubscribe => ResendSubscribe(c, item)
    case OnDisconnect =>
      if item.op.kind.retry then Send(c, PlainRequest(item))
      else Complete(c, item.op, Completed)
    case OnOneShot => Complete(c, item.op, Failed)
    case OnRecPuback => Complete(c, item.op, Failed)
    case OnRecPubrec => Complete(c, item.op, Failed)
    case OnRecPubcomp => AwaitReply(c, item.(stage := OnRecPubrel))
  }

  function EndingOf(v: Verdict): Ending {
    if v.Success? then Completed else Refused
  }

  /** A waiting handler is given a reply. */
  function OnAnswer(c: State, item: Item, reply: Reply): State
    requires !item.stage.Writes() && StageFits(item.op.kind, item.stage)
  {
    var c1 := Log(c, Answered(item.op.id, reply.readAt, reply.code, reply.verdict));
    var v := reply.verdict;
    match item.stage
    case OnPuback =>
      if v.Malformed? then ResendPublish(Malform(c1, item.op), item.(dup := true))
      else Complete(c1, item.op, EndingOf(v))
    case OnPubrec =>
      if v.Malformed? then ResendPublish(Malform(c1, item.op), item.(dup := true))
      else if v.Failure? then Complete(c1, item.op, Refused)
      else Send(Log(c1, Accepted(item.op.id)), PubrelRequest(item.(stage := OnPubrel), false))
    case OnPubcomp =>
      if v.Malformed? then Send(Malform(c1, item.op), PubrelRequest(item.(stage := OnPubrel), true))
      else Complete(c1, item.op, EndingOf(v))
    case OnSuback =>
      if v.Malformed? then ResendSubscribe(Malform(c1, item.op), item)
      else Complete(c1, item.op, EndingOf(v))
    case OnRecPubrel =>
      if v.Malformed? then AwaitReply(Malform(c1, item.op), item)
      else Send(c1, PlainRequest(item.(stage := OnRecPubcomp)))
  }

  /** A waiting handler is told to start over on a new connection. */
  function OnResend(c: State, item: Item): State
    requires !item.stage.Writes() && StageFits(item.op.kind, item.stage)
  {
    match item.stage
    case OnPuback => ResendPublish(c, item.(dup := true))
    case OnPubrec => ResendPublish(c, item.(dup := true))
    case OnPubcomp => Send(c, PubrelRequest(item.(stage := OnPubrel), true))
    case OnSuback => ResendSubscribe(c, item)
    case OnRecPubrel => AwaitReply(c, item)
  }

  /** Any handler is told its operation was aborted. */
  function OnAbort(c: State, item: Item): State {
    Complete(c, item.op, Failed)
  }

  // ----- resend

  predicate Fits(item: Item) { StageFits(item.op.kind, item.stage) }
  predicate WaitersFit(s: seq<Waiter>) {
    forall w :: w in s ==> !w.item.stage.Writes() && Fits(w.item)
  }
  predicate RequestsFit(s: seq<Request>) {
    forall r :: r in s ==> r.item.stage.Writes() && Fits(r.item)
  }

  /** `resend_unanswered`, on the waiters moved out of the table. */
  function ResendWaiters(c: State, s: seq<Waiter>): State
    requires WaitersFit(s)
    decreases |s|
  {
    if s == [] then c else ResendWaiters(OnResend(c, s[0].item), s[1..])
  }

  function RetryRequests(c: State, s: seq<Request>): State
    requires RequestsFit(s)
    decreases |s|
  {
    if s == [] then c else RetryRequests(OnTryAgain(c, s[0].item), s[1..])
  }

  /** Operations that a resend queues without a serial number of their own. */
  predicate Unnumbered(kind: Kind) {
    kind.Subscribe? || (kind.Disconnect? && kind.retry)
  }

  /** The serials of the live publish operations, and the serial 0 of the others
      that a resend queues if there are any, lie in one window of 2^31 values that
      starts at `base`. */
  ghost predicate SerialsNear(ops: map<nat, Op>, base: nat) {
    && ((exists id :: id in ops && Unnumbered(ops[id].kind)) ==> Age(0, base) < 0x8000_0000)
    && forall id :: id in ops && ops[id].kind.Publishes()
                    ==> base <= ops[id].seqno < base + 0x8000_0000
  }

  predicate NothingMetered(s: seq<Posted>) {
    forall p :: p in s ==> !p.item.op.kind.Metered()
  }

  predicate NothingAnswered(s: seq<Posted>) {
    forall p :: p in s && p.outcome.Got? ==> !p.item.op.kind.Metered()
  }

  ghost function EpochEvent(c: State): Event {
    Epoch(c.cancelled !! c.h.ops.Keys && NothingMetered(c.posted),
          exists base :: SerialsNear(c.h.ops, base), NothingAnswered(c.posted))
  }

  /** `resend()` with the Receive Maximum of the new connection. */
  ghost function Resend(c: State, limit: nat): State
    requires WaitersFit(c.table) && RequestsFit(c.queue)
  {
    if c.writing then c
    else
      var c1 := Log(c, EpochEvent(c)).(writing := true, limit := limit, quota := limit,
                                       queue := [], table := []);
      var c2 := RetryRequests(ResendWaiters(c1, c.table), c.queue);
      Pump(c2.(queue := StableSort(c2.queue), writing := false))
  }

  /** `update_session_state`: without a session on the broker, inbound QoS 2
      deliveries that wait for a PUBREL are given up. */
  function UpdateSession(c: State, present: bool): State {
    if present then c else ClearPubrels(c, c.table, [])
  }

  function ClearPubrels(c: State, s: seq<Waiter>, kept: seq<Waiter>): State
    decreases |s|
  {
    if s == [] then c.(table := kept)
    else if s[0].code.Pubrel? then ClearPubrels(Retire(c, s[0].item.op, Failed), s[1..], kept)
    else ClearPubrels(c, s[1..], kept + [s[0]])
  }

  // ----- calls

  /** Checks of the arguments of a call: fine, rejected, or rejected because the
      encoded packet is too large (after the serial number was taken). */
  datatype Check = Valid | Invalid | TooLarge

  function LeastFreeFrom(taken: set<nat>, n: nat): nat
    decreases MAX_PACKET_ID + 1 - n
  {
    if n > MAX_PACKET_ID then 0
    else if n !in taken then n
    else LeastFreeFrom(taken, n + 1)
  }

  function NextSerial(c: State): State {
    c.(lastSerial := (c.lastSerial + 1) % SERIAL_MODULUS,
       h := c.h.(published := c.h.published + 1))
  }

  /** `publish_send_op::perform`; an operation that is not admitted leaves no trace. */
  function CallPublish(c: State, kind: Kind, check: Check): State
    requires kind.Publishes()
  {
    var pid := if kind.Qos0? then 0 else LeastFreeFrom(c.inUse, 1);
    if (!kind.Qos0? && pid == 0) || check.Invalid? then c
    else
      var c1 := NextSerial(c);
      if check.TooLarge? then c1
      else
        var c2 := Admit(c1, kind, pid, c1.h.published);
        Send(c2, PublishRequest(Item(c2.h.ops[c.h.next], OnPublish, false)))
  }

  /** `subscribe_op::perform` */
  function CallSubscribe(c: State, check: Check): State {
    var pid := LeastFreeFrom(c.inUse, 1);
    if pid == 0 || !check.Valid? then c
    else
      var c1 := Admit(c, Subscribe, pid, 0);
      Send(c1, PlainRequest(Item(c1.h.ops[c.h.next], OnSubscribe, false)))
  }

  /** A DISCONNECT or a packet nobody waits on, such as PINGREQ. */
  function CallOther(c: State, kind: Kind): State
    requires kind.Disconnect? || kind.OneShot?
  {
    var c1 := Admit(c, kind, 0, 0);
    Send(c1, PlainRequest(Item(c1.h.ops[c.h.next],
                               if kind.OneShot? then OnOneShot else OnDisconnect, false)))
  }

  /** `publish_rec_op::perform` for a QoS 1 or QoS 2 PUBLISH from the broker. */
  function ReceivePublish(c: State, kind: Kind, pid: nat): State
    requires kind.Receive?
  {
    var c1 := Admit(c, kind, pid, 0);
    Send(c1, PlainRequest(Item(c1.h.ops[c.h.next],
                               if kind.qos2 then OnRecPubrec else OnRecPuback, false)))
  }

  // ----- steps

  datatype Step =
    | PublishStep(kind: Kind, check: Check)
    | SubscribeStep(check: Check)
    | OtherStep(kind: Kind)
    | ReceiveStep(kind: Kind, pid: nat)
    | ReceiveQos0Step(msg: nat)
    /** The write in progress succeeded; its handlers are then told one by one. */
    | WriteOkStep
    | TellNextStep
    /** The write failed and the connection was replaced. */
    | WriteAgainStep(present: bool, limit: nat)
    /** The write failed for good or the client was cancelled. */
    | WriteAbortStep
    | ReadReplyStep(reply: Reply)
    /** The reader found the connection replaced. */
    | ReadAgainStep(present: bool, limit: nat)
    | PostedStep
    | CancelOneStep(id: nat)
    | CancelAllStep

  predicate Calls(s: Step) {
    s.PublishStep? || s.SubscribeStep? || s.OtherStep? || s.CancelOneStep?
  }

  /** A handler that is being told of its write may make further calls; nothing
      else happens until the whole batch has been told. */
  predicate Enabled(c: State, s: Step) {
    && (c.done != [] ==> Calls(s) || s.TellNextStep?)
    && match s
       case PublishStep(kind, _) => kind.Publishes()
       case SubscribeStep(_) => true
       case OtherStep(kind) => kind.Disconnect? || kind.OneShot?
       case ReceiveStep(kind, _) => kind.Receive?
       case ReceiveQos0Step(_) => true
       case WriteOkStep => c.batch != []
       case TellNextStep => c.done != []
       case WriteAgainStep(_, limit) => c.batch != [] && limit <= MAX_LIMIT
       case WriteAbortStep => c.batch != []
       case ReadReplyStep(_) => true
       case ReadAgainStep(_, limit) => limit <= MAX_LIMIT
       case PostedStep => c.posted != []
       case CancelOneStep(_) => true
       case CancelAllStep => true
  }

  /** The next handler is taken out. */
  function Telling(c: State): State
    requires c.done != []
  {
    var item := c.done[0].item;
    Log(c.(done := c.done[1..]), Told(item.op.id, PacketOf(item.stage)))
  }

  function TellNext(c: State): State
    requires c.done != [] && RequestsFit(c.done)
  {
    var c1 := OnWritten(Telling(c), c.done[0].item);
    if c1.done == [] then Pump(c1) else c1
  }

  function AbortAll(c: State, s: seq<Request>): State
    decreases |s|
  {
    if s == [] then c else AbortAll(OnAbort(c, s[0].item), s[1..])
  }

  /** `replies::dispatch` */
  function ReadReply(c: State, reply: Reply): State
    requires WaitersFit(c.table)
  {
    var r := reply.(readAt := |c.h.trace|);
    var i := FindWaiter(c.table, r.code, r.pid);
    if i == |c.table| then c.(fast := c.fast + [r])
    else OnAnswer(c.(table := Without(c.table, i)), c.table[i].item, r)
  }

  predicate PostedFit(s: seq<Posted>) {
    forall p :: p in s ==>
      && Fits(p.item)
      && !p.outcome.TryAgain?
      && (p.outcome.Got? ==> !p.item.stage.Writes())
  }

  function RunPosted(c: State): State
    requires c.posted != [] && PostedFit(c.posted)
  {
    var p := c.posted[0];
    var c1 := c.(posted := c.posted[1..]);
    if p.outcome.Got? then OnAnswer(c1, p.item, p.outcome.reply) else OnAbort(c1, p.item)
  }

  function AbortedWaiters(s: seq<Waiter>): seq<Posted> {
    seq(|s|, i requires 0 <= i < |s| => Posted(s[i].item, Aborted))
  }

  function AbortedRequests(s: seq<Request>): seq<Posted> {
    seq(|s|, i requires 0 <= i < |s| => Posted(s[i].item, Aborted))
  }

  /** `client_service::cancel` on an open stream. */
  function CancelAll(c: State): State {
    Log(c, Stopped).(
      table := [], queue := [],
      posted := c.posted + AbortedWaiters(c.table) + AbortedRequests(c.queue))
  }

  predicate WellShaped(c: State) {
    && RequestsFit(c.queue) && RequestsFit(c.batch) && RequestsFit(c.done)
    && WaitersFit(c.table) && PostedFit(c.posted)
  }

  ghost function Next(c: State, s: Step): State
    requires WellShaped(c) && Enabled(c, s)
  {
    match s
    case PublishStep(kind, check) => CallPublish(c, kind, check)
    case SubscribeStep(check) => CallSubscribe(c, check)
    case OtherStep(kind) => CallOther(c, kind)
    case ReceiveStep(kind, pid) => ReceivePublish(c, kind, pid)
    case ReceiveQos0Step(msg) => Log(c, Arrived(msg)).(channel := c.channel + [Delivery(0, msg)])
    case WriteOkStep => c.(done := c.batch, batch := [], writing := false)
    case TellNextStep => TellNext(c)
    case WriteAgainStep(present, limit) =>
      ShapeAfterSession(c.(writing := false, batch := []), present);
      var c1 := UpdateSession(c.(writing := false, batch := []), present);
      Resend(c1.(queue := c.batch + c1.queue), limit)
    case WriteAbortStep =>
      AbortAll(Log(c, Stopped).(writing := false, batch := []), c.batch)
    case ReadReplyStep(reply) => ReadReply(c, reply)
    case ReadAgainStep(present, limit) =>
      ShapeAfterSession(c, present);
      Resend(UpdateSession(c, present), limit)
    case PostedStep => RunPosted(c)
    case CancelOneStep(id) => Log(c, Dropped(id)).(cancelled := c.cancelled + {id})
    case CancelAllStep => CancelAll(c)
  }

  lemma {:induction false} ShapeAfterClear(c: State, s: seq<Waiter>, kept: seq<Waiter>)
    requires WaitersFit(s) && WaitersFit(kept)
    ensures var d := ClearPubrels(c, s, kept);
            && WaitersFit(d.table) && d.queue == c.queue && d.batch == c.batch
            && d.done == c.done && d.posted == c.posted && d.writing == c.writing
    decreases |s|
  {
    if s != [] {
      if s[0].code.Pubrel? {
        ShapeAfterClear(Retire(c, s[0].item.op, Failed), s[1..], kept);
      } else {
        ShapeAfterClear(c, s[1..], kept + [s[0]]);
      }
    }
  }

  lemma ShapeAfterSession(c: State, present: bool)
    requires WaitersFit(c.table)
    ensures var d := UpdateSession(c, present);
            && WaitersFit(d.table) && d.queue == c.queue && d.batch == c.batch
            && d.done == c.done && d.posted == c.posted && d.writing == c.writing
  {
    ShapeAfterClear(c, c.table, []);
  }
}
