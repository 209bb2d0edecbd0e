/**
 What the caller is told in the end, and what the user receives. How an operation
 ended is determined by the last reply it was given, or by the last packet of it
 that was reported written; the receive channel holds the QoS 0 messages that were
 read and the messages of the inbound deliveries that were completed, in that order.
 Both are read off the events of a run alone.
 */
module Outcomes {
  import opened Requests
  import opened Client
  import opened SerialOrder
  import opened Places
  import opened Engine
  import opened Resending
  import opened Steps
  import opened Theorems
  import Seqs

  // ----- what an operation was last told

  datatype Word = Silence | Wrote(packet: Packet) | Heard(code: Code, verdict: Verdict)

  /** The last reply that the operation was given. */
  function LastReply(t: seq<Event>, id: nat): Word {
    if t == [] then Silence else HeardAfter(LastReply(t[..|t| - 1], id), id, t[|t| - 1])
  }

  function HeardAfter(before: Word, id: nat, e: Event): Word {
    if e.Answered? && e.id == id then Heard(e.code, e.verdict)
    else if e == Started(id) then Silence
    else before
  }

  /** The last packet of the operation that was reported written. */
  function LastWritten(t: seq<Event>, id: nat): Word {
    if t == [] then Silence else WroteAfter(LastWritten(t[..|t| - 1], id), id, t[|t| - 1])
  }

  function WroteAfter(before: Word, id: nat, e: Event): Word {
    if e.Told? && e.id == id then Wrote(e.packet)
    else if e == Started(id) then Silence
    else before
  }

  /** Whether an operation has to end on this, and how. */
  datatype Sentence = Undecided | Ends(ending: Ending)

  function Sentenced(kind: Kind, wrote: Word, heard: Word): Sentence {
    match kind
    case Qos0 => if wrote == Wrote(PublishPacket) then Ends(Completed) else Undecided
    case Qos1 => ByReply(heard)
    case Subscribe => ByReply(heard)
    case Qos2 =>
      if heard == Heard(Pubrec, Failure) then Ends(Refused)
      else if heard == Heard(Pubcomp, Success) then Ends(Completed)
      else if heard == Heard(Pubcomp, Failure) then Ends(Refused)
      else Undecided
    case Disconnect(_) => if wrote == Wrote(OtherPacket) then Ends(Completed) else Undecided
    case OneShot => if wrote == Wrote(OtherPacket) then Ends(Completed) else Undecided
    case Receive(qos2, _) =>
      if wrote == Wrote(if qos2 then PubcompPacket else PubackPacket) then Ends(Completed) else Undecided
  }

  function ByReply(heard: Word): Sentence {
    if heard.Heard? && heard.verdict.Success? then Ends(Completed)
    else if heard.Heard? && heard.verdict.Failure? then Ends(Refused)
    else Undecided
  }

  function Due(t: seq<Event>, id: nat, kind: Kind): Sentence {
    Sentenced(kind, LastWritten(t, id), LastReply(t, id))
  }

  /** Everything was cancelled, or a write failed for good, after the call. */
  ghost predicate CalledOff(t: seq<Event>, id: nat) {
    exists i :: 0 <= i < |t| && t[i] == Stopped && Started(id) in t[..i]
  }

  /** Calls that outlive their connection: only the user can make them fail. */
  predicate Lasts(kind: Kind) { !kind.OneShot? && !kind.Receive? }

  /** An operation ends as it is due to. One of which nothing is decided fails; if it
      outlives its connection, it was cancelled. (The client's own DISCONNECT is
      done with when its connection is.) */
  ghost predicate Rightly(t: seq<Event>, id: nat, ending: Ending, kind: Kind) {
    match Due(t, id, kind)
    case Ends(due) => ending == due
    case Undecided =>
      || (ending.Failed? && (Lasts(kind) ==> CalledOff(t, id) || Dropped(id) in t))
      || (ending.Completed? && kind == Disconnect(false))
  }

  /** Every operation ended as it was due to. */
  ghost predicate EndRightly(t: seq<Event>) {
    forall i :: 0 <= i < |t| && t[i].Finished? ==> Rightly(t[..i], t[i].id, t[i].ending, t[i].kind)
  }

  /** What the events put in the receive channel. */
  function Deliveries(t: seq<Event>): seq<Delivery> {
    if t == [] then [] else Deliveries(t[..|t| - 1]) + Brings(t[|t| - 1])
  }

  function Brings(e: Event): seq<Delivery> {
    if e.Arrived? then [Delivery(0, e.msg)]
    else if e.Finished? && e.ending.Completed? && e.kind.Receive? then
      [Delivery(if e.kind.qos2 then 2 else 1, e.kind.msg)]
    else []
  }

  /** The QoS 0 messages among them. */
  function Arrivals(t: seq<Event>): seq<nat> {
    if t == [] then []
    else Arrivals(t[..|t| - 1]) + (if t[|t| - 1].Arrived? then [t[|t| - 1].msg] else [])
  }

  // ----- the invariant

  /** While the operations `told` are in the hands of a handler, and when the QoS 0
      messages `got` have been read. */
  ghost predicate Fair(c: State, told: set<nat>, got: seq<nat>) {
    && EndRightly(c.h.trace)
    && c.channel == Deliveries(c.h.trace) && got == Arrivals(c.h.trace)
    && (forall id :: id in c.h.ops ==> Started(id) in c.h.trace)
    && (forall id :: id in c.h.ops && id !in told ==> Due(c.h.trace, id, c.h.ops[id].kind).Undecided?)
    && (forall id :: id in c.cancelled ==> Dropped(id) in c.h.trace)
    && Excused(c.h.trace, c.posted)
  }

  /** The same, folded: the proofs of the handlers do not look inside. */
  ghost predicate Just(c: State, told: set<nat>, got: seq<nat>) {
    forall k :: Look(k) ==> Fair(c, told, got)
  }

  lemma Open(c: State, told: set<nat>, got: seq<nat>)
    requires Just(c, told, got)
    ensures Fair(c, told, got)
  {
    assert Look(0);
  }

  lemma Close(c: State, told: set<nat>, got: seq<nat>)
    requires Fair(c, told, got)
    ensures Just(c, told, got)
  {
  }

  /** Whoever outlives its connection is aborted only if everything was. */
  ghost predicate Excused(t: seq<Event>, s: seq<Posted>) {
    forall p :: p in s && p.outcome.Aborted? && Lasts(p.item.op.kind) ==> CalledOff(t, p.item.op.id)
  }

  lemma Extended(t: seq<Event>, e: Event)
    ensures forall id :: LastReply(t + [e], id) == HeardAfter(LastReply(t, id), id, e)
    ensures forall id :: LastWritten(t + [e], id) == WroteAfter(LastWritten(t, id), id, e)
    ensures Deliveries(t + [e]) == Deliveries(t) + Brings(e)
    ensures Arrivals(t + [e]) == Arrivals(t) + (if e.Arrived? then [e.msg] else [])
  {
    assert (t + [e])[..|t|] == t;
  }

  lemma Unmoved(t: seq<Event>, e: Event, id: nat)
    requires e.Written? || e.Accepted?
    ensures forall kind :: Due(t + [e], id, kind) == Due(t, id, kind)
  {
    Extended(t, e);
  }

  lemma StaysCalledOff(t: seq<Event>, u: seq<Event>)
    requires t <= u
    ensures forall id :: CalledOff(t, id) ==> CalledOff(u, id)
  {
    forall id | CalledOff(t, id) ensures CalledOff(u, id) {
      var i :| 0 <= i < |t| && t[i] == Stopped && Started(id) in t[..i];
      assert u[i] == Stopped && u[..i] == t[..i];
    }
  }

  lemma RightlyExtended(t: seq<Event>, e: Event)
    requires EndRightly(t) && (e.Finished? ==> Rightly(t, e.id, e.ending, e.kind))
    ensures EndRightly(t + [e])
  {
    var u := t + [e];
    assert forall i :: 0 <= i < |t| ==> u[..i] == t[..i] && u[i] == t[i];
    assert u[..|t|] == t;
  }

  /** The part of the state that the invariant speaks about, after one event. */
  ghost predicate Grown(c: State, d: State, e: Event) {
    d.h.trace == c.h.trace + [e] && d.cancelled == c.cancelled && d.posted == c.posted && d.h.ops == c.h.ops
  }

  /** An event that ends nothing, and gives word to nobody else. */
  predicate Mild(e: Event, told: set<nat>) {
    !e.Finished? && !e.Started? && !e.Arrived? && (e.Told? || e.Answered? ==> e.id in told)
  }

  lemma NoteJust(c: State, d: State, told: set<nat>, got: seq<nat>, e: Event)
    requires Just(c, told, got) && Grown(c, d, e) && Mild(e, told) && d.channel == c.channel
    ensures Just(d, told, got)
  {
    Open(c, told, got);
    RightlyExtended(c.h.trace, e);
    Extended(c.h.trace, e);
    StaysCalledOff(c.h.trace, d.h.trace);
    Close(d, told, got);
  }

  lemma EndJust(c: State, d: State, op: Op, ending: Ending, got: seq<nat>)
    requires Just(c, {op.id}, got) && Rightly(c.h.trace, op.id, ending, op.kind)
    requires d == Retire(c, op, ending).(channel := d.channel)
    requires d.channel == c.channel + Brings(Finished(op.id, ending, op.kind))
    ensures Just(d, {}, got)
  {
    Open(c, {op.id}, got);
    var e := Finished(op.id, ending, op.kind);
    RightlyExtended(c.h.trace, e);
    Extended(c.h.trace, e);
    StaysCalledOff(c.h.trace, d.h.trace);
    Close(d, {}, got);
  }

  lemma AdmitJust(c: State, d: State, told: set<nat>, got: seq<nat>, kind: Kind, pid: nat, seqno: nat)
    requires Just(c, told, got) && d == Admit(c, kind, pid, seqno)
    ensures Just(d, told, got)
  {
    Open(c, told, got);
    var t, u, e := c.h.trace, d.h.trace, Started(c.h.next);
    RightlyExtended(t, e);
    Extended(t, e);
    StaysCalledOff(t, u);
    forall id | id in d.h.ops ensures Started(id) in u && (id !in told ==> Due(u, id, d.h.ops[id].kind).Undecided?) {
      Begun(t, id, c.h.next, d.h.ops[id].kind);
    }
    Close(d, told, got);
  }

  lemma Begun(t: seq<Event>, id: nat, next: nat, kind: Kind)
    ensures var u := t + [Started(next)];
      && (id == next ==> Due(u, id, kind).Undecided? && Started(id) in u)
      && (id != next ==> Due(u, id, kind) == Due(t, id, kind) && (Started(id) in t ==> Started(id) in u))
  {
    Extended(t, Started(next));
  }

  ghost predicate Same(c: State, d: State) {
    d.h.ops == c.h.ops && d.cancelled == c.cancelled && d.posted == c.posted && d.channel == c.channel
  }

  lemma {:induction false} HandJust(c: State, d: State, told: set<nat>, got: seq<nat>, s: seq<Request>)
    requires Just(c, told, got) && Same(c, d) && d.h.trace == c.h.trace + HandedEvents(s)
    ensures Just(d, told, got)
    decreases |s|
  {
    Open(c, told, got);
    if s != [] {
      var front := s[..|s| - 1];
      var b := d.(h := d.h.(trace := c.h.trace + HandedEvents(front)));
      HandJust(c, b, told, got, front);
      Seqs.Assoc(c.h.trace, HandedEvents(front), [HandedEvent(s[|s| - 1])]);
      NoteJust(b, d, told, got, HandedEvent(s[|s| - 1]));
    } else {
      assert d.h.trace == c.h.trace;
    }
  }

  lemma PumpJust(c: State, d: State, told: set<nat>, got: seq<nat>)
    requires Just(c, told, got) && d == Pump(c)
    ensures Just(d, told, got)
  {
    if d != c { HandJust(c, d, told, got, d.batch); }
  }

  lemma SendJust(c: State, d: State, told: set<nat>, got: seq<nat>, r: Request)
    requires Just(c, told, got) && d == Send(c, r)
    ensures Just(d, told, got)
  {
    PumpJust(c.(queue := c.queue + [r]), d, told, got);
  }

  lemma CompleteJust(c: State, d: State, op: Op, ending: Ending, got: seq<nat>)
    requires Just(c, {op.id}, got) && Rightly(c.h.trace, op.id, ending, op.kind)
    requires d == Complete(c, op, ending) && !(op.kind.Receive? && ending.Completed?)
    ensures Just(d, {}, got)
  {
    var c1 := Retire(c, op, ending);
    EndJust(c, c1, op, ending, got);
    if op.kind.Metered() && c1.limit != MAX_LIMIT {
      PumpJust(c1.(quota := if c1.quota == MAX_LIMIT then 0 else c1.quota + 1), d, {}, got);
    }
  }

  /** Only inbound deliveries wait for a PUBREL. */
  predicate PubrelsInbound(s: seq<Waiter>) {
    forall w :: w in s && w.code.Pubrel? ==> !Lasts(w.item.op.kind)
  }

  /** Nobody waits for a reply on the operation's packet id. */
  predicate Alone(c: State, op: Op) {
    op.kind.Bearing() ==> forall w :: w in c.table && w.pid == op.pid ==> w.code.Pubrel?
  }

  lemma HeldAlone(c: State, op: Op)
    requires Placed(c, multiset{} + multiset{op.id}) && op.id in c.h.ops && c.h.ops[op.id] == op
    ensures Alone(c, op)
  {
    HeldIsNowhere(c, multiset{} + multiset{op.id}, op.id);
    forall w | op.kind.Bearing() && w in c.table && w.pid == op.pid ensures w.code.Pubrel? {
      assert WaiterOk(c.h.ops, w);
    }
  }

  lemma AwaitJust(c: State, d: State, told: set<nat>, got: seq<nat>, item: Item)
    requires Just(c, told, got) && !item.stage.Writes() && Fits(item) && d == AwaitReply(c, item)
    requires PubrelsInbound(c.table)
    requires Alone(c, item.op)
    ensures Just(d, told, got)
  {
    Open(c, told, got);
    var i := FindWaiter(c.table, AwaitedCode(item.stage), item.op.pid);
    if i < |c.table| { assert c.table[i] in c.table; }
    Close(d, told, got);
  }

  // ----- handlers

  /** What the running code knows of the operation in its hands. */
  ghost predicate InHand(c: State, item: Item, got: seq<nat>) {
    Just(c, {}, got) && Tracked(c.h.ops, item) && PubrelsInbound(c.table)
  }

  lemma Taken(c: State, id: nat, got: seq<nat>)
    requires Just(c, {}, got)
    ensures Just(c, {id}, got)
    ensures id in c.h.ops ==> Due(c.h.trace, id, c.h.ops[id].kind).Undecided?
    ensures id in c.cancelled ==> Dropped(id) in c.h.trace
  {
    Open(c, {}, got);
    Close(c, {id}, got);
  }

  lemma FailJust(c: State, d: State, item: Item, got: seq<nat>)
    requires InHand(c, item, got) && d == Complete(c, item.op, Failed)
    requires Lasts(item.op.kind) ==> CalledOff(c.h.trace, item.op.id) || item.op.id in c.cancelled
    ensures Just(d, {}, got)
  {
    Taken(c, item.op.id, got);
    CompleteJust(c, d, item.op, Failed, got);
  }

  lemma PublishAgainJust(c: State, d: State, item: Item, got: seq<nat>)
    requires InHand(c, item, got) && item.op.kind.Publishes() && d == ResendPublish(c, item)
    ensures Just(d, {}, got)
  {
    if item.op.id in c.cancelled {
      FailJust(c, d, item, got);
    } else {
      SendJust(c, d, {}, got, PublishRequest(item.(stage := OnPublish)));
    }
  }

  lemma SubscribeAgainJust(c: State, d: State, item: Item, got: seq<nat>)
    requires InHand(c, item, got) && d == ResendSubscribe(c, item)
    ensures Just(d, {}, got)
  {
    if item.op.id in c.cancelled {
      FailJust(c, d, item, got);
    } else {
      SendJust(c, d, {}, got, PlainRequest(item.(stage := OnSubscribe)));
    }
  }

  lemma StartOverJust(c: State, d: State, item: Item, got: seq<nat>)
    requires InHand(c, item, got) && !item.stage.Writes() && d == OnResend(c, item)
    ensures Just(d, {}, got)
  {
    match item.stage
    case OnPuback => PublishAgainJust(c, d, item.(dup := true), got);
    case OnPubrec => PublishAgainJust(c, d, item.(dup := true), got);
    case OnPubcomp => SendJust(c, d, {}, got, PubrelRequest(item.(stage := OnPubrel), true));
    case OnSuback => SubscribeAgainJust(c, d, item, got);
    case OnRecPubrel => AwaitJust(c, d, {}, got, item);
  }

  lemma TryAgainJust(c: State, d: State, item: Item, got: seq<nat>)
    requires InHand(c, item, got) && item.stage.Writes() && d == OnTryAgain(c, item)
    ensures Just(d, {}, got)
  {
    match item.stage
    case OnPublish => PublishAgainJust(c, d, item, got);
    case OnPubrel => SendJust(c, d, {}, got, PubrelRequest(item, true));
    case OnSubscribe => SubscribeAgainJust(c, d, item, got);
    case OnDisconnect =>
      if item.op.kind.retry {
        SendJust(c, d, {}, got, PlainRequest(item));
      } else {
        CompleteJust(c, d, item.op, Completed, got);
      }
    case OnOneShot => FailJust(c, d, item, got);
    case OnRecPuback => FailJust(c, d, item, got);
    case OnRecPubrec => FailJust(c, d, item, got);
    case OnRecPubcomp => AwaitJust(c, d, {}, got, item.(stage := OnRecPubrel));
  }

  /** Nothing is decided yet of an operation that was just given word. */
  lemma StillOpen(c: State, id: nat, got: seq<nat>)
    requires Just(c, {id}, got) && id in c.h.ops && Due(c.h.trace, id, c.h.ops[id].kind).Undecided?
    ensures Just(c, {}, got)
  {
    Open(c, {id}, got);
  }

  lemma DeliverJust(c: State, d: State, op: Op, got: seq<nat>)
    requires Just(c, {op.id}, got) && op.kind.Receive? && d == Deliver(c, op)
    requires Due(c.h.trace, op.id, op.kind) == Ends(Completed)
    ensures Just(d, {}, got)
  {
    EndJust(c, d, op, Completed, got);
  }

  /** The operation waits for its reply; nobody else does. */
  lemma WaitJust(c: State, d: State, item: Item, next: Item, got: seq<nat>)
    requires Just(c, {item.op.id}, got) && Tracked(c.h.ops, item) && PubrelsInbound(c.table)
    requires Due(c.h.trace, item.op.id, item.op.kind).Undecided?
    requires next.op == item.op && !next.stage.Writes() && Fits(next) && d == AwaitReply(c, next)
    requires Alone(c, item.op)
    ensures Just(d, {}, got)
  {
    StillOpen(c, item.op.id, got);
    AwaitJust(c, d, {}, got, next);
  }

  /** The operation is done with when this packet is written. */
  predicate IsLast(item: Item) {
    item.op.kind.Qos0? || item.stage.OnDisconnect? || item.stage.OnOneShot?
    || item.stage.OnRecPuback? || item.stage.OnRecPubcomp?
  }

  /** The operation has just been told that its packet was written. */
  ghost predicate Reported(c: State, item: Item, got: seq<nat>) {
    && Just(c, {item.op.id}, got) && Tracked(c.h.ops, item) && PubrelsInbound(c.table)
    && item.stage.Writes()
    && Due(c.h.trace, item.op.id, item.op.kind) == (if IsLast(item) then Ends(Completed) else Undecided)
    && Alone(c, item.op)
  }

  lemma ReportJust(b: State, c: State, item: Item, got: seq<nat>)
    requires InHand(b, item, got) && item.stage.Writes()
    requires c == Log(b, Told(item.op.id, PacketOf(item.stage))) && Alone(b, item.op)
    ensures Reported(c, item, got)
  {
    Taken(b, item.op.id, got);
    NoteJust(b, c, {item.op.id}, got, Told(item.op.id, PacketOf(item.stage)));
    Extended(b.h.trace, Told(item.op.id, PacketOf(item.stage)));
  }

  lemma PublishedJust(c: State, d: State, item: Item, got: seq<nat>)
    requires Reported(c, item, got) && item.stage.OnPublish? && item.op.kind.Metered() && d == OnWritten(c, item)
    ensures Just(d, {}, got)
  {
    var op, e := item.op, Written(item.op.id);
    var c1, next := Log(c, e), item.(stage := if op.kind.Qos1? then OnPuback else OnPubrec);
    NoteJust(c, c1, {op.id}, got, e);
    Unmoved(c.h.trace, e, op.id);
    WaitJust(c1, d, item, next, got);
  }

  lemma WrittenJust(c: State, d: State, item: Item, got: seq<nat>)
    requires Reported(c, item, got) && d == OnWritten(c, item)
    ensures Just(d, {}, got)
  {
    match item.stage
    case OnPublish =>
      if item.op.kind.Qos0? {
        CompleteJust(c, d, item.op, Completed, got);
      } else {
        PublishedJust(c, d, item, got);
      }
    case OnPubrel => WaitJust(c, d, item, item.(stage := OnPubcomp), got);
    case OnSubscribe => WaitJust(c, d, item, item.(stage := OnSuback), got);
    case OnDisconnect => CompleteJust(c, d, item.op, Completed, got);
    case OnOneShot => CompleteJust(c, d, item.op, Completed, got);
    case OnRecPuback => DeliverJust(c, d, item.op, got);
    case OnRecPubrec => WaitJust(c, d, item, item.(stage := OnRecPubrel), got);
    case OnRecPubcomp => DeliverJust(c, d, item.op, got);
  }

  lemma MalformJust(c: State, d: State, op: Op, got: seq<nat>)
    requires Just(c, {}, got) && d == Malform(c, op)
    ensures Just(d, {}, got)
  {
    var c1 := Log(c, Complaint(op));
    NoteJust(c, c1, {}, got, Complaint(op));
    var c2 := Admit(c1, Disconnect(false), 0, 0);
    AdmitJust(c1, c2, {}, got, Disconnect(false), 0, 0);
    SendJust(c2, d, {}, got, PlainRequest(Item(c2.h.ops[c.h.next], OnDisconnect, false)));
  }

  /** The operation has just been given a reply that decides nothing. */
  lemma MalformedJust(c: State, d: State, item: Item, got: seq<nat>)
    requires InHand(c, item, got) && !item.stage.Writes() && item.op.id < c.h.next
    requires d == OnResend(Malform(c, item.op), item)
    ensures Just(d, {}, got)
  {
    var c1 := Malform(c, item.op);
    MalformJust(c, c1, item.op, got);
    StartOverJust(c1, d, item, got);
  }

  /** The operation has just been given a reply. */
  ghost predicate Given(c: State, item: Item, v: Verdict, got: seq<nat>) {
    && Just(c, {item.op.id}, got) && Tracked(c.h.ops, item) && PubrelsInbound(c.table) && item.op.id < c.h.next
    && !item.stage.Writes() && LastReply(c.h.trace, item.op.id) == Heard(AwaitedCode(item.stage), v)
    && (item.op.kind.Receive? ==> Due(c.h.trace, item.op.id, item.op.kind).Undecided?)
  }

  lemma GiveJust(b: State, c: State, item: Item, reply: Reply, got: seq<nat>)
    requires InHand(b, item, got) && !item.stage.Writes() && reply.code == AwaitedCode(item.stage)
    requires c == Log(b, Answered(item.op.id, reply.readAt, reply.code, reply.verdict)) && item.op.id < b.h.next
    ensures Given(c, item, reply.verdict, got)
  {
    Taken(b, item.op.id, got);
    var e := Answered(item.op.id, reply.readAt, reply.code, reply.verdict);
    NoteJust(b, c, {item.op.id}, got, e);
    Extended(b.h.trace, e);
  }

  lemma AcceptJust(c: State, d: State, item: Item, got: seq<nat>)
    requires Given(c, item, Success, got) && item.stage.OnPubrec?
    requires d == Send(Log(c, Accepted(item.op.id)), PubrelRequest(item.(stage := OnPubrel), false))
    ensures Just(d, {}, got)
  {
    var c1 := Log(c, Accepted(item.op.id));
    StillOpen(c, item.op.id, got);
    NoteJust(c, c1, {}, got, Accepted(item.op.id));
    SendJust(c1, d, {}, got, PubrelRequest(item.(stage := OnPubrel), false));
  }

  lemma GivenJust(c: State, d: State, item: Item, v: Verdict, got: seq<nat>)
    requires Given(c, item, v, got) && !v.Malformed? && d == Acknowledge(c, item, v)
    ensures Just(d, {}, got)
  {
    if item.stage.OnRecPubrel? {
      StillOpen(c, item.op.id, got);
      SendJust(c, d, {}, got, PlainRequest(item.(stage := OnRecPubcomp)));
    } else if item.stage.OnPubrec? && v.Success? {
      AcceptJust(c, d, item, got);
    } else {
      CompleteJust(c, d, item.op, EndingOf(v), got);
    }
  }

  lemma AnswerJust(b: State, d: State, item: Item, reply: Reply, got: seq<nat>)
    requires InHand(b, item, got) && !item.stage.Writes() && reply.code == AwaitedCode(item.stage)
    requires item.op.id < b.h.next && d == OnAnswer(b, item, reply)
    ensures Just(d, {}, got)
  {
    var c := Log(b, Answered(item.op.id, reply.readAt, reply.code, reply.verdict));
    GiveJust(b, c, item, reply, got);
    AnswerCases(b, item, reply);
    if reply.verdict.Malformed? {
      StillOpen(c, item.op.id, got);
      MalformedJust(c, d, item, got);
    } else {
      GivenJust(c, d, item, reply.verdict, got);
    }
  }

  // ----- steps

  lemma SameJust(c: State, d: State, told: set<nat>, got: seq<nat>)
    requires Just(c, told, got) && Same(c, d) && d.h.trace == c.h.trace
    ensures Just(d, told, got)
  {
    Open(c, told, got);
    Close(d, told, got);
  }

  lemma WaitInbound(ops: map<nat, Op>, s: seq<Waiter>)
    requires AllWaiters(ops, s)
    ensures PubrelsInbound(s)
  {
    forall w | w in s && w.code.Pubrel? ensures !Lasts(w.item.op.kind) {
      assert WaiterOk(ops, w);
    }
  }

  lemma CallJust(c: State, d: State, kind: Kind, pid: nat, seqno: nat, r: Request, got: seq<nat>)
    requires Just(c, {}, got) && d == Send(Admit(c, kind, pid, seqno), r)
    ensures Just(d, {}, got)
  {
    var c1 := Admit(c, kind, pid, seqno);
    AdmitJust(c, c1, {}, got, kind, pid, seqno);
    SendJust(c1, d, {}, got, r);
  }

  lemma PublishJust(c: State, d: State, kind: Kind, check: Check, got: seq<nat>)
    requires Just(c, {}, got) && kind.Publishes() && d == CallPublish(c, kind, check)
    ensures Just(d, {}, got)
  {
    var pid, c1 := if kind.Qos0? then 0 else LeastFreeFrom(c.inUse, 1), NextSerial(c);
    SameJust(c, c1, {}, got);
    if !((!kind.Qos0? && pid == 0) || check.Invalid?) && !check.TooLarge? {
      var item := Item(Op(c.h.next, kind, pid, c1.h.published), OnPublish, false);
      CallJust(c1, d, kind, pid, c1.h.published, PublishRequest(item), got);
    }
  }

  lemma PlainJust(c: State, d: State, kind: Kind, pid: nat, stage: Stage, got: seq<nat>)
    requires Just(c, {}, got)
    requires d == Send(Admit(c, kind, pid, 0), PlainRequest(Item(Op(c.h.next, kind, pid, 0), stage, false)))
    ensures Just(d, {}, got)
  {
    CallJust(c, d, kind, pid, 0, PlainRequest(Item(Op(c.h.next, kind, pid, 0), stage, false)), got);
  }

  lemma CallsJust(c: State, s: Step, got: seq<nat>)
    requires Just(c, {}, got) && WellShaped(c) && Enabled(c, s)
    requires s.PublishStep? || s.SubscribeStep? || s.OtherStep? || s.ReceiveStep?
    ensures Just(Next(c, s), {}, got)
  {
    var d := Next(c, s);
    match s
    case PublishStep(kind, check) => PublishJust(c, d, kind, check, got);
    case SubscribeStep(check) =>
      if d != c { PlainJust(c, d, Subscribe, LeastFreeFrom(c.inUse, 1), OnSubscribe, got); }
    case OtherStep(kind) => PlainJust(c, d, kind, 0, if kind.OneShot? then OnOneShot else OnDisconnect, got);
    case ReceiveStep(kind, pid) => PlainJust(c, d, kind, pid, if kind.qos2 then OnRecPubrec else OnRecPuback, got);
  }

  lemma TellJust(c: State, d: State, got: seq<nat>)
    requires Placed(c, multiset{}) && Just(c, {}, got) && c.done != [] && RequestsFit(c.done) && d == TellNext(c)
    ensures Just(d, {}, got)
  {
    var item, b := c.done[0].item, c.(done := c.done[1..]);
    assert c.done[0] in c.done;
    TakeTold(c);
    HeldAlone(b, item.op);
    WaitInbound(c.h.ops, c.table);
    SameJust(c, b, {}, got);
    ReportJust(b, Telling(c), item, got);
    var c1 := OnWritten(Telling(c), item);
    WrittenJust(Telling(c), c1, item, got);
    PumpJust(c1, Pump(c1), {}, got);
  }

  // ----- a new connection

  lemma {:induction false} WaitersJust(c: State, s: seq<Waiter>, reqs: seq<Request>, got: seq<nat>)
    requires Holding(c, s, reqs) && WaitersFit(s) && Just(c, {}, got)
    ensures var d := ResendWaiters(c, s); Just(d, {}, got) && Holding(d, [], reqs)
    decreases |s|
  {
    if s != [] {
      assert s[0] in s && WaiterOk(c.h.ops, s[0]);
      var d := OnResend(c, s[0].item);
      WaitInbound(c.h.ops, c.table);
      StartOverJust(c, d, s[0].item, got);
      NextWaiter(c, d, s, reqs);
      WaitersJust(d, s[1..], reqs, got);
    }
  }

  lemma {:induction false} RequestsJust(c: State, s: seq<Request>, got: seq<nat>)
    requires Holding(c, [], s) && RequestsFit(s) && Just(c, {}, got)
    ensures Just(RetryRequests(c, s), {}, got)
    decreases |s|
  {
    if s != [] {
      assert s[0] in s && RequestOk(c.h.ops, s[0]);
      var d := OnTryAgain(c, s[0].item);
      WaitInbound(c.h.ops, c.table);
      TryAgainJust(c, d, s[0].item, got);
      NextRequest(c, d, s);
      RequestsJust(d, s[1..], got);
    }
  }

  lemma ResendJust(c: State, d: State, limit: nat, got: seq<nat>)
    requires Placed(c, multiset{}) && WaitersFit(c.table) && RequestsFit(c.queue) && Just(c, {}, got)
    requires d == Resend(c, limit)
    ensures Just(d, {}, got)
  {
    if !c.writing {
      var c0 := Log(c, EpochEvent(c));
      NoteJust(c, c0, {}, got, EpochEvent(c));
      var c1 := c0.(writing := true, limit := limit, quota := limit, queue := [], table := []);
      SameJust(c0, c1, {}, got);
      RefillPlaced(c, c1);
      RefillJust(c1, d, c.table, c.queue, got);
    }
  }

  lemma RefillJust(c: State, d: State, table: seq<Waiter>, queue: seq<Request>, got: seq<nat>)
    requires Holding(c, table, queue) && WaitersFit(table) && RequestsFit(queue) && Just(c, {}, got)
    requires var c2 := RetryRequests(ResendWaiters(c, table), queue);
             d == Pump(c2.(queue := StableSort(c2.queue), writing := false))
    ensures Just(d, {}, got)
  {
    WaitersJust(c, table, queue, got);
    var c1 := ResendWaiters(c, table);
    RequestsJust(c1, queue, got);
    var c2 := RetryRequests(c1, queue);
    SameJust(c2, c2.(queue := StableSort(c2.queue), writing := false), {}, got);
    PumpJust(c2.(queue := StableSort(c2.queue), writing := false), d, {}, got);
  }

  /** The inbound deliveries among them wait with nothing decided. */
  ghost predicate Clearable(t: seq<Event>, s: seq<Waiter>) {
    forall w :: w in s && w.code.Pubrel? ==>
      w.item.op.kind.Receive? && Due(t, w.item.op.id, w.item.op.kind).Undecided?
  }

  lemma {:induction false} ClearJust(c: State, s: seq<Waiter>, kept: seq<Waiter>, got: seq<nat>)
    requires Just(c, {}, got) && Clearable(c.h.trace, s)
    ensures Just(ClearPubrels(c, s, kept), {}, got)
    decreases |s|
  {
    if s == [] {
      SameJust(c, c.(table := kept), {}, got);
    } else if s[0].code.Pubrel? {
      assert s[0] in s;
      var op := s[0].item.op;
      var d := Retire(c, op, Failed);
      Taken(c, op.id, got);
      EndJust(c, d, op, Failed, got);
      Extended(c.h.trace, Finished(op.id, Failed, op.kind));
      ClearJust(d, s[1..], kept, got);
    } else {
      ClearJust(c, s[1..], kept + [s[0]], got);
    }
  }

  lemma SessionJust(c: State, present: bool, got: seq<nat>)
    requires AllWaiters(c.h.ops, c.table) && Just(c, {}, got)
    ensures Just(UpdateSession(c, present), {}, got)
  {
    Open(c, {}, got);
    forall w | w in c.table && w.code.Pubrel?
      ensures w.item.op.kind.Receive? && Due(c.h.trace, w.item.op.id, w.item.op.kind).Undecided?
    {
      assert WaiterOk(c.h.ops, w);
    }
    if !present { ClearJust(c, c.table, [], got); }
  }

  lemma ReadAgainJust(c: State, d: State, present: bool, limit: nat, got: seq<nat>)
    requires Invariant(c) && WellShaped(c) && Enabled(c, ReadAgainStep(present, limit)) && Just(c, {}, got)
    requires d == Next(c, ReadAgainStep(present, limit))
    ensures Just(d, {}, got)
  {
    var c1 := UpdateSession(c, present);
    NoWaiters();
    SessionStep(c, c1, present, []);
    ShapeAfterSession(c, present);
    SessionJust(c, present, got);
    ResendJust(c1, d, limit, got);
  }

  lemma WriteAgainJust(c: State, d: State, present: bool, limit: nat, got: seq<nat>)
    requires Invariant(c) && WellShaped(c) && Enabled(c, WriteAgainStep(present, limit)) && Just(c, {}, got)
    requires d == Next(c, WriteAgainStep(present, limit))
    ensures Just(d, {}, got)
  {
    var c0 := c.(writing := false, batch := []);
    TakenBack(c, c0);
    SameJust(c, c0, {}, got);
    var c1 := UpdateSession(c0, present);
    SessionStep(c0, c1, present, c.batch);
    ShapeAfterSession(c0, present);
    SessionJust(c0, present, got);
    var c2 := c1.(queue := c.batch + c1.queue);
    PutInPlace(c1, c2, c.batch);
    SameJust(c1, c2, {}, got);
    ResendJust(c2, d, limit, got);
  }

  // ----- cancellation

  ghost predicate AllOff(c: State) {
    forall id :: id in c.h.ops ==> CalledOff(c.h.trace, id)
  }

  lemma StopJust(c: State, d: State, got: seq<nat>)
    requires Just(c, {}, got) && d == Log(c, Stopped)
    ensures Just(d, {}, got) && AllOff(d)
  {
    NoteJust(c, d, {}, got, Stopped);
    Open(c, {}, got);
    forall id | id in d.h.ops ensures CalledOff(d.h.trace, id) {
      assert d.h.trace[..|c.h.trace|] == c.h.trace && d.h.trace[|c.h.trace|] == Stopped;
    }
  }

  lemma StaysOff(c: State, d: State, op: Op)
    requires AllOff(c) && d == Complete(c, op, Failed)
    ensures AllOff(d)
  {
    var c1 := Retire(c, op, Failed);
    var c2 := c1.(quota := if c1.quota == MAX_LIMIT then 0 else c1.quota + 1);
    PumpExtends(c2);
    PumpKeepsOps(c2);
    StaysCalledOff(c.h.trace, d.h.trace);
  }

  lemma {:induction false} AbortJust(c: State, s: seq<Request>, got: seq<nat>)
    requires Holding(c, [], s) && RequestsFit(s) && Just(c, {}, got) && AllOff(c)
    ensures Just(AbortAll(c, s), {}, got)
    decreases |s|
  {
    if s != [] {
      assert s[0] in s && RequestOk(c.h.ops, s[0]);
      var d := OnAbort(c, s[0].item);
      WaitInbound(c.h.ops, c.table);
      FailJust(c, d, s[0].item, got);
      NextRequest(c, d, s);
      StaysOff(c, d, s[0].item.op);
      AbortJust(d, s[1..], got);
    }
  }

  lemma WriteAbortJust(c: State, d: State, got: seq<nat>)
    requires Invariant(c) && WellShaped(c) && Just(c, {}, got)
    requires d == AbortAll(Log(c, Stopped).(writing := false, batch := []), c.batch)
    ensures Just(d, {}, got)
  {
    var c1 := Log(c, Stopped);
    StopJust(c, c1, got);
    LogStep(c, c1, multiset{}, Stopped, true);
    var c2 := c1.(writing := false, batch := []);
    TakenBack(c1, c2);
    SameJust(c1, c2, {}, got);
    NoWaiters();
    AbortJust(c2, c.batch, got);
  }

  lemma CancelAllJust(c: State, d: State, got: seq<nat>)
    requires Placed(c, multiset{}) && Just(c, {}, got) && d == CancelAll(c)
    ensures Just(d, {}, got)
  {
    var c1 := Log(c, Stopped);
    StopJust(c, c1, got);
    Open(c1, {}, got);
    forall p | p in d.posted && p.outcome.Aborted? && Lasts(p.item.op.kind)
      ensures CalledOff(d.h.trace, p.item.op.id)
    {
      PostedFrom(c, p);
      if p !in c.posted { assert Tracked(c.h.ops, p.item); }
    }
    Close(d, {}, got);
  }

  lemma CancelOneJust(c: State, d: State, id: nat, got: seq<nat>)
    requires Just(c, {}, got) && d == Log(c, Dropped(id)).(cancelled := c.cancelled + {id})
    ensures Just(d, {}, got)
  {
    var c1 := Log(c, Dropped(id));
    NoteJust(c, c1, {}, got, Dropped(id));
    Open(c1, {}, got);
    assert c1.h.trace[|c.h.trace|] == Dropped(id);
    Close(d, {}, got);
  }

  lemma ArriveJust(c: State, d: State, msg: nat, got: seq<nat>)
    requires Just(c, {}, got) && d == Log(c, Arrived(msg)).(channel := c.channel + [Delivery(0, msg)])
    ensures Just(d, {}, got + [msg])
  {
    Open(c, {}, got);
    RightlyExtended(c.h.trace, Arrived(msg));
    Extended(c.h.trace, Arrived(msg));
    StaysCalledOff(c.h.trace, d.h.trace);
    Close(d, {}, got + [msg]);
  }

  // ----- replies

  lemma ReadJust(c: State, d: State, reply: Reply, got: seq<nat>)
    requires Placed(c, multiset{}) && WaitersFit(c.table) && Just(c, {}, got) && d == ReadReply(c, reply)
    ensures Just(d, {}, got)
  {
    var r := reply.(readAt := |c.h.trace|);
    var i := FindWaiter(c.table, r.code, r.pid);
    if i == |c.table| {
      SameJust(c, d, {}, got);
    } else {
      assert c.table[i] in c.table && WaiterOk(c.h.ops, c.table[i]);
      WaitInbound(c.h.ops, c.table);
      var c1 := c.(table := Without(c.table, i));
      SameJust(c, c1, {}, got);
      AnswerJust(c1, d, c.table[i].item, r, got);
    }
  }

  lemma RunPostedJust(c: State, d: State, got: seq<nat>)
    requires Placed(c, multiset{}) && c.posted != [] && PostedFit(c.posted) && Just(c, {}, got) && d == RunPosted(c)
    ensures Just(d, {}, got)
  {
    var p, c1 := c.posted[0], c.(posted := c.posted[1..]);
    assert p in c.posted && PostedOk(c.h.ops, p);
    WaitInbound(c.h.ops, c.table);
    Open(c, {}, got);
    Close(c1, {}, got);
    if p.outcome.Got? {
      AnswerJust(c1, d, p.item, p.outcome.reply, got);
    } else {
      FailJust(c1, d, p.item, got);
    }
  }

  // ----- runs

  /** The messages of the QoS 0 PUBLISHes that the steps read. */
  function Qos0Read(steps: seq<Step>): seq<nat> {
    if steps == [] then []
    else
      var s := steps[|steps| - 1];
      Qos0Read(steps[..|steps| - 1]) + (if s.ReceiveQos0Step? then [s.msg] else [])
  }

  lemma StepJust(c: State, s: Step, got: seq<nat>)
    requires Invariant(c) && WellShaped(c) && Enabled(c, s) && Just(c, {}, got)
    ensures Just(Next(c, s), {}, got + if s.ReceiveQos0Step? then [s.msg] else [])
  {
    var d := Next(c, s);
    assert got + [] == got;
    match s {
      case PublishStep(kind, check) => CallsJust(c, s, got);
      case SubscribeStep(check) => CallsJust(c, s, got);
      case OtherStep(kind) => CallsJust(c, s, got);
      case ReceiveStep(kind, pid) => CallsJust(c, s, got);
      case ReceiveQos0Step(msg) => ArriveJust(c, d, msg, got);
      case WriteOkStep => SameJust(c, d, {}, got);
      case TellNextStep => TellJust(c, d, got);
      case WriteAgainStep(present, limit) => WriteAgainJust(c, d, present, limit, got);
      case WriteAbortStep => WriteAbortJust(c, d, got);
      case ReadReplyStep(reply) => ReadJust(c, d, reply, got);
      case ReadAgainStep(present, limit) => ReadAgainJust(c, d, present, limit, got);
      case PostedStep => RunPostedJust(c, d, got);
      case CancelOneStep(id) => CancelOneJust(c, d, id, got);
      case CancelAllStep => CancelAllJust(c, d, got);
    }
  }

  lemma OneStepJust(states: seq<State>, steps: seq<Step>, k: nat, got: seq<nat>)
    requires IsRun(states, steps) && k < |steps| && Just(states[k], {}, got)
    ensures Just(states[k + 1], {}, got + if steps[k].ReceiveQos0Step? then [steps[k].msg] else [])
  {
    RunKeeps(states, steps, k);
    assert Follows(states[k], steps[k], states[k + 1]);
    FollowsJust(states[k], steps[k], states[k + 1], got);
  }

  lemma FollowsJust(c: State, s: Step, d: State, got: seq<nat>)
    requires Sane(c) && Follows(c, s, d) && Just(c, {}, got)
    ensures Just(d, {}, got + if s.ReceiveQos0Step? then [s.msg] else [])
  {
    StepJust(c, s, got);
  }

  lemma BeginJust()
    ensures Just(Initial, {}, [])
  {
  }

  lemma {:induction false} RunJust(states: seq<State>, steps: seq<Step>, i: nat)
    requires IsRun(states, steps) && i <= |steps|
    ensures Just(states[i], {}, Qos0Read(steps[..i]))
  {
    if i == 0 {
      BeginJust();
    } else {
      var k := i - 1;
      RunJust(states, steps, k);
      OneStepJust(states, steps, k, Qos0Read(steps[..k]));
      assert steps[..i][..k] == steps[..k];
    }
  }

  lemma ReachableJust(c: State) returns (got: seq<nat>)
    requires Reachable(c)
    ensures Fair(c, {}, got)
  {
    var states, steps :| IsRun(states, steps) && c == states[|steps|];
    RunJust(states, steps, |steps|);
    got := Qos0Read(steps[..|steps|]);
    Open(c, {}, got);
  }

  /** In every run: a QoS 1 or SUBSCRIBE operation ended well if and only if the last
      reply it was given was a success, and was refused if and only if that reply was
      a failure; a QoS 2 one likewise, a PUBCOMP deciding on success. */
  lemma AnsweredEndings(c: State, i: nat)
    requires Reachable(c) && i < |c.h.trace| && c.h.trace[i].Finished? && c.h.trace[i].kind.Bearing()
    ensures var e, reply := c.h.trace[i], LastReply(c.h.trace[..i], c.h.trace[i].id);
      && (!e.kind.Qos2? ==> (e.ending == Completed <==> reply.Heard? && reply.verdict == Success))
      && (!e.kind.Qos2? ==> (e.ending == Refused <==> reply.Heard? && reply.verdict == Failure))
      && (e.kind.Qos2? ==> (e.ending == Completed <==> reply == Heard(Pubcomp, Success)))
      && (e.kind.Qos2? ==> (e.ending == Refused <==> reply == Heard(Pubrec, Failure) || reply == Heard(Pubcomp, Failure)))
  {
    var got := ReachableJust(c);
    var e := c.h.trace[i];
    assert Rightly(c.h.trace[..i], e.id, e.ending, e.kind);
  }

  /** The others end well if and only if their last packet was reported written:
      PUBLISH, PUBACK, PUBCOMP, or the one packet of a DISCONNECT or PINGREQ. The
      client's own DISCONNECT always does unless it is cancelled. */
  lemma WrittenEndings(c: State, i: nat)
    requires Reachable(c) && i < |c.h.trace| && c.h.trace[i].Finished? && !c.h.trace[i].kind.Bearing()
    ensures var e, wrote := c.h.trace[i], LastWritten(c.h.trace[..i], c.h.trace[i].id);
      && e.ending != Refused
      && (e.kind == Qos0 ==> (e.ending == Completed <==> wrote == Wrote(PublishPacket)))
      && (e.kind == Disconnect(true) || e.kind == OneShot ==> (e.ending == Completed <==> wrote == Wrote(OtherPacket)))
      && (e.kind.Receive? && !e.kind.qos2 ==> (e.ending == Completed <==> wrote == Wrote(PubackPacket)))
      && (e.kind.Receive? && e.kind.qos2 ==> (e.ending == Completed <==> wrote == Wrote(PubcompPacket)))
  {
    var got := ReachableJust(c);
    var e := c.h.trace[i];
    assert Rightly(c.h.trace[..i], e.id, e.ending, e.kind);
  }

  /** A call fails only if it was cancelled, alone or with everything else. */
  lemma FailsOnlyIfCancelled(c: State, i: nat)
    requires Reachable(c) && i < |c.h.trace| && c.h.trace[i].Finished? && c.h.trace[i].ending == Failed
    requires c.h.trace[i].kind.Publishes() || c.h.trace[i].kind.Subscribe? || c.h.trace[i].kind.Disconnect?
    ensures CalledOff(c.h.trace[..i], c.h.trace[i].id) || Dropped(c.h.trace[i].id) in c.h.trace[..i]
  {
    var got := ReachableJust(c);
    var e := c.h.trace[i];
    assert Rightly(c.h.trace[..i], e.id, e.ending, e.kind);
  }

  /** Whoever was given a reply that decides is no longer alive. */
  lemma DecidedIsOver(c: State, id: nat)
    requires Reachable(c) && id in c.h.ops
    ensures var kind, reply := c.h.ops[id].kind, LastReply(c.h.trace, id);
      && (kind.Qos1? || kind.Subscribe? ==> !(reply.Heard? && (reply.verdict == Success || reply.verdict == Failure)))
      && (kind.Qos2? ==> reply !in {Heard(Pubrec, Failure), Heard(Pubcomp, Success), Heard(Pubcomp, Failure)})
  {
    var got := ReachableJust(c);
    assert Due(c.h.trace, id, c.h.ops[id].kind).Undecided?;
  }

  /** The receive channel of every run: the QoS 0 messages that were read, and the
      message of every inbound delivery that ended well, in that order. */
  lemma ReceivedExactly(states: seq<State>, steps: seq<Step>)
    requires IsRun(states, steps)
    ensures var c := states[|steps|];
      c.channel == Deliveries(c.h.trace) && Arrivals(c.h.trace) == Qos0Read(steps)
  {
    RunJust(states, steps, |steps|);
    assert steps[..|steps|] == steps;
    Open(states[|steps|], {}, Qos0Read(steps));
  }

  // ----- one reply

  /** A reply that decides ends the operation at once: a success ends it well, and a
      failure refuses it. */
  lemma RepliesDecide(c: State, item: Item, reply: Reply)
    requires Fits(item) && (item.stage.OnPuback? || item.stage.OnPubcomp? || item.stage.OnSuback?)
    requires !reply.verdict.Malformed?
    ensures var d := OnAnswer(c, item, reply);
      && c.h.trace + [Answered(item.op.id, reply.readAt, reply.code, reply.verdict),
                      Finished(item.op.id, if reply.verdict == Success then Completed else Refused, item.op.kind)]
         <= d.h.trace
      && d.h.ops == c.h.ops - {item.op.id}
  {
    var ending := if reply.verdict == Success then Completed else Refused;
    var c1 := Log(c, Answered(item.op.id, reply.readAt, reply.code, reply.verdict));
    var c2 := Retire(c1, item.op, ending);
    assert c2.h.trace == c.h.trace + [Answered(item.op.id, reply.readAt, reply.code, reply.verdict),
                                      Finished(item.op.id, ending, item.op.kind)];
    var c3 := c2.(quota := if c2.quota == MAX_LIMIT then 0 else c2.quota + 1);
    PumpExtends(c3);
    PumpKeepsOps(c3);
  }
}
