/**
 The program's own form of the engine: one object whose member functions edit
 the write queue, the reply table and the free packet ids in place. Each of them
 is proved to do what the function of the same name in `Client` says, so the
 theorems about runs of `Client` are about these methods.
 */
module Service {
  import opened Requests
  import opened Client
  import opened SerialOrder
  import opened PacketIds
  import opened Places
  import opened Steps
  import opened Resending
  import Seqs

  /** The least free id is unique, so the interval list finds the one that the
      specification names. */
  lemma {:induction false} LeastFreeIsFirst(taken: set<nat>, n: nat, x: nat)
    requires IsLeastFree(taken, x) && 1 <= n && (x != 0 ==> n <= x)
    ensures LeastFreeFrom(taken, n) == x
    decreases MAX_PACKET_ID + 1 - n
  {
    if n <= MAX_PACKET_ID && n in taken {
      LeastFreeIsFirst(taken, n + 1, x);
    }
  }

  /** Insertion by a backward scan. */
  method InsertSorted(s: seq<Request>, x: Request) returns (r: seq<Request>)
    ensures r == Insert(s, x)
  {
    var i := |s|;
    assert s[..i] == s && Insert(s, x) == Insert(s[..i], x) + s[i..];
    while i > 0 && Less(x, s[i - 1])
      invariant 0 <= i <= |s|
      invariant Insert(s, x) == Insert(s[..i], x) + s[i..]
    {
      assert s[..i][..i - 1] == s[..i - 1];
      assert [s[i - 1]] + s[i..] == s[i - 1..];
      Seqs.Assoc(Insert(s[..i - 1], x), [s[i - 1]], s[i..]);
      i := i - 1;
    }
    r := s[..i] + [x] + s[i..];
  }

  method SortQueue(s: seq<Request>) returns (r: seq<Request>)
    ensures r == StableSort(s)
  {
    r := [];
    var i := 0;
    while i < |s|
      invariant 0 <= i <= |s|
      invariant r == StableSort(s[..i])
    {
      assert s[..i + 1][..i] == s[..i];
      r := InsertSorted(r, s[i]);
      i := i + 1;
    }
    assert s[..i] == s;
  }

  /** A publish call once its packet id is allocated. */
  function Published(c: State, kind: Kind, pid: nat, check: Check): State {
    var c1 := NextSerial(c);
    if check.TooLarge? then c1.(inUse := if pid != 0 then c1.inUse - {pid} else c1.inUse)
    else Send(Admit(c1, kind, pid, c1.h.published).(inUse := c1.inUse),
              PublishRequest(Item(Op(c1.h.next, kind, pid, c1.h.published), OnPublish, false)))
  }

  lemma PublishCases(c: State, d: State, kind: Kind, pid: nat, check: Check)
    requires kind.Publishes() && (kind.Qos0? ==> pid == 0 && d == c)
    requires !kind.Qos0? ==> pid == LeastFreeFrom(c.inUse, 1) != 0 && d == c.(inUse := c.inUse + {pid})
    ensures CallPublish(c, kind, check)
         == if check.Invalid? then d.(inUse := d.inUse - (if pid != 0 then {pid} else {}))
            else Published(d, kind, pid, check)
  {
    LeastFree(c.inUse, 1);
    var c1, d1 := NextSerial(c), NextSerial(d);
    if !kind.Qos0? {
      assert (c.inUse + {pid}) - {pid} == c.inUse;
    }
    assert Admit(c1, kind, pid, c1.h.published) == Admit(d1, kind, pid, d1.h.published).(inUse := d1.inUse);
  }

  /** What `resend()` relies on: every live operation is in its one place. */
  ghost predicate Resendable(c: State) {
    Placed(c, multiset{}) && WaitersFit(c.table) && RequestsFit(c.queue)
  }

  class ClientService {
    // async_sender
    var queue: seq<Request>
    var writing: bool
    var limit: nat
    var quota: nat
    var lastSerial: nat
    // replies
    var table: seq<Waiter>
    var fast: seq<Reply>
    // packet_id_allocator
    const ids: PacketIdAllocator
    // what the transport and the executor hold
    var batch: seq<Request>
    var done: seq<Request>
    var posted: seq<Posted>
    var channel: seq<Delivery>
    var cancelled: set<nat>
    // which call is which; in the program, the identity of the operation object
    var calls: nat
    var publishCalls: nat
    ghost var h: History

    ghost predicate Tied()
      reads this
    {
      calls == h.next && publishCalls == h.published
    }

    ghost predicate Valid()
      reads this, ids
    {
      ids.Valid() && Tied()
    }

    /** The state of the engine that the fields stand for. */
    ghost function Now(): State
      reads this, ids
    {
      State(queue, writing, batch, done, limit, quota, lastSerial, table, fast, posted,
            ids.taken, channel, cancelled, h)
    }

    constructor ()
      ensures Valid() && fresh(ids) && Now() == Initial
    {
      ids := new PacketIdAllocator();
      queue, writing, limit, quota, lastSerial := [], false, MAX_LIMIT, MAX_LIMIT, 0;
      table, fast, batch, done, posted, channel, cancelled := [], [], [], [], [], [], {};
      calls, publishCalls := 0, 0;
      h := History(map[], map[], 0, 0, []);
    }

    // ----- async_sender

    method FindTerminal() returns (i: nat)
      ensures i == FirstTerminal(queue)
    {
      i := 0;
      while i < |queue| && !queue[i].terminal
        invariant i <= |queue|
        invariant forall j :: 0 <= j < i ==> !queue[j].terminal
      {
        i := i + 1;
      }
    }

    /** The batch goes to the transport; early replies are dropped. */
    method BeginWrite(taken: seq<Request>, left: seq<Request>, rest: nat)
      requires Tied()
      modifies this
      ensures Tied() && Now() == Begin(old(Now()), taken, left, rest)
    {
      ghost var was := Now();
      writing, batch, queue, quota, fast := true, taken, left, rest, [];
      h := h.(trace := h.trace + HandedEvents(taken));
      assert h == Begin(was, taken, left, rest).h;
    }

    /** Moves requests out of the queue while the quota lasts. */
    method Take() returns (share: Share)
      ensures share == Split(queue, quota)
    {
      var taken, left, rest, i := [], [], quota, 0;
      while i < |queue|
        invariant 0 <= i <= |queue|
        invariant var s := Split(queue[i..], rest);
                  Split(queue, quota) == Share(taken + s.taken, left + s.left, s.quota)
      {
        var req := queue[i];
        assert queue[i..][0] == req && queue[i..][1..] == queue[i + 1..];
        if !req.throttled {
          taken := taken + [req];
        } else if rest > 0 {
          rest := rest - 1;
          taken := taken + [req];
        } else {
          left := left + [req];
        }
        i := i + 1;
      }
      share := Share(taken, left, rest);
    }

    method DoWrite()
      requires Tied()
      modifies this
      ensures Tied() && Now() == Pump(old(Now()))
    {
      if writing || queue == [] {
        return;
      }
      var t := FindTerminal();
      if t < |queue| {
        BeginWrite([queue[t]], queue[..t] + queue[t + 1..], quota);
      } else if limit == MAX_LIMIT {
        BeginWrite(queue, [], quota);
      } else {
        var share := Take();
        if share.taken != [] {
          BeginWrite(share.taken, share.left, share.quota);
        }
      }
    }

    method AsyncSend(r: Request)
      requires Tied()
      modifies this
      ensures Tied() && Now() == Send(old(Now()), r)
    {
      queue := queue + [r];
      DoWrite();
    }

    method ThrottledOpDone()
      requires Tied()
      modifies this
      ensures Tied() && Now() == Refund(old(Now()))
    {
      if limit == MAX_LIMIT {
        return;
      }
      quota := if quota == MAX_LIMIT then 0 else quota + 1;
      DoWrite();
    }

    method NextSerialNum()
      requires Tied()
      modifies this
      ensures Tied() && Now() == NextSerial(old(Now()))
    {
      lastSerial := (lastSerial + 1) % SERIAL_MODULUS;
      publishCalls := publishCalls + 1;
      h := h.(published := h.published + 1);
    }

    // ----- replies

    method FindHandler(code: Code, pid: nat) returns (i: nat)
      ensures i == FindWaiter(table, code, pid)
    {
      i := 0;
      while i < |table| && !(table[i].code == code && table[i].pid == pid)
        invariant i <= |table|
        invariant forall j :: 0 <= j < i ==> !(table[j].code == code && table[j].pid == pid)
      {
        i := i + 1;
      }
    }

    method FindFastReply(code: Code, pid: nat) returns (i: nat)
      ensures i == FindReply(fast, code, pid)
    {
      i := 0;
      while i < |fast| && !(fast[i].code == code && fast[i].pid == pid)
        invariant i <= |fast|
        invariant forall j :: 0 <= j < i ==> !(fast[j].code == code && fast[j].pid == pid)
      {
        i := i + 1;
      }
    }

    /** A handler already registered for the same reply is aborted. */
    method AbortDuplicate(code: Code, pid: nat)
      requires Tied()
      modifies this
      ensures Tied() && Now() == Evict(old(Now()), code, pid)
    {
      var i := FindHandler(code, pid);
      if i < |table| {
        posted := posted + [Posted(table[i].item, Aborted)];
        table := table[..i] + table[i + 1..];
      }
    }

    method AsyncWaitReply(item: Item)
      requires Tied() && !item.stage.Writes()
      modifies this
      ensures Tied() && Now() == AwaitReply(old(Now()), item)
    {
      var code, pid := AwaitedCode(item.stage), item.op.pid;
      AbortDuplicate(code, pid);
      var f := FindFastReply(code, pid);
      if f == |fast| {
        table := table + [Waiter(code, pid, item)];
      } else {
        posted := posted + [Posted(item, Got(fast[f]))];
        fast := fast[..f] + fast[f + 1..];
      }
    }

    // ----- operations begin and end

    /** An operation may only give back an id that is in use. */
    ghost predicate MayEnd(op: Op)
      reads this, ids
    {
      op.kind.Bearing() ==> op.pid in ids.taken
    }

    method EndOp(op: Op, ending: Ending)
      requires Valid() && MayEnd(op)
      modifies this, ids
      ensures Valid() && Now() == Retire(old(Now()), op, ending)
    {
      if op.kind.Bearing() {
        ids.Free(op.pid);
      }
      h := h.(ops := h.ops - {op.id},
              owner := if op.kind.Bearing() then h.owner - {op.pid} else h.owner,
              trace := h.trace + [Finished(op.id, ending, op.kind)]);
    }

    method CompleteOp(op: Op, ending: Ending)
      requires Valid() && MayEnd(op)
      modifies this, ids
      ensures Valid() && Now() == Complete(old(Now()), op, ending)
    {
      EndOp(op, ending);
      if op.kind.Metered() {
        ThrottledOpDone();
      }
    }

    method DeliverMessage(op: Op)
      requires Valid() && op.kind.Receive?
      modifies this, ids
      ensures Valid() && Now() == Deliver(old(Now()), op)
    {
      EndOp(op, Completed);
      channel := channel + [Delivery(if op.kind.qos2 then 2 else 1, op.kind.msg)];
    }

    ghost method Record(e: Event)
      requires Tied()
      modifies this`h
      ensures Tied() && Now() == Log(old(Now()), e)
    {
      h := h.(trace := h.trace + [e]);
    }

    /** A new operation; its packet id, if it bears one, is already allocated. */
    method Enter(kind: Kind, pid: nat, seqno: nat) returns (op: Op)
      requires Tied()
      modifies this
      ensures Tied() && op == Op(old(h.next), kind, pid, seqno)
      ensures Now() == Admit(old(Now()), kind, pid, seqno).(inUse := old(ids.taken))
      ensures ids.taken == old(ids.taken)
    {
      op := Op(calls, kind, pid, seqno);
      calls := calls + 1;
      h := h.(ops := h.ops[op.id := op],
              owner := if kind.Bearing() then h.owner[pid := op.id] else h.owner,
              next := h.next + 1, trace := h.trace + [Started(op.id)]);
    }

    method OnMalformedPacket(owner: Op)
      requires Tied()
      modifies this
      ensures Tied() && Now() == Malform(old(Now()), owner)
      ensures ids.taken == old(ids.taken)
    {
      Record(Complaint(owner));
      var op := Enter(Disconnect(false), 0, 0);
      AsyncSend(PlainRequest(Item(op, OnDisconnect, false)));
    }

    // ----- handlers

    method SendAgain(item: Item)
      requires Valid() && item.op.kind.Publishes() && MayEnd(item.op)
      modifies this, ids
      ensures Valid() && Now() == ResendPublish(old(Now()), item)
    {
      if item.op.id in cancelled {
        CompleteOp(item.op, Failed);
      } else {
        AsyncSend(PublishRequest(item.(stage := OnPublish)));
      }
    }

    method SubscribeAgain(item: Item)
      requires Valid() && MayEnd(item.op)
      modifies this, ids
      ensures Valid() && Now() == ResendSubscribe(old(Now()), item)
    {
      if item.op.id in cancelled {
        CompleteOp(item.op, Failed);
      } else {
        AsyncSend(PlainRequest(item.(stage := OnSubscribe)));
      }
    }

    method HandleWritten(item: Item)
      requires Valid() && item.stage.Writes() && Fits(item) && MayEnd(item.op)
      modifies this, ids
      ensures Valid() && Now() == OnWritten(old(Now()), item)
    {
      match item.stage
      case OnPublish =>
        if item.op.kind.Qos0? {
          CompleteOp(item.op, Completed);
        } else {
          Record(Written(item.op.id));
          AsyncWaitReply(item.(stage := if item.op.kind.Qos1? then OnPuback else OnPubrec));
        }
      case OnPubrel => AsyncWaitReply(item.(stage := OnPubcomp));
      case OnSubscribe => AsyncWaitReply(item.(stage := OnSuback));
      case OnDisconnect => CompleteOp(item.op, Completed);
      case OnOneShot => CompleteOp(item.op, Completed);
      case OnRecPuback => DeliverMessage(item.op);
      case OnRecPubrec => AsyncWaitReply(item.(stage := OnRecPubrel));
      case OnRecPubcomp => DeliverMessage(item.op);
    }

    method HandleTryAgain(item: Item)
      requires Valid() && item.stage.Writes() && Fits(item) && MayEnd(item.op)
      modifies this, ids
      ensures Valid() && Now() == OnTryAgain(old(Now()), item)
    {
      match item.stage
      case OnPublish => SendAgain(item);
      case OnPubrel => AsyncSend(PubrelRequest(item, true));
      case OnSubscribe => SubscribeAgain(item);
      case OnDisconnect =>
        if item.op.kind.retry {
          AsyncSend(PlainRequest(item));
        } else {
          CompleteOp(item.op, Completed);
        }
      case OnOneShot => CompleteOp(item.op, Failed);
      case OnRecPuback => CompleteOp(item.op, Failed);
      case OnRecPubrec => CompleteOp(item.op, Failed);
      case OnRecPubcomp => AsyncWaitReply(item.(stage := OnRecPubrel));
    }

    method HandleResend(item: Item)
      requires Valid() && !item.stage.Writes() && Fits(item) && MayEnd(item.op)
      modifies this, ids
      ensures Valid() && Now() == OnResend(old(Now()), item)
    {
      match item.stage
      case OnPuback => SendAgain(item.(dup := true));
      case OnPubrec => SendAgain(item.(dup := true));
      case OnPubcomp => AsyncSend(PubrelRequest(item.(stage := OnPubrel), true));
      case OnSuback => SubscribeAgain(item);
      case OnRecPubrel => AsyncWaitReply(item);
    }

    /** A reply that cannot be decoded: disconnect, and start over. */
    method HandleMalformed(item: Item)
      requires Valid() && !item.stage.Writes() && Fits(item) && MayEnd(item.op)
      modifies this, ids
      ensures Valid() && Now() == OnResend(Malform(old(Now()), item.op), item)
    {
      OnMalformedPacket(item.op);
      HandleResend(item);
    }

    method HandleAnswer(item: Item, reply: Reply)
      requires Valid() && !item.stage.Writes() && Fits(item) && MayEnd(item.op)
      modifies this, ids
      ensures Valid() && Now() == OnAnswer(old(Now()), item, reply)
    {
      Record(Answered(item.op.id, reply.readAt, reply.code, reply.verdict));
      if reply.verdict.Malformed? {
        HandleMalformed(item);
      } else if item.stage.OnPubrec? && reply.verdict.Success? {
        Record(Accepted(item.op.id));
        AsyncSend(PubrelRequest(item.(stage := OnPubrel), false));
      } else if item.stage.OnRecPubrel? {
        AsyncSend(PlainRequest(item.(stage := OnRecPubcomp)));
      } else {
        CompleteOp(item.op, EndingOf(reply.verdict));
      }
    }

    // ----- resend

    lemma HeldMayEnd(item: Item)
      requires IdsOk(h, ids.taken) && Tracked(h.ops, item)
      ensures MayEnd(item.op)
    {
    }

    /** `resend_unanswered`, on the handlers moved out of the table. */
    method ResendUnanswered(ua: seq<Waiter>, ghost reqs: seq<Request>)
      requires Valid() && WaitersFit(ua) && Holding(Now(), ua, reqs)
      modifies this, ids
      ensures Valid() && Now() == ResendWaiters(old(Now()), ua) && Holding(Now(), [], reqs)
    {
      var i := 0;
      while i < |ua|
        invariant 0 <= i <= |ua| && Valid() && Holding(Now(), ua[i..], reqs)
        invariant ResendWaiters(old(Now()), ua) == ResendWaiters(Now(), ua[i..])
      {
        assert ua[i..][1..] == ua[i + 1..];
        StartOver(ua[i], ua[i..], reqs);
        i := i + 1;
      }
    }

    method StartOver(w: Waiter, ghost ua: seq<Waiter>, ghost reqs: seq<Request>)
      requires Valid() && WaitersFit(ua) && Holding(Now(), ua, reqs) && ua != [] && w == ua[0]
      modifies this, ids
      ensures Valid() && Now() == OnResend(old(Now()), w.item) && Holding(Now(), ua[1..], reqs)
    {
      assert w in ua;
      HeldMayEnd(w.item);
      HandleResend(w.item);
      NextWaiter(old(Now()), Now(), ua, reqs);
    }

    method RetryAll(ops: seq<Request>)
      requires Valid() && RequestsFit(ops) && Holding(Now(), [], ops)
      modifies this, ids
      ensures Valid() && Now() == RetryRequests(old(Now()), ops)
    {
      var i := 0;
      while i < |ops|
        invariant 0 <= i <= |ops| && Valid() && Holding(Now(), [], ops[i..])
        invariant RetryRequests(old(Now()), ops) == RetryRequests(Now(), ops[i..])
      {
        var r := ops[i];
        assert ops[i..][0] == r && ops[i..][1..] == ops[i + 1..] && r in ops[i..];
        assert RequestOk(h.ops, r);
        HeldMayEnd(r.item);
        ghost var before := Now();
        HandleTryAgain(r.item);
        NextRequest(before, Now(), ops[i..]);
        i := i + 1;
      }
    }

    method Refill(ua: seq<Waiter>, unsent: seq<Request>)
      requires Valid() && WaitersFit(ua) && RequestsFit(unsent) && Holding(Now(), ua, unsent)
      modifies this, ids
      ensures Valid() && Now() == RetryRequests(ResendWaiters(old(Now()), ua), unsent)
    {
      ResendUnanswered(ua, unsent);
      RetryAll(unsent);
    }

    method ResendAll(newLimit: nat)
      requires Valid() && Resendable(Now())
      modifies this, ids
      ensures Valid() && Now() == Resend(old(Now()), newLimit)
    {
      if writing {
        return;
      }
      var unsent, ua := Reset(newLimit);
      RefillPlaced(old(Now()), Now());
      Refill(ua, unsent);
      queue := SortQueue(queue);
      writing := false;
      DoWrite();
    }

    /** Everything is moved out and the quota starts anew; no write may begin meanwhile. */
    method Reset(newLimit: nat) returns (unsent: seq<Request>, ua: seq<Waiter>)
      requires Valid()
      modifies this
      ensures Valid() && unsent == old(queue) && ua == old(table)
      ensures Now() == Log(old(Now()), EpochEvent(old(Now()))).(
        writing := true, limit := newLimit, quota := newLimit, queue := [], table := [])
    {
      Record(EpochEvent(Now()));
      writing, limit, quota := true, newLimit, newLimit;
      unsent, ua := queue, table;
      queue, table := [], [];
    }

    /** `clear_pending_pubrels`, erasing from the table while walking it. */
    method ClearPendingPubrels()
      requires Valid() && Shaped(Now())
      modifies this, ids
      ensures Valid() && Now() == ClearPubrels(old(Now()), old(table), [])
    {
      var i := 0;
      while i < |table|
        invariant 0 <= i <= |table| && Valid()
        invariant forall w :: w in table[i..] ==> w in old(table)
        invariant ClearPubrels(old(Now()), old(table), []) == ClearPubrels(Now(), table[i..], table[..i])
        decreases |table| - i
      {
        var w, rest := table[i], table[i + 1..];
        assert table[i..][0] == w && table[i..][1..] == rest && w in table[i..];
        assert WaiterOk(old(h.ops), w);
        if w.code.Pubrel? {
          ghost var before := Now();
          EndOp(w.item.op, Failed);
          table := table[..i] + rest;
          assert table[..i] == before.table[..i] && table[i..] == rest;
          TableIsIdle(Retire(before, w.item.op, Failed), table, rest, table[..i]);
        } else {
          assert table[..i] + [w] == table[..i + 1];
          i := i + 1;
        }
      }
      assert table[..i] == table && table[i..] == [];
    }

    method UpdateSessionState(present: bool)
      requires Valid() && Shaped(Now())
      modifies this, ids
      ensures Valid() && Now() == UpdateSession(old(Now()), present)
    {
      if !present {
        ClearPendingPubrels();
      }
    }

    // ----- steps

    /** The next serial number is taken even if the packet turns out too large. */
    method PublishWith(kind: Kind, pid: nat, check: Check)
      requires Valid() && kind.Publishes() && !check.Invalid? && (pid != 0 ==> pid in ids.taken)
      modifies this, ids
      ensures Valid()
      ensures Now() == Published(old(Now()), kind, pid, check)
    {
      NextSerialNum();
      if check.TooLarge? {
        GiveBack(pid);
        return;
      }
      var op := Enter(kind, pid, publishCalls);
      AsyncSend(PublishRequest(Item(op, OnPublish, false)));
    }

    /** `publish_send_op::perform` */
    method Publish(kind: Kind, check: Check)
      requires Valid() && kind.Publishes()
      modifies this, ids
      ensures Valid() && Now() == CallPublish(old(Now()), kind, check)
    {
      var pid := 0;
      if !kind.Qos0? {
        pid := ids.Allocate();
        LeastFreeIsFirst(old(ids.taken), 1, pid);
        if pid == 0 {
          return;
        }
      }
      PublishCases(old(Now()), Now(), kind, pid, check);
      if check.Invalid? {
        GiveBack(pid);
      } else {
        PublishWith(kind, pid, check);
      }
    }

    /** `complete_immediate`: the id is freed and no quota is given back. */
    method GiveBack(pid: nat)
      requires Valid() && (pid != 0 ==> pid in ids.taken)
      modifies ids
      ensures Valid() && ids.taken == old(ids.taken) - (if pid != 0 then {pid} else {})
    {
      if pid != 0 {
        ids.Free(pid);
      }
    }

    /** `subscribe_op::perform` */
    method SubscribeTo(check: Check)
      requires Valid()
      modifies this, ids
      ensures Valid() && Now() == CallSubscribe(old(Now()), check)
    {
      var pid := ids.Allocate();
      LeastFreeIsFirst(old(ids.taken), 1, pid);
      if pid == 0 {
        return;
      }
      if !check.Valid? {
        GiveBack(pid);
        return;
      }
      var op := Enter(Subscribe, pid, 0);
      AsyncSend(PlainRequest(Item(op, OnSubscribe, false)));
    }

    /** A DISCONNECT or a PINGREQ. */
    method SendOther(kind: Kind)
      requires Tied() && (kind.Disconnect? || kind.OneShot?)
      modifies this
      ensures Tied() && Now() == CallOther(old(Now()), kind)
    {
      var op := Enter(kind, 0, 0);
      AsyncSend(PlainRequest(Item(op, if kind.OneShot? then OnOneShot else OnDisconnect, false)));
    }

    /** `publish_rec_op::perform` */
    method Received(kind: Kind, pid: nat)
      requires Tied() && kind.Receive?
      modifies this
      ensures Tied() && Now() == ReceivePublish(old(Now()), kind, pid)
    {
      var op := Enter(kind, pid, 0);
      AsyncSend(PlainRequest(Item(op, if kind.qos2 then OnRecPubrec else OnRecPuback, false)));
    }

    method TellOne()
      requires Valid() && done != [] && RequestsFit(done) && MayEnd(done[0].item.op)
      modifies this, ids
      ensures Valid() && Now() == TellNext(old(Now()))
    {
      var r := done[0];
      assert r in done;
      done := done[1..];
      Record(Told(r.item.op.id, PacketOf(r.item.stage)));
      HandleWritten(r.item);
      if done == [] {
        DoWrite();
      }
    }

    /** The write failed and the connection was replaced. */
    method WriteFailed(present: bool, newLimit: nat)
      requires Valid() && Shaped(Now().(writing := false, batch := []))
      requires var c := UpdateSession(Now().(writing := false, batch := []), present);
               Resendable(c.(queue := batch + c.queue))
      modifies this, ids
      ensures Valid()
      ensures var c := UpdateSession(old(Now()).(writing := false, batch := []), present);
              Resendable(c.(queue := old(batch) + c.queue))
              && Now() == Resend(c.(queue := old(batch) + c.queue), newLimit)
    {
      var unsent := batch;
      writing, batch := false, [];
      UpdateSessionState(present);
      queue := unsent + queue;
      ResendAll(newLimit);
    }

    method ReadFailed(present: bool, newLimit: nat)
      requires Valid() && Shaped(Now())
      requires Resendable(UpdateSession(Now(), present))
      modifies this, ids
      ensures Valid() && Resendable(UpdateSession(old(Now()), present))
      ensures Now() == Resend(UpdateSession(old(Now()), present), newLimit)
    {
      UpdateSessionState(present);
      ResendAll(newLimit);
    }

    /** `replies::dispatch` of a reply read at this point of the run. */
    method Dispatch(reply: Reply)
      requires Valid() && WaitersFit(table) && reply.readAt == |h.trace|
      requires forall w :: w in table ==> MayEnd(w.item.op)
      modifies this, ids
      ensures Valid() && Now() == ReadReply(old(Now()), reply)
    {
      assert reply == reply.(readAt := |h.trace|);
      var i := FindHandler(reply.code, reply.pid);
      if i == |table| {
        fast := fast + [reply];
      } else {
        var w := table[i];
        assert w in table;
        table := table[..i] + table[i + 1..];
        assert Now() == old(Now()).(table := Without(old(table), i));
        HandleAnswer(w.item, reply);
      }
    }

    method RunOnePosted()
      requires Valid() && posted != [] && PostedFit(posted) && MayEnd(posted[0].item.op)
      modifies this, ids
      ensures Valid() && Now() == RunPosted(old(Now()))
    {
      var p := posted[0];
      assert p in posted;
      posted := posted[1..];
      if p.outcome.Got? {
        HandleAnswer(p.item, p.outcome.reply);
      } else {
        CompleteOp(p.item.op, Failed);
      }
    }

    /** The write failed for good: its handlers are told at once. */
    method WriteAborted()
      requires Valid() && RequestsFit(batch)
      requires Holding(Log(Now(), Stopped).(writing := false, batch := []), [], batch)
      modifies this, ids
      ensures Valid()
      ensures Now() == AbortAll(Log(old(Now()), Stopped).(writing := false, batch := []), old(batch))
    {
      Record(Stopped);
      var ops := batch;
      writing, batch := false, [];
      ghost var begun := Now();
      assert ops[0..] == ops;
      var i := 0;
      while i < |ops|
        invariant 0 <= i <= |ops| && Valid() && Holding(Now(), [], ops[i..])
        invariant AbortAll(begun, ops) == AbortAll(Now(), ops[i..])
      {
        var r := ops[i];
        assert ops[i..][0] == r && ops[i..][1..] == ops[i + 1..] && r in ops[i..];
        assert RequestOk(h.ops, r);
        HeldMayEnd(r.item);
        ghost var before := Now();
        CompleteOp(r.item.op, Failed);
        NextRequest(before, Now(), ops[i..]);
        i := i + 1;
      }
    }

    /** `client_service::cancel`: every waiter and every queued request is told. */
    method Cancel()
      requires Tied()
      modifies this
      ensures Tied() && Now() == CancelAll(old(Now()))
    {
      Record(Stopped);
      posted := posted + AbortedWaiters(table) + AbortedRequests(queue);
      table, queue := [], [];
    }

    /** The object is in a state that the invariant describes. */
    ghost predicate Sane()
      reads this, ids
    {
      Valid() && Invariant(Now()) && WellShaped(Now())
    }

    lemma SaneMayEnd()
      requires Sane()
      ensures forall r :: r in done ==> MayEnd(r.item.op)
      ensures forall w :: w in table ==> MayEnd(w.item.op)
      ensures forall p :: p in posted ==> MayEnd(p.item.op)
    {
      forall r | r in done ensures MayEnd(r.item.op) { assert RequestOk(h.ops, r); }
      forall w | w in table ensures MayEnd(w.item.op) { assert WaiterOk(h.ops, w); }
      forall p | p in posted ensures MayEnd(p.item.op) { assert PostedOk(h.ops, p); }
    }

    /** Calls of the user and packets from the broker. */
    method ReactToCall(s: Step)
      requires Valid() && Enabled(Now(), s) && WellShaped(Now())
      requires s.PublishStep? || s.SubscribeStep? || s.OtherStep? || s.ReceiveStep?
               || s.ReceiveQos0Step? || s.CancelOneStep? || s.CancelAllStep?
      modifies this, ids
      ensures Valid() && Now() == Next(old(Now()), s)
    {
      match s {
        case PublishStep(kind, check) => Publish(kind, check);
        case SubscribeStep(check) => SubscribeTo(check);
        case OtherStep(kind) => SendOther(kind);
        case ReceiveStep(kind, pid) => Received(kind, pid);
        case ReceiveQos0Step(msg) =>
          Record(Arrived(msg));
          channel := channel + [Delivery(0, msg)];
        case CancelOneStep(id) =>
          Record(Dropped(id));
          cancelled := cancelled + {id};
        case CancelAllStep => Cancel();
      }
    }

    /** The connection was replaced. */
    method ReactToReconnect(s: Step)
      requires Sane() && Enabled(Now(), s) && (s.WriteAgainStep? || s.ReadAgainStep?)
      modifies this, ids
      ensures Valid() && Now() == Next(old(Now()), s)
    {
      if s.WriteAgainStep? {
        SessionSteps(Now(), Now().(writing := false, batch := []), s.present);
        WriteFailed(s.present, s.limit);
      } else {
        SessionHolds(Now(), s.present);
        ReadFailed(s.present, s.limit);
      }
    }

    /** The write succeeded; its handlers are to be told. */
    method WriteDone()
      requires Valid()
      modifies this
      ensures Valid() && Now() == old(Now()).(done := old(batch), batch := [], writing := false)
    {
      done, batch, writing := batch, [], false;
    }

    /** Completions of writes. */
    method ReactToWrite(s: Step)
      requires Sane() && Enabled(Now(), s) && (s.WriteOkStep? || s.TellNextStep? || s.WriteAbortStep?)
      modifies this, ids
      ensures Valid() && Now() == Next(old(Now()), s)
    {
      if s.WriteOkStep? {
        WriteDone();
      } else if s.TellNextStep? {
        SaneMayEnd();
        TellOne();
      } else {
        AbortHolds(Now(), Log(Now(), Stopped).(writing := false, batch := []));
        WriteAborted();
      }
    }

    /** Replies, and what was posted. */
    method ReactToReply(s: Step)
      requires Sane() && Enabled(Now(), s) && (s.ReadReplyStep? || s.PostedStep?)
      requires s.ReadReplyStep? ==> s.reply.readAt == |h.trace|
      modifies this, ids
      ensures Valid() && Now() == Next(old(Now()), s)
    {
      SaneMayEnd();
      if s.ReadReplyStep? {
        Dispatch(s.reply);
      } else {
        RunOnePosted();
      }
    }

    /** One event of the program: the object does what the model's step says. */
    method React(s: Step)
      requires Sane() && Enabled(Now(), s)
      requires s.ReadReplyStep? ==> s.reply.readAt == |h.trace|
      modifies this, ids
      ensures Valid() && Now() == Next(old(Now()), s)
    {
      if s.WriteAgainStep? || s.ReadAgainStep? {
        ReactToReconnect(s);
      } else if s.WriteOkStep? || s.TellNextStep? || s.WriteAbortStep? {
        ReactToWrite(s);
      } else if s.ReadReplyStep? || s.PostedStep? {
        ReactToReply(s);
      } else {
        ReactToCall(s);
      }
    }

    /** Hence the object never leaves the states that the theorems are about. */
    method ReactSanely(s: Step)
      requires Sane() && Enabled(Now(), s)
      requires s.ReadReplyStep? ==> s.reply.readAt == |h.trace|
      modifies this, ids
      ensures Sane()
    {
      StepKeeps(Now(), s);
      React(s);
    }
  }

  lemma SessionHolds(c: State, present: bool)
    requires Invariant(c)
    ensures var d := UpdateSession(c, present);
            Resendable(d)
  {
    NoWaiters();
    var d := UpdateSession(c, present);
    SessionStep(c, d, present, []);
    ShapeFits(d);
  }

  /** While the table is being cleared nothing looks at it. */
  lemma {:induction false} TableIsIdle(c: State, table: seq<Waiter>, s: seq<Waiter>, kept: seq<Waiter>)
    ensures ClearPubrels(c.(table := table), s, kept) == ClearPubrels(c, s, kept)
    decreases |s|
  {
    if s != [] {
      if s[0].code.Pubrel? {
        TableIsIdle(Retire(c, s[0].item.op, Failed), table, s[1..], kept);
      } else {
        TableIsIdle(c, table, s[1..], kept + [s[0]]);
      }
    }
  }

  lemma SessionSteps(c: State, d: State, present: bool)
    requires Invariant(c) && WellShaped(c) && d == c.(writing := false, batch := [])
    ensures Shaped(d)
    ensures var e := UpdateSession(d, present);
            var f := e.(queue := c.batch + e.queue);
            Resendable(f)
  {
    TakenBack(c, d);
    var e := UpdateSession(d, present);
    SessionStep(d, e, present, c.batch);
    var f := e.(queue := c.batch + e.queue);
    PutInPlace(e, f, c.batch);
    ShapeFits(f);
  }

  lemma AbortHolds(c: State, d: State)
    requires Invariant(c) && d == Log(c, Stopped).(writing := false, batch := [])
    ensures Holding(d, [], c.batch) && RequestsFit(c.batch)
  {
    var c1 := Log(c, Stopped);
    Frame(c, c1, multiset{});
    NoWaiters();
    assert Census(d) + multiset(RequestIds(c.batch)) == Census(c1);
    ShapeFits(c);
  }
}
