/**
 What single steps do for the operations: which requests a write takes, where a call
 and a reply leave their operation, and what a cancellation reaches. These are the
 facts behind "nothing is left lying": whatever should go out is in the write queue
 or in the batch being written.
 */
module Conduct {
  import opened Requests
  import opened Client
  import opened Places
  import opened FlowControl
  import opened Engine
  import opened Steps
  import opened Theorems
  import Seqs

  // ----- what a write takes

  /** Throttled requests beyond the quota stay behind; the others go, in order. */
  function Picked(s: seq<Request>, quota: nat, goes: bool): seq<Request> {
    if s == [] then []
    else
      var front, r := s[..|s| - 1], s[|s| - 1];
      Picked(front, quota, goes)
      + (if (!r.throttled || Throttles(front) < quota) == goes then [r] else [])
  }

  lemma {:induction false} SplitLast(s: seq<Request>, quota: nat, r: Request)
    ensures var a := Split(s, quota);
      Split(s + [r], quota)
      == if !r.throttled then a.(taken := a.taken + [r])
         else if a.quota > 0 then Share(a.taken + [r], a.left, a.quota - 1)
         else a.(left := a.left + [r])
  {
    if s == [] {
      assert (s + [r])[1..] == [];
    } else {
      assert (s + [r])[1..] == s[1..] + [r];
      SplitLast(s[1..], if s[0].throttled && quota > 0 then quota - 1 else quota, r);
    }
  }

  lemma {:induction false} SplitPicks(s: seq<Request>, quota: nat)
    ensures var share := Split(s, quota);
      && share.taken == Picked(s, quota, true) && share.left == Picked(s, quota, false)
      && share.quota == if Throttles(s) < quota then quota - Throttles(s) else 0
  {
    if s != [] {
      var front, r := s[..|s| - 1], s[|s| - 1];
      Seqs.Last(s);
      SplitPicks(front, quota);
      SplitLast(front, quota, r);
    }
  }

  /** An idle sender with something to write: the first terminal request goes alone;
      otherwise everything goes when the broker sets no limit, and what the quota
      allows when it does. Early replies from before the write are dropped. */
  lemma WriteTakes(c: State, t: nat)
    requires !c.writing && c.queue != [] && c.batch == [] && t <= |c.queue|
    requires forall i :: 0 <= i < t ==> !c.queue[i].terminal
    ensures var d := Pump(c);
      && (t < |c.queue| && c.queue[t].terminal ==>
            d.batch == [c.queue[t]] && d.queue == c.queue[..t] + c.queue[t + 1..] && d.quota == c.quota)
      && (t == |c.queue| && c.limit == 65535 ==> d.batch == c.queue && d.queue == [])
      && (t == |c.queue| && c.limit != 65535 ==>
            d.batch == Picked(c.queue, c.quota, true) && d.queue == Picked(c.queue, c.quota, false))
      && d.writing == (d.batch != [])
      && (d.writing ==> d.fast == [])
  {
    SplitPicks(c.queue, c.quota);
    if t == |c.queue| && c.limit != 65535 { AllStay(c.queue, c.quota); }
  }

  lemma {:induction false} AllStay(s: seq<Request>, quota: nat)
    ensures Picked(s, quota, true) == [] ==> Picked(s, quota, false) == s
  {
    if s != [] {
      AllStay(s[..|s| - 1], quota);
      Seqs.Last(s);
    }
  }

  // ----- where a request is

  ghost predicate Queued(c: State, r: Request) { r in c.queue || r in c.batch }

  lemma {:induction false} SplitHolds(s: seq<Request>, quota: nat, r: Request)
    requires r in s
    ensures var share := Split(s, quota); r in share.taken || r in share.left
  {
    if s[0] != r { SplitHolds(s[1..], if s[0].throttled && quota > 0 then quota - 1 else quota, r); }
  }

  lemma PumpHolds(c: State, r: Request)
    requires Queued(c, r) && (c.writing || c.batch == [])
    ensures Queued(Pump(c), r)
  {
    if !c.writing {
      var t := FirstTerminal(c.queue);
      if t < |c.queue| {
        Seqs.Around(c.queue, t);
      } else if c.limit != MAX_LIMIT {
        SplitHolds(c.queue, c.quota, r);
      }
    }
  }

  lemma SendHolds(c: State, d: State, r: Request)
    requires (c.writing || c.batch == []) && d == Send(c, r)
    ensures Queued(d, r)
  {
    PumpHolds(c.(queue := c.queue + [r]), r);
  }

  // ----- calls

  predicate NoFreeId(c: State) { forall p :: 1 <= p <= 65535 ==> p in c.inUse }

  predicate LeastFreeId(c: State, pid: nat) {
    1 <= pid <= 65535 && pid !in c.inUse && forall p :: 1 <= p < pid ==> p in c.inUse
  }

  lemma {:induction false} LeastFreeFound(taken: set<nat>, n: nat)
    ensures var x := LeastFreeFrom(taken, n);
      && (x == 0 || (n <= x <= 65535 && x !in taken))
      && (n > 0 ==> forall p :: n <= p < (if x == 0 then 65536 else x) ==> p in taken)
    decreases MAX_PACKET_ID + 1 - n
  {
    if n <= MAX_PACKET_ID && n in taken { LeastFreeFound(taken, n + 1); }
  }

  lemma FreeIds(c: State, pid: nat)
    requires pid == LeastFreeFrom(c.inUse, 1)
    ensures if pid == 0 then NoFreeId(c) else LeastFreeId(c, pid) && !NoFreeId(c)
  {
    LeastFreeFound(c.inUse, 1);
  }

  lemma AtRest(c: State)
    requires Reachable(c)
    ensures (c.writing || c.batch == []) && c.lastSerial == c.h.published % 0x1_0000_0000
  {
    ReachableKeeps(c);
  }

  /** The operation is entered under the next number, and its request is on its way. */
  ghost predicate Entered(c: State, d: State, r: Request, kind: Kind) {
    && Queued(d, r) && r.item.op.id == c.h.next && r.item.op.kind == kind && !r.item.dup
    && d.h.ops == c.h.ops[c.h.next := r.item.op] && d.h.next == c.h.next + 1
    && d.inUse == (if kind.Bearing() then c.inUse + {r.item.op.pid} else c.inUse)
  }

  lemma Enters(c: State, d: State, r: Request)
    requires (c.writing || c.batch == []) && r.item.op.id == c.h.next && !r.item.dup
    requires d == Send(Admit(c, r.item.op.kind, r.item.op.pid, r.item.op.seqno), r)
    ensures Entered(c, d, r, r.item.op.kind) && d.lastSerial == c.lastSerial
  {
    var c1 := Admit(c, r.item.op.kind, r.item.op.pid, r.item.op.seqno);
    SendHolds(c1, d, r);
    SendKeepsOps(c1, r);
  }

  lemma PublishEntered(c: State, d: State, kind: Kind, pid: nat, r: Request)
    requires (c.writing || c.batch == []) && c.lastSerial == c.h.published % 0x1_0000_0000 && kind.Publishes()
    requires pid == (if kind.Qos0? then 0 else LeastFreeFrom(c.inUse, 1)) && (kind.Qos0? || pid != 0)
    requires r == PublishRequest(Item(Op(c.h.next, kind, pid, c.h.published + 1), OnPublish, false))
    requires d == CallPublish(c, kind, Valid)
    ensures Entered(c, d, r, kind) && r.serial == (c.lastSerial + 1) % 0x1_0000_0000 == d.lastSerial
  {
    SerialWraps(c.h.published);
    Enters(NextSerial(c), d, r);
  }

  /** A publish call: rejected without a trace when no packet id is free or an argument
      is invalid, rejected with its serial number spent when its packet is too large,
      and otherwise entered with the least free id and on its way. */
  lemma PublishEnters(c: State, d: State, kind: Kind, check: Check) returns (r: Request)
    requires Reachable(c) && kind.Publishes() && d == CallPublish(c, kind, check)
    ensures check == Invalid || (kind != Qos0 && NoFreeId(c)) ==> d == c
    ensures check == TooLarge && (kind == Qos0 || !NoFreeId(c)) ==>
      d == c.(lastSerial := (c.lastSerial + 1) % 0x1_0000_0000, h := c.h.(published := c.h.published + 1))
    ensures check == Valid && (kind == Qos0 || !NoFreeId(c)) ==>
      && Entered(c, d, r, kind) && r.item.stage == OnPublish
      && r.serial == (c.lastSerial + 1) % 0x1_0000_0000 == d.lastSerial
      && r.throttled == (kind != Qos0) && !r.prioritized && !r.terminal
      && (kind != Qos0 ==> LeastFreeId(c, r.item.op.pid))
  {
    AtRest(c);
    FreeIds(c, LeastFreeFrom(c.inUse, 1));
    var pid := if kind.Qos0? then 0 else LeastFreeFrom(c.inUse, 1);
    r := PublishRequest(Item(Op(c.h.next, kind, pid, c.h.published + 1), OnPublish, false));
    if check.Valid? && (kind == Qos0 || pid != 0) { PublishEntered(c, d, kind, pid, r); }
  }

  /** A request without a serial number, neither throttled nor ahead of others. */
  predicate Plain(r: Request, stage: Stage) {
    r.item.stage == stage && r.serial == 0 && !r.throttled && !r.prioritized
    && r.terminal == (stage == OnDisconnect)
  }

  lemma SubscribeEnters(c: State, d: State, check: Check) returns (r: Request)
    requires Reachable(c) && d == CallSubscribe(c, check)
    ensures check != Valid || NoFreeId(c) ==> d == c
    ensures check == Valid && !NoFreeId(c) ==>
      Entered(c, d, r, Subscribe) && Plain(r, OnSubscribe) && LeastFreeId(c, r.item.op.pid)
  {
    AtRest(c);
    var pid := LeastFreeFrom(c.inUse, 1);
    FreeIds(c, pid);
    r := PlainRequest(Item(Op(c.h.next, Subscribe, pid, 0), OnSubscribe, false));
    if check.Valid? && pid != 0 { Enters(c, d, r); }
  }

  lemma OtherEnters(c: State, d: State, kind: Kind) returns (r: Request)
    requires Reachable(c) && (kind.Disconnect? || kind.OneShot?) && d == CallOther(c, kind)
    ensures Entered(c, d, r, kind) && Plain(r, if kind.OneShot? then OnOneShot else OnDisconnect)
  {
    AtRest(c);
    r := PlainRequest(Item(Op(c.h.next, kind, 0, 0), if kind.OneShot? then OnOneShot else OnDisconnect, false));
    Enters(c, d, r);
  }

  /** A PUBLISH from the broker is answered on its own packet id. */
  lemma ReceiveEnters(c: State, d: State, kind: Kind, pid: nat) returns (r: Request)
    requires Reachable(c) && kind.Receive? && d == ReceivePublish(c, kind, pid)
    ensures Entered(c, d, r, kind) && Plain(r, if kind.qos2 then OnRecPubrec else OnRecPuback) && r.item.op.pid == pid
  {
    AtRest(c);
    r := PlainRequest(Item(Op(c.h.next, kind, pid, 0), if kind.qos2 then OnRecPubrec else OnRecPuback, false));
    Enters(c, d, r);
  }

  // ----- replies

  predicate WaitsFor(w: Waiter, reply: Reply) { w.code == reply.code && w.pid == reply.pid }

  /** A reply goes to the first handler that waits for it, and is kept if nobody does. */
  lemma ReplyFindsItsWaiter(c: State, d: State, reply: Reply, i: nat)
    requires WaitersFit(c.table) && d == ReadReply(c, reply) && i <= |c.table|
    requires forall j :: 0 <= j < i ==> !WaitsFor(c.table[j], reply)
    requires i < |c.table| ==> WaitsFor(c.table[i], reply)
    ensures i == |c.table| ==> d == c.(fast := c.fast + [reply.(readAt := |c.h.trace|)])
    ensures i < |c.table| ==>
      c.h.trace + [Answered(c.table[i].item.op.id, |c.h.trace|, reply.code, reply.verdict)] <= d.h.trace
  {
    assert FindWaiter(c.table, reply.code, reply.pid) == i;
    if i < |c.table| {
      assert c.table[i] in c.table;
      AnswerShows(c.(table := Without(c.table, i)), d, c.table[i].item, reply.(readAt := |c.h.trace|));
    }
  }

  lemma AnswerShows(c: State, d: State, item: Item, reply: Reply)
    requires !item.stage.Writes() && Fits(item) && d == OnAnswer(c, item, reply)
    ensures c.h.trace + [Answered(item.op.id, reply.readAt, reply.code, reply.verdict)] <= d.h.trace
  {
    var c1 := Log(c, Answered(item.op.id, reply.readAt, reply.code, reply.verdict));
    AnswerCases(c, item, reply);
    if reply.verdict.Malformed? {
      var c2 := Malform(c1, item.op);
      MalformExtends(c1, item.op);
      StartOverExtends(c2, item);
    } else {
      AcknowledgeExtends(c1, item, reply.verdict);
    }
  }

  lemma SendExtends(c: State, r: Request)
    ensures c.h.trace <= Send(c, r).h.trace
  {
    PumpExtends(c.(queue := c.queue + [r]));
  }

  lemma CompleteExtends(c: State, op: Op, ending: Ending)
    ensures c.h.trace <= Complete(c, op, ending).h.trace
  {
    var c1 := Retire(c, op, ending);
    PumpExtends(c1.(quota := if c1.quota == MAX_LIMIT then 0 else c1.quota + 1));
  }

  lemma MalformExtends(c: State, op: Op)
    ensures c.h.trace <= Malform(c, op).h.trace
  {
    var c1 := Admit(Log(c, Complaint(op)), Disconnect(false), 0, 0);
    SendExtends(c1, PlainRequest(Item(c1.h.ops[c.h.next], OnDisconnect, false)));
  }

  lemma StartOverExtends(c: State, item: Item)
    requires !item.stage.Writes() && Fits(item)
    ensures c.h.trace <= OnResend(c, item).h.trace
  {
    CompleteExtends(c, item.op, Failed);
    var again := item.(dup := true, stage := OnPublish);
    SendExtends(c, PublishRequest(again));
    SendExtends(c, PubrelRequest(item.(stage := OnPubrel), true));
    SendExtends(c, PlainRequest(item.(stage := OnSubscribe)));
  }

  lemma AcknowledgeExtends(c: State, item: Item, v: Verdict)
    requires !item.stage.Writes() && !v.Malformed?
    ensures c.h.trace <= Acknowledge(c, item, v).h.trace
  {
    CompleteExtends(c, item.op, EndingOf(v));
    SendExtends(Log(c, Accepted(item.op.id)), PubrelRequest(item.(stage := OnPubrel), false));
    SendExtends(c, PlainRequest(item.(stage := OnRecPubcomp)));
  }

  /** A successful PUBREC releases the message: its PUBREL is on its way ahead of the
      PUBLISHes, with the serial number of the call, and costs no quota. */
  lemma AcceptanceReleases(c: State, d: State, item: Item, reply: Reply) returns (r: Request)
    requires (c.writing || c.batch == []) && item.stage == OnPubrec && Fits(item)
    requires reply.verdict == Success && d == OnAnswer(c, item, reply)
    ensures Queued(d, r) && r.item == item.(stage := OnPubrel) && r.prioritized && !r.throttled && !r.terminal
    ensures r.serial == item.op.seqno % 0x1_0000_0000
    ensures c.h.trace + [Answered(item.op.id, reply.readAt, reply.code, Success), Accepted(item.op.id)] <= d.h.trace
  {
    var c1 := Log(Log(c, Answered(item.op.id, reply.readAt, reply.code, Success)), Accepted(item.op.id));
    r := PubrelRequest(item.(stage := OnPubrel), false);
    assert d == Send(c1, r);
    SendHolds(c1, d, r);
    SendExtends(c1, r);
  }

  /** A PUBREL from the broker is answered with a PUBCOMP. */
  lemma PubrelIsAnswered(c: State, d: State, item: Item, reply: Reply) returns (r: Request)
    requires (c.writing || c.batch == []) && item.stage == OnRecPubrel && Fits(item)
    requires !reply.verdict.Malformed? && d == OnAnswer(c, item, reply)
    ensures Queued(d, r) && r.item == item.(stage := OnRecPubcomp) && Plain(r, OnRecPubcomp)
  {
    r := PlainRequest(item.(stage := OnRecPubcomp));
    SendHolds(Log(c, Answered(item.op.id, reply.readAt, reply.code, reply.verdict)), d, r);
  }

  /** What a handler sends when it has to start over. */
  predicate Restarts(r: Request, item: Item) {
    && r.item.op == item.op
    && match item.stage
       case OnPuback => r.item.stage == OnPublish && r.item.dup && r.throttled
       case OnPubrec => r.item.stage == OnPublish && r.item.dup && r.throttled
       case OnPubcomp => r.item.stage == OnPubrel && r.throttled && r.prioritized
       case OnSuback => Plain(r, OnSubscribe)
       case _ => false
  }

  /** A malformed acknowledgement: a DISCONNECT is on its way, which is terminal, and so
      is the packet of the operation. */
  lemma MalformedStartsOver(c: State, d: State, item: Item, reply: Reply) returns (r: Request, bye: Request)
    requires (c.writing || c.batch == []) && !item.stage.Writes() && Fits(item) && item.op.kind.Bearing()
    requires reply.verdict == Malformed && item.op.id !in c.cancelled && d == OnAnswer(c, item, reply)
    ensures Queued(d, r) && Restarts(r, item)
    ensures Queued(d, bye) && Plain(bye, OnDisconnect) && bye.item.op.id == c.h.next && bye.item.op.kind == Disconnect(false)
  {
    var c1 := Log(Log(c, Answered(item.op.id, reply.readAt, reply.code, Malformed)), Complaint(item.op));
    var c2 := Admit(c1, Disconnect(false), 0, 0);
    bye := PlainRequest(Item(Op(c.h.next, Disconnect(false), 0, 0), OnDisconnect, false));
    var c3 := Send(c2, bye);
    SendHolds(c2, c3, bye);
    r := match item.stage
      case OnPubcomp => PubrelRequest(item.(stage := OnPubrel), true)
      case OnSuback => PlainRequest(item.(stage := OnSubscribe))
      case _ => PublishRequest(item.(dup := true, stage := OnPublish));
    SendHolds(c3, Send(c3, r), r);
    PumpHolds(c3.(queue := c3.queue + [r]), bye);
    AnswerCases(c, item, reply);
    assert d == Send(c3, r);
  }

  /** After its write a handler gets the oldest early reply, or joins the waiters. */
  lemma EarlyReplyIsTaken(c: State, d: State, item: Item, i: nat)
    requires !item.stage.Writes() && d == AwaitReply(c, item) && i <= |c.fast|
    requires forall j :: 0 <= j < i ==> c.fast[j].code != AwaitedCode(item.stage) || c.fast[j].pid != item.op.pid
    requires i < |c.fast| ==> c.fast[i].code == AwaitedCode(item.stage) && c.fast[i].pid == item.op.pid
    ensures i < |c.fast| ==> d.fast == c.fast[..i] + c.fast[i + 1..] && Posted(item, Got(c.fast[i])) in d.posted
    ensures i == |c.fast| ==> Waiter(AwaitedCode(item.stage), item.op.pid, item) in d.table && d.fast == c.fast
  {
    assert FindReply(c.fast, AwaitedCode(item.stage), item.op.pid) == i;
  }

  // ----- cancellation

  /** Everybody who waits or is queued is told that it was aborted. */
  lemma CancelReachesAll(c: State, d: State)
    requires d == CancelAll(c)
    ensures d.table == [] && d.queue == [] && c.posted <= d.posted
    ensures forall w :: w in c.table ==> Posted(w.item, Aborted) in d.posted
    ensures forall r :: r in c.queue ==> Posted(r.item, Aborted) in d.posted
  {
    var a, b := AbortedWaiters(c.table), AbortedRequests(c.queue);
    forall w | w in c.table ensures Posted(w.item, Aborted) in d.posted {
      var i :| 0 <= i < |c.table| && c.table[i] == w;
      assert a[i] in a;
    }
    forall r | r in c.queue ensures Posted(r.item, Aborted) in d.posted {
      var i :| 0 <= i < |c.queue| && c.queue[i] == r;
      assert b[i] in b;
    }
  }

  lemma AbortEnds(c: State, d: State, item: Item)
    requires d == OnAbort(c, item)
    ensures d.h.ops == c.h.ops - {item.op.id} && c.h.trace + [Finished(item.op.id, Failed, item.op.kind)] <= d.h.trace
  {
    var c1 := Retire(c, item.op, Failed);
    var c2 := c1.(quota := if c1.quota == MAX_LIMIT then 0 else c1.quota + 1);
    PumpExtends(c2);
    PumpKeepsOps(c2);
  }

  /** A write that failed for good fails each of its operations. */
  lemma {:induction false} AbortReachesAll(c: State, d: State, s: seq<Request>)
    requires d == AbortAll(c, s)
    ensures c.h.trace <= d.h.trace && d.h.ops.Keys <= c.h.ops.Keys
    ensures forall r :: r in s ==>
      r.item.op.id !in d.h.ops && Finished(r.item.op.id, Failed, r.item.op.kind) in d.h.trace[|c.h.trace|..]
    decreases |s|
  {
    if s != [] {
      var c1 := OnAbort(c, s[0].item);
      AbortEnds(c, c1, s[0].item);
      AbortReachesAll(c1, d, s[1..]);
      assert d.h.trace[|c.h.trace|] == Finished(s[0].item.op.id, Failed, s[0].item.op.kind);
      forall r | r in s
        ensures r.item.op.id !in d.h.ops && Finished(r.item.op.id, Failed, r.item.op.kind) in d.h.trace[|c.h.trace|..]
      {
        if r in s[1..] {
          assert d.h.trace[|c1.h.trace|..] == d.h.trace[|c.h.trace|..][|c1.h.trace| - |c.h.trace|..];
        }
      }
    }
  }
}
