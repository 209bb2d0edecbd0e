/**
 One place per operation. In every state, each live operation sits in exactly
 one of: the write queue, the batch being written, the batch being told, the
 reply table, the posted completions, or (inside a handler) the hands of the
 running code. Packet ids in use are exactly those of the live operations that
 bear one, and no two operations share one.
 */
module Places {
  import opened Requests
  import opened Client
  import opened SerialOrder

  function RequestIds(s: seq<Request>): seq<nat> {
    seq(|s|, i requires 0 <= i < |s| => s[i].item.op.id)
  }
  function WaiterIds(s: seq<Waiter>): seq<nat> {
    seq(|s|, i requires 0 <= i < |s| => s[i].item.op.id)
  }
  function PostedIds(s: seq<Posted>): seq<nat> {
    seq(|s|, i requires 0 <= i < |s| => s[i].item.op.id)
  }

  /** How often each operation occurs in the client's collections. */
  ghost function Census(c: State): multiset<nat> {
    multiset(RequestIds(c.queue)) + multiset(RequestIds(c.batch)) + multiset(RequestIds(c.done))
    + multiset(WaiterIds(c.table)) + multiset(PostedIds(c.posted))
  }

  ghost predicate Tracked(ops: map<nat, Op>, item: Item) {
    item.op.id in ops && ops[item.op.id] == item.op && Fits(item)
  }

  ghost predicate RequestOk(ops: map<nat, Op>, r: Request) {
    && Tracked(ops, r.item)
    && match r.item.stage
       case OnPublish => r == PublishRequest(r.item)
       case OnPubrel => r == PubrelRequest(r.item, r.throttled)
       case _ => r.item.stage.Writes() && r == PlainRequest(r.item)
  }

  ghost predicate WaiterOk(ops: map<nat, Op>, w: Waiter) {
    && Tracked(ops, w.item) && !w.item.stage.Writes()
    && w.code == AwaitedCode(w.item.stage) && w.pid == w.item.op.pid
  }

  ghost predicate PostedOk(ops: map<nat, Op>, p: Posted) {
    && Tracked(ops, p.item) && !p.outcome.TryAgain?
    && (p.outcome.Got? ==>
          && !p.item.stage.Writes()
          && p.outcome.reply.code == AwaitedCode(p.item.stage)
          && p.outcome.reply.pid == p.item.op.pid)
  }

  ghost predicate AllRequests(ops: map<nat, Op>, s: seq<Request>) {
    forall r :: r in s ==> RequestOk(ops, r)
  }
  ghost predicate AllWaiters(ops: map<nat, Op>, s: seq<Waiter>) {
    forall w :: w in s ==> WaiterOk(ops, w)
  }
  ghost predicate AllPosted(ops: map<nat, Op>, s: seq<Posted>) {
    forall p :: p in s ==> PostedOk(ops, p)
  }

  ghost predicate Shaped(c: State) {
    && AllRequests(c.h.ops, c.queue) && AllRequests(c.h.ops, c.batch)
    && AllRequests(c.h.ops, c.done)
    && AllWaiters(c.h.ops, c.table) && AllPosted(c.h.ops, c.posted)
  }

  /** The live operations are keyed by their id; the packet ids in use are
      exactly the ids of the live operations that bear one, each of one operation. */
  ghost predicate IdsOk(h: History, inUse: set<nat>) {
    && inUse == h.owner.Keys
    && (forall id :: id in h.ops ==> h.ops[id].id == id < h.next)
    && (forall id :: id in h.ops && h.ops[id].kind.Bearing() ==>
          1 <= h.ops[id].pid <= 65535 && h.ops[id].pid in h.owner
          && h.owner[h.ops[id].pid] == id)
    && (forall pid :: pid in h.owner ==>
          h.owner[pid] in h.ops && h.ops[h.owner[pid]].kind.Bearing()
          && h.ops[h.owner[pid]].pid == pid)
  }

  /** Every live operation is in exactly one place. */
  ghost predicate Counted(c: State, held: multiset<nat>) {
    Census(c) + held == multiset(c.h.ops.Keys)
  }

  /** The invariant, while the running code holds the operations `held`. */
  ghost predicate Placed(c: State, held: multiset<nat>) {
    && Counted(c, held)
    && Shaped(c)
    && IdsOk(c.h, c.inUse)
    && (!c.writing ==> c.batch == [])
  }

  // ----- moving items between collections

  lemma RequestIdsConcat(a: seq<Request>, b: seq<Request>)
    ensures RequestIds(a + b) == RequestIds(a) + RequestIds(b)
  {
  }

  lemma RequestIdsWithout(s: seq<Request>, i: nat)
    requires i < |s|
    ensures multiset(RequestIds(s)) == multiset(RequestIds(Without(s, i))) + multiset{s[i].item.op.id}
    ensures forall r :: r in Without(s, i) ==> r in s
  {
    var t := RequestIds(s);
    assert t == t[..i] + [t[i]] + t[i + 1..];
    assert RequestIds(Without(s, i)) == t[..i] + t[i + 1..];
  }

  lemma WaiterIdsWithout(s: seq<Waiter>, i: nat)
    requires i < |s|
    ensures multiset(WaiterIds(s)) == multiset(WaiterIds(Without(s, i))) + multiset{s[i].item.op.id}
    ensures forall w :: w in Without(s, i) ==> w in s
  {
    var t := WaiterIds(s);
    assert t == t[..i] + [t[i]] + t[i + 1..];
    assert WaiterIds(Without(s, i)) == t[..i] + t[i + 1..];
  }

  lemma {:induction false} SplitKeeps(s: seq<Request>, quota: nat)
    ensures var share := Split(s, quota);
      && multiset(RequestIds(s)) == multiset(RequestIds(share.taken)) + multiset(RequestIds(share.left))
      && (forall r :: r in share.taken || r in share.left ==> r in s)
  {
    if s != [] {
      var q := if s[0].throttled && quota > 0 then quota - 1 else quota;
      SplitKeeps(s[1..], q);
      var rest := Split(s[1..], q);
      assert s == [s[0]] + s[1..];
      RequestIdsConcat([s[0]], s[1..]);
      RequestIdsConcat([s[0]], rest.taken);
      RequestIdsConcat([s[0]], rest.left);
    }
  }

  lemma {:induction false} InsertIds(s: seq<Request>, x: Request)
    ensures multiset(RequestIds(Insert(s, x))) == multiset(RequestIds(s)) + multiset{x.item.op.id}
  {
    if s == [] || !Less(x, s[|s| - 1]) {
      RequestIdsConcat(s, [x]);
      assert RequestIds([x]) == [x.item.op.id];
    } else {
      var front, last := s[..|s| - 1], [s[|s| - 1]];
      InsertIds(front, x);
      RequestIdsConcat(Insert(front, x), last);
      RequestIdsConcat(front, last);
      assert s == front + last;
    }
  }

  lemma {:induction false} SortIds(s: seq<Request>)
    ensures multiset(RequestIds(StableSort(s))) == multiset(RequestIds(s))
  {
    if s != [] {
      var front, last := s[..|s| - 1], [s[|s| - 1]];
      SortIds(front);
      InsertIds(StableSort(front), s[|s| - 1]);
      RequestIdsConcat(front, last);
      assert s == front + last;
      assert RequestIds(last) == [s[|s| - 1].item.op.id];
    }
  }

  ghost predicate Nowhere(c: State, id: nat) {
    && (forall r :: r in c.queue || r in c.batch || r in c.done ==> r.item.op.id != id)
    && (forall w :: w in c.table ==> w.item.op.id != id)
    && (forall p :: p in c.posted ==> p.item.op.id != id)
  }

  /** An operation in the hands of the running code is in no collection. */
  lemma HeldIsNowhere(c: State, held: multiset<nat>, id: nat)
    requires Counted(c, held) && id in held
    ensures Nowhere(c, id)
    ensures id in c.h.ops && held[id] == 1
  {
    assert (Census(c) + held)[id] <= 1;
    assert Census(c)[id] == 0;
    forall r | r in c.queue || r in c.batch || r in c.done ensures r.item.op.id != id {
      if r in c.queue { InRequestIds(c.queue, r); }
      if r in c.batch { InRequestIds(c.batch, r); }
      if r in c.done { InRequestIds(c.done, r); }
    }
    forall w | w in c.table ensures w.item.op.id != id {
      var i :| 0 <= i < |c.table| && c.table[i] == w;
      assert WaiterIds(c.table)[i] == w.item.op.id;
    }
    forall p | p in c.posted ensures p.item.op.id != id {
      var i :| 0 <= i < |c.posted| && c.posted[i] == p;
      assert PostedIds(c.posted)[i] == p.item.op.id;
    }
  }

  lemma InRequestIds(s: seq<Request>, r: Request)
    requires r in s
    ensures r.item.op.id in multiset(RequestIds(s))
  {
    var i :| 0 <= i < |s| && s[i] == r;
    assert RequestIds(s)[i] == r.item.op.id;
  }

  // ----- the elementary moves keep the invariant

  lemma EnqueueCounts(c: State, held: multiset<nat>, r: Request)
    requires Counted(c, held + multiset{r.item.op.id})
    ensures Counted(c.(queue := c.queue + [r]), held)
  {
    RequestIdsConcat(c.queue, [r]);
    assert RequestIds([r]) == [r.item.op.id];
  }

  lemma EnqueueShapes(c: State, r: Request)
    requires Shaped(c) && RequestOk(c.h.ops, r)
    ensures Shaped(c.(queue := c.queue + [r]))
  {
  }

  lemma Enqueue(c: State, held: multiset<nat>, r: Request)
    requires Placed(c, held + multiset{r.item.op.id}) && RequestOk(c.h.ops, r)
    ensures Placed(c.(queue := c.queue + [r]), held)
  {
    EnqueueCounts(c, held, r);
    EnqueueShapes(c, r);
  }

  lemma Begins(c: State, held: multiset<nat>, taken: seq<Request>, left: seq<Request>, quota: nat)
    requires Placed(c, held) && !c.writing
    requires multiset(RequestIds(c.queue)) == multiset(RequestIds(taken)) + multiset(RequestIds(left))
    requires forall r :: r in taken || r in left ==> r in c.queue
    ensures Placed(Begin(c, taken, left, quota), held)
  {
    assert RequestIds([]) == [];
  }

  lemma Pumps(c: State, held: multiset<nat>)
    requires Placed(c, held)
    ensures Placed(Pump(c), held)
  {
    if !c.writing && c.queue != [] {
      var t := FirstTerminal(c.queue);
      if t < |c.queue| {
        RequestIdsWithout(c.queue, t);
        assert RequestIds([c.queue[t]]) == [c.queue[t].item.op.id];
        Begins(c, held, [c.queue[t]], Without(c.queue, t), c.quota);
      } else if c.limit == MAX_LIMIT {
        assert RequestIds([]) == [];
        Begins(c, held, c.queue, [], c.quota);
      } else {
        var share := Split(c.queue, c.quota);
        SplitKeeps(c.queue, c.quota);
        if share.taken != [] {
          Begins(c, held, share.taken, share.left, share.quota);
        }
      }
    }
  }

  lemma Sends(c: State, held: multiset<nat>, r: Request)
    requires Placed(c, held + multiset{r.item.op.id}) && RequestOk(c.h.ops, r)
    ensures Placed(Send(c, r), held)
  {
    Enqueue(c, held, r);
    Pumps(c.(queue := c.queue + [r]), held);
  }

  lemma EvictCensus(c: State, code: Code, pid: nat)
    ensures Census(Evict(c, code, pid)) == Census(c)
  {
    var i := FindWaiter(c.table, code, pid);
    if i < |c.table| {
      var item := c.table[i].item;
      WaiterIdsWithout(c.table, i);
      assert PostedIds(c.posted + [Posted(item, Aborted)]) == PostedIds(c.posted) + [item.op.id];
    }
  }

  lemma Evicts(c: State, held: multiset<nat>, code: Code, pid: nat)
    requires Placed(c, held)
    ensures Placed(Evict(c, code, pid), held)
  {
    EvictCensus(c, code, pid);
    var i := FindWaiter(c.table, code, pid);
    if i < |c.table| {
      WaiterIdsWithout(c.table, i);
      assert c.table[i] in c.table;
      assert PostedOk(c.h.ops, Posted(c.table[i].item, Aborted));
    }
  }

  lemma Registers(c: State, held: multiset<nat>, w: Waiter)
    requires Placed(c, held + multiset{w.item.op.id}) && WaiterOk(c.h.ops, w)
    ensures Placed(c.(table := c.table + [w]), held)
  {
    assert WaiterIds(c.table + [w]) == WaiterIds(c.table) + [w.item.op.id];
  }

  lemma Posts(c: State, held: multiset<nat>, p: Posted)
    requires Placed(c, held + multiset{p.item.op.id}) && PostedOk(c.h.ops, p)
    ensures Placed(c.(posted := c.posted + [p]), held)
  {
    assert PostedIds(c.posted + [p]) == PostedIds(c.posted) + [p.item.op.id];
  }

  /** The invariant does not look at the other parts of the state. */
  lemma Frame(c: State, d: State, held: multiset<nat>)
    requires Placed(c, held)
    requires d.queue == c.queue && d.batch == c.batch && d.done == c.done
    requires d.table == c.table && d.posted == c.posted
    requires d.inUse == c.inUse && d.h.ops == c.h.ops
    requires d.h.owner == c.h.owner && d.h.next == c.h.next
    requires d.writing || d.batch == []
    ensures Placed(d, held)
  {
  }

  lemma Awaits(c: State, held: multiset<nat>, item: Item)
    requires Placed(c, held + multiset{item.op.id}) && Tracked(c.h.ops, item)
    requires !item.stage.Writes()
    ensures Placed(AwaitReply(c, item), held)
  {
    var code, pid := AwaitedCode(item.stage), item.op.pid;
    Evicts(c, held + multiset{item.op.id}, code, pid);
    var c1 := Evict(c, code, pid);
    var f := FindReply(c1.fast, code, pid);
    if f == |c1.fast| {
      Registers(c1, held, Waiter(code, pid, item));
    } else {
      var c2 := c1.(fast := Without(c1.fast, f));
      Frame(c1, c2, held + multiset{item.op.id});
      Posts(c2, held, Posted(item, Got(c1.fast[f])));
    }
  }

  lemma IdsAfterRetire(c: State, op: Op, ending: Ending)
    requires IdsOk(c.h, c.inUse) && op.id in c.h.ops && c.h.ops[op.id] == op
    ensures var d := Retire(c, op, ending); IdsOk(d.h, d.inUse)
  {
  }

  lemma ShapedAfterRetire(c: State, d: State, id: nat)
    requires Shaped(c) && d.h.ops == c.h.ops - {id}
    requires d.queue == c.queue && d.batch == c.batch && d.done == c.done
    requires d.table == c.table && d.posted == c.posted
    requires forall r :: r in c.queue || r in c.batch || r in c.done ==> r.item.op.id != id
    requires forall w :: w in c.table ==> w.item.op.id != id
    requires forall p :: p in c.posted ==> p.item.op.id != id
    ensures Shaped(d)
  {
  }

  lemma KeysAfterRetire(ops: map<nat, Op>, others: multiset<nat>, id: nat)
    requires others + multiset{id} == multiset(ops.Keys) && id in ops
    ensures others == multiset((ops - {id}).Keys)
  {
    var keys := (ops - {id}).Keys;
    assert keys == ops.Keys - {id};
    forall x ensures others[x] == multiset(keys)[x] {
      assert (others + multiset{id})[x] == multiset(ops.Keys)[x];
    }
  }

  lemma Retires(c: State, held: multiset<nat>, op: Op, ending: Ending)
    requires Placed(c, held + multiset{op.id}) && op.id in c.h.ops && c.h.ops[op.id] == op
    ensures Placed(Retire(c, op, ending), held)
  {
    HeldIsNowhere(c, held + multiset{op.id}, op.id);
    IdsAfterRetire(c, op, ending);
    var d := Retire(c, op, ending);
    ShapedAfterRetire(c, d, op.id);
    KeysAfterRetire(c.h.ops, Census(c) + held, op.id);
  }

  lemma PumpsWith(c: State, quota: nat, held: multiset<nat>)
    requires Placed(c, held)
    ensures Placed(Pump(c.(quota := quota)), held)
  {
    var d := c.(quota := quota);
    Frame(c, d, held);
    Pumps(d, held);
  }

  lemma Refunds(c: State, held: multiset<nat>)
    requires Placed(c, held)
    ensures Placed(Refund(c), held)
  {
    if c.limit == MAX_LIMIT {
      assert Refund(c) == c;
    } else {
      var quota := if c.quota == MAX_LIMIT then 0 else c.quota + 1;
      assert Refund(c) == Pump(c.(quota := quota));
      PumpsWith(c, quota, held);
    }
  }

  lemma Completes(c: State, held: multiset<nat>, op: Op, ending: Ending)
    requires Placed(c, held + multiset{op.id}) && op.id in c.h.ops && c.h.ops[op.id] == op
    ensures Placed(Complete(c, op, ending), held)
  {
    Retires(c, held, op, ending);
    Refunds(Retire(c, op, ending), held);
  }

  lemma AdmitCounts(c: State, d: State, held: multiset<nat>)
    requires Counted(c, held) && c.h.next !in c.h.ops && Census(d) == Census(c)
    requires d.h.ops.Keys == c.h.ops.Keys + {c.h.next}
    ensures Counted(d, held + multiset{c.h.next})
  {
    assert multiset(d.h.ops.Keys) == multiset(c.h.ops.Keys) + multiset{c.h.next};
  }

  lemma Admits(c: State, held: multiset<nat>, kind: Kind, pid: nat, seqno: nat)
    requires Placed(c, held)
    requires kind.Bearing() ==> 1 <= pid <= MAX_PACKET_ID && pid !in c.inUse
    ensures var d := Admit(c, kind, pid, seqno);
      && Placed(d, held + multiset{c.h.next})
      && c.h.next in d.h.ops && d.h.ops[c.h.next] == Op(c.h.next, kind, pid, seqno)
  {
    AdmitCounts(c, Admit(c, kind, pid, seqno), held);
  }

  /** Operations other than `id` are live afterwards if they were before. */
  ghost predicate OthersKept(c: State, d: State, id: nat) {
    forall x :: x in c.h.ops && x != id ==> x in d.h.ops && d.h.ops[x] == c.h.ops[x]
  }

  lemma PumpKeepsOps(c: State)
    ensures Pump(c).h.ops == c.h.ops && Pump(c).h.next == c.h.next
  {
  }

  lemma PumpExtends(c: State)
    ensures c.h.trace <= Pump(c).h.trace
  {
  }

  lemma SendKeepsOps(c: State, r: Request)
    ensures Send(c, r).h.ops == c.h.ops && Send(c, r).h.next == c.h.next
  {
    PumpKeepsOps(c.(queue := c.queue + [r]));
  }

  lemma AwaitKeepsOps(c: State, item: Item)
    requires !item.stage.Writes()
    ensures AwaitReply(c, item).h.ops == c.h.ops
  {
  }

  lemma CompleteKeepsOthers(c: State, op: Op, ending: Ending)
    ensures OthersKept(c, Complete(c, op, ending), op.id)
  {
    var c1 := Retire(c, op, ending);
    PumpKeepsOps(c1.(quota := if c1.quota == MAX_LIMIT then 0 else c1.quota + 1));
    assert Complete(c, op, ending).h.ops == c1.h.ops;
  }

  /** The DISCONNECT that answers a malformed packet. */
  function DisconnectItem(c: State): Item {
    Item(Op(c.h.next, Disconnect(false), 0, 0), OnDisconnect, false)
  }

  lemma Malforms(c: State, held: multiset<nat>, op: Op)
    requires Placed(c, held)
    ensures Placed(Malform(c, op), held)
    ensures forall x :: x in c.h.ops ==> x in Malform(c, op).h.ops && Malform(c, op).h.ops[x] == c.h.ops[x]
  {
    var c0 := Log(c, Complaint(op));
    Frame(c, c0, held);
    Admits(c0, held, Disconnect(false), 0, 0);
    var c1 := Admit(c0, Disconnect(false), 0, 0);
    var r := PlainRequest(DisconnectItem(c));
    assert Malform(c, op) == Send(c1, r);
    Sends(c1, held, r);
    SendKeepsOps(c1, r);
  }

  // ----- handlers

  lemma ResendsPublish(c: State, held: multiset<nat>, item: Item)
    requires Placed(c, held + multiset{item.op.id}) && Tracked(c.h.ops, item)
    requires item.op.kind.Publishes()
    ensures Placed(ResendPublish(c, item), held)
    ensures OthersKept(c, ResendPublish(c, item), item.op.id)
  {
    if item.op.id in c.cancelled {
      assert ResendPublish(c, item) == Complete(c, item.op, Failed);
      Completes(c, held, item.op, Failed);
      CompleteKeepsOthers(c, item.op, Failed);
    } else {
      var r := PublishRequest(item.(stage := OnPublish));
      assert ResendPublish(c, item) == Send(c, r);
      Sends(c, held, r);
      SendKeepsOps(c, r);
    }
  }

  lemma ResendsSubscribe(c: State, held: multiset<nat>, item: Item)
    requires Placed(c, held + multiset{item.op.id}) && Tracked(c.h.ops, item)
    requires item.op.kind.Subscribe?
    ensures Placed(ResendSubscribe(c, item), held)
    ensures OthersKept(c, ResendSubscribe(c, item), item.op.id)
  {
    if item.op.id in c.cancelled {
      assert ResendSubscribe(c, item) == Complete(c, item.op, Failed);
      Completes(c, held, item.op, Failed);
      CompleteKeepsOthers(c, item.op, Failed);
    } else {
      var r := PlainRequest(item.(stage := OnSubscribe));
      assert ResendSubscribe(c, item) == Send(c, r);
      Sends(c, held, r);
      SendKeepsOps(c, r);
    }
  }

  lemma AwaitsOnly(c: State, d: State, held: multiset<nat>, item: Item)
    requires Placed(c, held + multiset{item.op.id}) && Tracked(c.h.ops, item)
    requires !item.stage.Writes() && d == AwaitReply(c, item)
    ensures Placed(d, held) && OthersKept(c, d, item.op.id)
  {
    Awaits(c, held, item);
    AwaitKeepsOps(c, item);
  }

  lemma CompletesOnly(c: State, d: State, held: multiset<nat>, op: Op, ending: Ending)
    requires Placed(c, held + multiset{op.id}) && op.id in c.h.ops && c.h.ops[op.id] == op
    requires d == Complete(c, op, ending)
    ensures Placed(d, held) && OthersKept(c, d, op.id)
  {
    Completes(c, held, op, ending);
    CompleteKeepsOthers(c, op, ending);
  }

  lemma SendsOnly(c: State, d: State, held: multiset<nat>, r: Request)
    requires Placed(c, held + multiset{r.item.op.id}) && RequestOk(c.h.ops, r) && d == Send(c, r)
    ensures Placed(d, held) && OthersKept(c, d, r.item.op.id)
  {
    Sends(c, held, r);
    SendKeepsOps(c, r);
  }

  lemma DeliversOnly(c: State, d: State, held: multiset<nat>, op: Op)
    requires Placed(c, held + multiset{op.id}) && op.id in c.h.ops && c.h.ops[op.id] == op
    requires op.kind.Receive? && d == Deliver(c, op)
    ensures Placed(d, held) && OthersKept(c, d, op.id)
  {
    Retires(c, held, op, Completed);
    Frame(Retire(c, op, Completed), d, held);
  }

  lemma WritesPublish(c: State, d: State, held: multiset<nat>, item: Item)
    requires Placed(c, held + multiset{item.op.id}) && Tracked(c.h.ops, item)
    requires item.op.kind.Metered()
    requires d == AwaitReply(Log(c, Written(item.op.id)),
                             item.(stage := if item.op.kind.Qos1? then OnPuback else OnPubrec))
    ensures Placed(d, held) && OthersKept(c, d, item.op.id)
  {
    var c1 := Log(c, Written(item.op.id));
    Frame(c, c1, held + multiset{item.op.id});
    AwaitsOnly(c1, d, held, item.(stage := if item.op.kind.Qos1? then OnPuback else OnPubrec));
  }

  lemma WritesReceived(c: State, d: State, held: multiset<nat>, item: Item)
    requires Placed(c, held + multiset{item.op.id}) && Tracked(c.h.ops, item)
    requires item.op.kind.Receive? && item.stage.Writes() && d == OnWritten(c, item)
    ensures Placed(d, held) && OthersKept(c, d, item.op.id)
  {
    if item.stage.OnRecPubrec? {
      AwaitsOnly(c, d, held, item.(stage := OnRecPubrel));
    } else {
      DeliversOnly(c, d, held, item.op);
    }
  }

  lemma Writes(c: State, d: State, held: multiset<nat>, item: Item)
    requires Placed(c, held + multiset{item.op.id}) && Tracked(c.h.ops, item)
    requires item.stage.Writes() && d == OnWritten(c, item)
    ensures Placed(d, held) && OthersKept(c, d, item.op.id)
  {
    match item.stage
    case OnPublish =>
      if item.op.kind.Qos0? {
        CompletesOnly(c, d, held, item.op, Completed);
      } else {
        WritesPublish(c, d, held, item);
      }
    case OnPubrel => AwaitsOnly(c, d, held, item.(stage := OnPubcomp));
    case OnSubscribe => AwaitsOnly(c, d, held, item.(stage := OnSuback));
    case OnDisconnect => CompletesOnly(c, d, held, item.op, Completed);
    case OnOneShot => CompletesOnly(c, d, held, item.op, Completed);
    case OnRecPuback => WritesReceived(c, d, held, item);
    case OnRecPubrec => WritesReceived(c, d, held, item);
    case OnRecPubcomp => WritesReceived(c, d, held, item);
  }

  lemma TriesAgain(c: State, d: State, held: multiset<nat>, item: Item)
    requires Placed(c, held + multiset{item.op.id}) && Tracked(c.h.ops, item)
    requires item.stage.Writes() && d == OnTryAgain(c, item)
    ensures Placed(d, held) && OthersKept(c, d, item.op.id)
  {
    match item.stage
    case OnPublish => ResendsPublish(c, held, item);
    case OnPubrel => SendsOnly(c, d, held, PubrelRequest(item, true));
    case OnSubscribe => ResendsSubscribe(c, held, item);
    case OnDisconnect =>
      if item.op.kind.retry {
        SendsOnly(c, d, held, PlainRequest(item));
      } else {
        CompletesOnly(c, d, held, item.op, Completed);
      }
    case OnOneShot => CompletesOnly(c, d, held, item.op, Failed);
    case OnRecPuback => CompletesOnly(c, d, held, item.op, Failed);
    case OnRecPubrec => CompletesOnly(c, d, held, item.op, Failed);
    case OnRecPubcomp => AwaitsOnly(c, d, held, item.(stage := OnRecPubrel));
  }

  lemma AnswersMalformed(c: State, d: State, held: multiset<nat>, item: Item)
    requires Placed(c, held + multiset{item.op.id}) && Tracked(c.h.ops, item)
    requires !item.stage.Writes()
    requires d == match item.stage
                  case OnPuback => ResendPublish(Malform(c, item.op), item.(dup := true))
                  case OnPubrec => ResendPublish(Malform(c, item.op), item.(dup := true))
                  case OnPubcomp => Send(Malform(c, item.op), PubrelRequest(item.(stage := OnPubrel), true))
                  case OnSuback => ResendSubscribe(Malform(c, item.op), item)
                  case OnRecPubrel => AwaitReply(Malform(c, item.op), item)
    ensures Placed(d, held) && OthersKept(c, d, item.op.id)
  {
    Malforms(c, held + multiset{item.op.id}, item.op);
    var c1 := Malform(c, item.op);
    match item.stage
    case OnPuback => ResendsPublish(c1, held, item.(dup := true));
    case OnPubrec => ResendsPublish(c1, held, item.(dup := true));
    case OnPubcomp => SendsOnly(c1, d, held, PubrelRequest(item.(stage := OnPubrel), true));
    case OnSuback => ResendsSubscribe(c1, held, item);
    case OnRecPubrel => AwaitsOnly(c1, d, held, item);
  }

  lemma Answers(c: State, d: State, held: multiset<nat>, item: Item, reply: Reply)
    requires Placed(c, held + multiset{item.op.id}) && Tracked(c.h.ops, item)
    requires !item.stage.Writes() && d == OnAnswer(c, item, reply)
    ensures Placed(d, held) && OthersKept(c, d, item.op.id)
  {
    var c1 := Log(c, Answered(item.op.id, reply.readAt, reply.code, reply.verdict));
    Frame(c, c1, held + multiset{item.op.id});
    if reply.verdict.Malformed? {
      AnswersMalformed(c1, d, held, item);
    } else {
      match item.stage
      case OnPuback => CompletesOnly(c1, d, held, item.op, EndingOf(reply.verdict));
      case OnPubrec =>
        if reply.verdict.Failure? {
          CompletesOnly(c1, d, held, item.op, Refused);
        } else {
          var c2 := Log(c1, Accepted(item.op.id));
          Frame(c1, c2, held + multiset{item.op.id});
          SendsOnly(c2, d, held, PubrelRequest(item.(stage := OnPubrel), false));
        }
      case OnPubcomp => CompletesOnly(c1, d, held, item.op, EndingOf(reply.verdict));
      case OnSuback => CompletesOnly(c1, d, held, item.op, EndingOf(reply.verdict));
      case OnRecPubrel => SendsOnly(c1, d, held, PlainRequest(item.(stage := OnRecPubcomp)));
    }
  }

  lemma ResendsOne(c: State, d: State, held: multiset<nat>, item: Item)
    requires Placed(c, held + multiset{item.op.id}) && Tracked(c.h.ops, item)
    requires !item.stage.Writes() && d == OnResend(c, item)
    ensures Placed(d, held) && OthersKept(c, d, item.op.id)
  {
    match item.stage
    case OnPuback => ResendsPublish(c, held, item.(dup := true));
    case OnPubrec => ResendsPublish(c, held, item.(dup := true));
    case OnPubcomp => SendsOnly(c, d, held, PubrelRequest(item.(stage := OnPubrel), true));
    case OnSuback => ResendsSubscribe(c, held, item);
    case OnRecPubrel => AwaitsOnly(c, d, held, item);
  }

  // ----- loops over handlers

  lemma HeadWaiter(s: seq<Waiter>)
    requires s != []
    ensures multiset(WaiterIds(s)) == multiset(WaiterIds(s[1..])) + multiset{s[0].item.op.id}
  {
    assert WaiterIds(s) == [s[0].item.op.id] + WaiterIds(s[1..]);
  }

  lemma HeadRequest(s: seq<Request>)
    requires s != []
    ensures multiset(RequestIds(s)) == multiset(RequestIds(s[1..])) + multiset{s[0].item.op.id}
  {
    assert RequestIds(s) == [s[0].item.op.id] + RequestIds(s[1..]);
  }

  /** Held requests stay good while another held operation is dealt with. */
  lemma HeldRequests(c: State, d: State, held: multiset<nat>, id: nat, s: seq<Request>)
    requires Counted(c, held) && AllRequests(c.h.ops, s) && OthersKept(c, d, id)
    requires multiset(RequestIds(s)) + multiset{id} <= held
    ensures AllRequests(d.h.ops, s)
  {
    HeldIsNowhere(c, held, id);
    forall r | r in s ensures RequestOk(d.h.ops, r) {
      InRequestIds(s, r);
    }
  }

  lemma HeldWaiters(c: State, d: State, held: multiset<nat>, id: nat, s: seq<Waiter>)
    requires Counted(c, held) && AllWaiters(c.h.ops, s) && OthersKept(c, d, id)
    requires multiset(WaiterIds(s)) + multiset{id} <= held
    ensures AllWaiters(d.h.ops, s)
  {
    HeldIsNowhere(c, held, id);
    forall w | w in s ensures WaiterOk(d.h.ops, w) {
      var i :| 0 <= i < |s| && s[i] == w;
      assert WaiterIds(s)[i] == w.item.op.id;
    }
  }

  /** Waiters and requests in the hands of a running loop. */
  ghost predicate Holding(c: State, s: seq<Waiter>, reqs: seq<Request>) {
    && Placed(c, multiset(WaiterIds(s)) + multiset(RequestIds(reqs)))
    && AllWaiters(c.h.ops, s) && AllRequests(c.h.ops, reqs)
  }

  lemma NextWaiter(c: State, d: State, s: seq<Waiter>, reqs: seq<Request>)
    requires Holding(c, s, reqs) && s != []
    requires !s[0].item.stage.Writes() && Fits(s[0].item) && d == OnResend(c, s[0].item)
    ensures Holding(d, s[1..], reqs)
  {
    assert s[0] in s;
    var w, id := s[0], s[0].item.op.id;
    HeadWaiter(s);
    var rest := multiset(WaiterIds(s[1..])) + multiset(RequestIds(reqs));
    var held := rest + multiset{id};
    assert held == multiset(WaiterIds(s)) + multiset(RequestIds(reqs));
    ResendsOne(c, d, rest, w.item);
    HeldWaiters(c, d, held, id, s[1..]);
    HeldRequests(c, d, held, id, reqs);
  }

  lemma NextRequest(c: State, d: State, s: seq<Request>)
    requires Holding(c, [], s) && s != []
    requires s[0].item.stage.Writes() && Fits(s[0].item)
    requires d == OnTryAgain(c, s[0].item) || d == OnAbort(c, s[0].item)
    ensures Holding(d, [], s[1..])
  {
    assert s[0] in s;
    assert RequestOk(c.h.ops, s[0]);
    var item, rest := s[0].item, multiset(RequestIds(s[1..]));
    HeadRequest(s);
    NoWaiters();
    assert rest + multiset{item.op.id} == multiset(RequestIds(s));
    if d == OnTryAgain(c, item) {
      TriesAgain(c, d, rest, item);
    } else {
      CompletesOnly(c, d, rest, item.op, Failed);
    }
    HeldRequests(c, d, multiset(RequestIds(s)), item.op.id, s[1..]);
  }

  lemma NoWaiters()
    ensures multiset(WaiterIds([])) == multiset{} && multiset(RequestIds([])) == multiset{}
    ensures forall m: multiset<nat> :: multiset{} + m == m && m + multiset{} == m
  {
    assert WaiterIds([]) == [] && RequestIds([]) == [];
  }

  // ----- steps

  /** The invariant between steps. */
  ghost predicate InPlace(c: State) {
    Placed(c, multiset{}) && (c.writing ==> c.batch != [])
  }
}
