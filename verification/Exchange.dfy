/**
 The client and a broker that keeps its session, joined by two channels. What
 the client hands over waits in the run itself, behind the part `past`; replies
 wait in `down`. The connection may break at any moment: packets not yet taken
 by the broker are lost, and of the replies only those that the client's reader
 has already buffered survive, to be read after the reconnect.

 An operation whose PUBREC was accepted has been forwarded by the broker.
 */
module Exchange {
  import opened Requests
  import opened Client
  import opened Places
  import opened Soundness
  import opened Traffic
  import opened Engine
  import opened Theorems
  import opened Broker

  /** `past` is the part of the run that the broker has behind it: its packets
      have arrived or are lost. `last` is the phase of the last packet on each id
      that made a difference to the broker; the broker looks at neither. `watched`
      are the packet ids of which anything is said. */
  datatype Net = Net(past: seq<Event>, down: seq<Reply>, session: Session, last: map<nat, nat>,
                     watched: iset<nat>)

  /** A reply of the QoS 2 exchange. */
  predicate OfFlow(r: Reply) { r.code.Pubcomp? || r.code.Pubrec? }

  /** A reply that reports a phase: a PUBCOMP, or a PUBREC of an accepted PUBLISH. */
  predicate Tells(r: Reply) { r.code.Pubcomp? || (r.code.Pubrec? && r.verdict.Success?) }

  predicate Refuses(r: Reply) { r.code.Pubrec? && r.verdict.Failure? }

  function PhaseOf(r: Reply): nat {
    2 * r.source + (if r.code.Pubcomp? then 1 else 0)
  }

  ghost predicate IsForwarded(b: Session, id: nat) {
    exists m :: m in b.forwarded && m.op == id
  }

  ghost predicate OwnedBy(h: History, pid: nat, id: nat) {
    pid in h.owner && h.owner[pid] == id && id in h.ops && h.ops[id].kind.Qos2?
  }

  // ----- the channels

  /** The packet that the reply answers. */
  ghost predicate Receipt(past: seq<Event>, r: Reply) {
    && r.answers < |past| && OfQos2(past[r.answers])
    && past[r.answers].id == r.source && past[r.answers].pid == r.pid
    && (past[r.answers].packet.PubrelPacket? <==> r.code.Pubcomp?)
  }

  /** Replies come in the order of the packets they answer. */
  ghost predicate DownRises(down: seq<Reply>) {
    forall i, j :: 0 <= i < j < |down| && OfFlow(down[i]) && OfFlow(down[j])
      ==> down[i].answers < down[j].answers
  }

  /** A PUBLISH of this operation at this position. */
  predicate CopyAt(t: seq<Event>, id: nat, k: nat) {
    k < |t| && OfQos2(t[k]) && t[k].id == id && !t[k].packet.PubrelPacket?
  }

  ghost predicate OtherCopy(t: seq<Event>, id: nat, k: nat) {
    exists j: nat :: j != k && CopyAt(t, id, j)
  }

  /** A reply is well-formed, and what it reports happened; a message that was
      refused and forwarded nevertheless was sent more than once. */
  ghost predicate Honest(n: Net, r: Reply) {
    && !r.verdict.Malformed?
    && (OfFlow(r) ==> Receipt(n.past, r))
    && (Tells(r) ==> r.pid in n.last && PhaseOf(r) <= n.last[r.pid])
    && (Tells(r) && r.code.Pubrec? && r.pid in n.watched ==> IsForwarded(n.session, r.source))
    && (Refuses(r) && IsForwarded(n.session, r.source) ==> OtherCopy(n.past, r.source, r.answers))
  }

  ghost predicate AllHonest(n: Net, s: seq<Reply>) {
    forall r :: r in s ==> Honest(n, r)
  }

  /** Replies still in transit answer later packets. */
  ghost predicate Overtaken(down: seq<Reply>, k: nat) {
    forall d :: d in down && OfFlow(d) ==> k < d.answers
  }

  ghost predicate ReadOk(n: Net, r: Reply) {
    Honest(n, r) && (OfFlow(r) ==> Overtaken(n.down, r.answers))
  }

  ghost predicate AllRead(n: Net, s: seq<Reply>) {
    forall r :: r in s ==> ReadOk(n, r)
  }

  ghost predicate PostedRead(n: Net, s: seq<Posted>) {
    forall p :: p in s ==>
      && (p.outcome.Got? ==> Answerable(n, p.item, p.outcome.reply))
      && (p.outcome.Aborted? ==> !p.item.op.kind.Qos2?)
  }

  /** The reply may be given to the operation. */
  ghost predicate Answerable(n: Net, item: Item, r: Reply) {
    ReadOk(n, r) && (OfFlow(r) && item.op.kind.Qos2? && item.op.pid in n.watched ==> r.source == item.op.id)
  }

  // ----- what the network says about the client

  ghost predicate LastOwned(h: History, last: map<nat, nat>, ids: iset<nat>) {
    forall p :: p in ids && p in last && last[p] % 2 == 0 ==> OwnedBy(h, p, last[p] / 2)
  }

  ghost predicate DownOwned(h: History, down: seq<Reply>, ids: iset<nat>) {
    forall r :: r in down && r.code.Pubrec? && r.pid in ids ==> OwnedBy(h, r.pid, r.source)
  }

  ghost predicate UpOwned(h: History, pos: nat, ids: iset<nat>) {
    forall i :: pos <= i < |h.trace| && OfQos2(h.trace[i]) && !h.trace[i].packet.PubrelPacket? && h.trace[i].pid in ids
      ==> OwnedBy(h, h.trace[i].pid, h.trace[i].id)
  }

  /** A PUBLISH whose PUBREC was accepted reached the broker, and replies to
      older operations on its packet id are no longer in transit. */
  ghost predicate PastPublish(n: Net, pid: nat, id: nat) {
    pid in n.last && 2 * id <= n.last[pid] && NotOlder(n.down, pid, 2 * id)
  }

  ghost predicate NotOlder(down: seq<Reply>, pid: nat, phase: nat) {
    forall d :: d in down && OfFlow(d) && d.pid == pid ==> phase <= PhaseOf(d)
  }

  ghost predicate AllPast(h: History, n: Net) {
    forall id :: id in h.ops && h.ops[id].kind.Qos2? && h.ops[id].pid in n.watched && Accepted(id) in h.trace
      ==> PastPublish(n, h.ops[id].pid, id)
  }

  /** The operation was sent on a packet id of which nothing is said. */
  ghost predicate SentElsewhere(t: seq<Event>, id: nat, ids: iset<nat>) {
    exists e :: e in t && OfQos2(e) && e.id == id && e.pid !in ids
  }

  ghost predicate AllForwarded(h: History, n: Net) {
    && (forall id :: Accepted(id) in h.trace ==> IsForwarded(n.session, id) || SentElsewhere(h.trace, id, n.watched))
    && (forall p :: p in n.watched && p in n.last && n.last[p] % 2 == 0 ==> IsForwarded(n.session, n.last[p] / 2))
  }

  ghost predicate NetOk(h: History, n: Net) {
    && n.past <= h.trace && Agrees(n.past, n.session, n.last)
    && DownRises(n.down) && AllHonest(n, n.down)
    && LastOwned(h, n.last, n.watched) && DownOwned(h, n.down, n.watched) && UpOwned(h, |n.past|, n.watched)
    && AllPast(h, n) && AllForwarded(h, n)
  }

  // ----- what the early replies say about the operations

  function Expected(stage: Stage): Code {
    if stage.OnPublish? || stage.OnPubrec? then Pubrec else Pubcomp
  }

  /** No early reply can be mistaken for the one the operation waits for. */
  ghost predicate Genuine(item: Item, fast: seq<Reply>, ids: iset<nat>) {
    item.op.kind.Qos2? && item.op.pid in ids ==>
      forall r :: r in fast && OfFlow(r) && r.pid == item.op.pid && r.code == Expected(item.stage)
        ==> r.source == item.op.id
  }

  ghost predicate GenuineRequests(s: seq<Request>, fast: seq<Reply>, ids: iset<nat>) {
    forall r :: r in s ==> Genuine(r.item, fast, ids)
  }
  ghost predicate GenuineWaiters(s: seq<Waiter>, fast: seq<Reply>, ids: iset<nat>) {
    forall w :: w in s ==> Genuine(w.item, fast, ids)
  }

  ghost predicate Link(c: State, n: Net) {
    && NetOk(c.h, n) && AllRead(n, c.fast) && PostedRead(n, c.posted)
    && GenuineRequests(c.batch, c.fast, n.watched) && GenuineRequests(c.done, c.fast, n.watched)
    && GenuineWaiters(c.table, c.fast, n.watched)
    && c.cancelled == {}
  }

  // ----- moves of the client

  lemma NetLogs(h: History, k: History, e: Event, n: Net)
    requires NetOk(h, n) && !e.Handed? && !e.Accepted? && k == h.(trace := h.trace + [e])
    ensures NetOk(k, n)
  {
    assert n.past <= k.trace;
    NetOwnersLog(h, k, e, n);
    StillElsewhere(h.trace, k.trace, n.watched);
  }

  lemma NetOwnersLog(h: History, k: History, e: Event, n: Net)
    requires LastOwned(h, n.last, n.watched) && DownOwned(h, n.down, n.watched) && UpOwned(h, |n.past|, n.watched)
    requires n.past <= h.trace && !e.Handed? && k.trace == h.trace + [e]
    requires forall pid, id :: OwnedBy(h, pid, id) ==> OwnedBy(k, pid, id)
    ensures LastOwned(k, n.last, n.watched) && DownOwned(k, n.down, n.watched) && UpOwned(k, |n.past|, n.watched)
  {
  }

  lemma SameLink(c: State, d: State, n: Net)
    requires Link(c, n)
    requires d.h == c.h && d.fast == c.fast && d.posted == c.posted && d.batch == c.batch
    requires d.done == c.done && d.table == c.table && d.cancelled == c.cancelled
    ensures Link(d, n)
  {
  }

  lemma LogLink(c: State, d: State, e: Event, n: Net)
    requires Link(c, n) && !e.Handed? && !e.Accepted? && d == Log(c, e)
    ensures Link(d, n)
  {
    NetLogs(c.h, d.h, e, n);
  }

  lemma NetHands(h: History, s: seq<Request>, k: History, n: Net)
    requires NetOk(h, n) && (forall r :: r in s ==> Current(h, r))
    requires k == h.(trace := h.trace + HandedEvents(s))
    ensures NetOk(k, n)
  {
    assert n.past <= k.trace;
    HandedMembers(s);
    UpHands(h, s, k, |n.past|, n.watched);
    StillElsewhere(h.trace, k.trace, n.watched);
  }

  lemma StillElsewhere(t: seq<Event>, u: seq<Event>, ids: iset<nat>)
    requires t <= u
    ensures forall id :: SentElsewhere(t, id, ids) ==> SentElsewhere(u, id, ids)
  {
    forall id | SentElsewhere(t, id, ids) ensures SentElsewhere(u, id, ids) {
      var e :| e in t && OfQos2(e) && e.id == id && e.pid !in ids;
      assert e in u;
    }
  }

  lemma UpHands(h: History, s: seq<Request>, k: History, pos: nat, ids: iset<nat>)
    requires UpOwned(h, pos, ids) && (forall r :: r in s ==> Current(h, r))
    requires k == h.(trace := h.trace + HandedEvents(s))
    ensures UpOwned(k, pos, ids)
  {
    HandedMembers(s);
    forall i | pos <= i < |k.trace| && OfQos2(k.trace[i]) && !k.trace[i].packet.PubrelPacket? && k.trace[i].pid in ids
      ensures OwnedBy(k, k.trace[i].pid, k.trace[i].id)
    {
      if i < |h.trace| {
        assert OwnedBy(h, h.trace[i].pid, h.trace[i].id);
      } else {
        assert k.trace[i] in HandedEvents(s);
        var r :| r in s && k.trace[i] == HandedEvent(r);
        assert Current(h, r);
      }
    }
  }

  lemma PumpLink(c: State, d: State, held: multiset<nat>, n: Net)
    requires Placed(c, held) && RequestFacts(c.h.trace, c.queue) && Link(c, n) && d == Pump(c)
    ensures Link(d, n)
  {
    if d != c {
      assert d.h == c.h.(trace := c.h.trace + HandedEvents(d.batch));
      SplitKeeps(c.queue, c.quota);
      forall r | r in d.batch ensures Current(c.h, r) {
        QueueIsCurrent(c, r);
      }
      NetHands(c.h, d.batch, d.h, n);
    }
  }

  lemma SendLink(c: State, d: State, held: multiset<nat>, r: Request, n: Net)
    requires Placed(c, held + multiset{r.item.op.id}) && RequestOk(c.h.ops, r) && Chronicle(c)
    requires Facts(c.h.trace, r.item) && Link(c, n) && d == Send(c, r)
    ensures Link(d, n)
  {
    var c1 := c.(queue := c.queue + [r]);
    Enqueue(c, held, r);
    SameLink(c, c1, n);
    PumpLink(c1, d, held, n);
  }

  /** Nothing about a PUBLISH on this packet id is outstanding. */
  ghost predicate Drained(h: History, n: Net, pid: nat) {
    && (pid in n.last ==> n.last[pid] % 2 == 1)
    && (forall r :: r in n.down && r.code.Pubrec? ==> r.pid != pid)
    && (forall i :: |n.past| <= i < |h.trace| && OfQos2(h.trace[i]) && !h.trace[i].packet.PubrelPacket?
          ==> h.trace[i].pid != pid)
  }

  lemma NetRetires(h: History, inUse: set<nat>, k: History, op: Op, ending: Ending, n: Net)
    requires NetOk(h, n) && IdsOk(h, inUse) && op.id in h.ops && h.ops[op.id] == op
    requires op.kind.Qos2? && op.pid in n.watched ==> Drained(h, n, op.pid)
    requires k == h.(ops := h.ops - {op.id}, trace := h.trace + [Finished(op.id, ending, op.kind)],
                     owner := if op.kind.Bearing() then h.owner - {op.pid} else h.owner)
    ensures NetOk(k, n)
  {
    assert n.past <= k.trace;
    forall pid, id | OwnedBy(h, pid, id) && (op.kind.Qos2? ==> pid != op.pid) ensures OwnedBy(k, pid, id) {
      if op.kind.Bearing() && pid == op.pid {
        assert false;
      }
    }
  }

  lemma RetireLink(c: State, d: State, op: Op, ending: Ending, n: Net)
    requires Link(c, n) && IdsOk(c.h, c.inUse) && op.id in c.h.ops && c.h.ops[op.id] == op
    requires op.kind.Qos2? && op.pid in n.watched ==> Drained(c.h, n, op.pid)
    requires d == Retire(c, op, ending)
    ensures Link(d, n)
  {
    NetRetires(c.h, c.inUse, d.h, op, ending, n);
  }

  lemma CompleteLink(c: State, d: State, held: multiset<nat>, op: Op, ending: Ending, n: Net)
    requires Placed(c, held + multiset{op.id}) && op.id in c.h.ops && c.h.ops[op.id] == op
    requires Chronicle(c) && Link(c, n) && (op.kind.Qos2? && op.pid in n.watched ==> Drained(c.h, n, op.pid))
    requires Earned(c.h.trace, op, ending)
    requires d == Complete(c, op, ending)
    ensures Link(d, n)
  {
    var c1, c2 := Retire(c, op, ending), Settled(c, op, ending);
    CompleteIsSettledPump(c, op, ending);
    RetireLink(c, c1, op, ending, n);
    SameLink(c1, c2, n);
    if op.kind.Metered() && c.limit != MAX_LIMIT {
      Retires(c, held, op, ending);
      RetiresSoundly(c, op, ending);
      Frame(c1, c2, held);
      PumpLink(c2, d, held, n);
    }
  }

  lemma AwaitLink(c: State, d: State, held: multiset<nat>, item: Item, n: Net)
    requires Placed(c, held + multiset{item.op.id}) && Tracked(c.h.ops, item)
    requires Link(c, n) && !item.stage.Writes() && Genuine(item, c.fast, n.watched) && d == AwaitReply(c, item)
    ensures Link(d, n)
  {
    var code, pid := AwaitedCode(item.stage), item.op.pid;
    var c1 := Evict(c, code, pid);
    if item.op.kind.Bearing() {
      NobodyElseWaits(c, held, item);
    } else {
      EvictLink(c, c1, pid, n);
    }
    var f := FindReply(c1.fast, code, pid);
    if f == |c1.fast| {
      RegisterLink(c1, d, Waiter(code, pid, item), n);
    } else {
      TakeFastLink(c1, d, item, f, n);
    }
  }

  lemma EvictLink(c: State, d: State, pid: nat, n: Net)
    requires Link(c, n) && AllWaiters(c.h.ops, c.table) && d == Evict(c, Pubrel, pid)
    ensures Link(d, n)
  {
    var i := FindWaiter(c.table, Pubrel, pid);
    if i < |c.table| {
      assert c.table[i] in c.table;
      assert WaiterOk(c.h.ops, c.table[i]);
      WaiterIdsWithout(c.table, i);
    }
  }

  lemma RegisterLink(c: State, d: State, w: Waiter, n: Net)
    requires Link(c, n) && Genuine(w.item, c.fast, n.watched) && d == c.(table := c.table + [w])
    ensures Link(d, n)
  {
  }

  lemma TakeFastLink(c: State, d: State, item: Item, f: nat, n: Net)
    requires Link(c, n) && !item.stage.Writes() && Fits(item) && Genuine(item, c.fast, n.watched)
    requires f < |c.fast| && c.fast[f].code == AwaitedCode(item.stage) && c.fast[f].pid == item.op.pid
    requires d == c.(fast := Without(c.fast, f), posted := c.posted + [Posted(item, Got(c.fast[f]))])
    ensures Link(d, n)
  {
    var r := c.fast[f];
    assert r in c.fast;
    assert forall x :: x in d.fast ==> x in c.fast;
    FewerEarly(c, d.fast, n.watched);
  }

  lemma FewerEarly(c: State, fast: seq<Reply>, ids: iset<nat>)
    requires forall x :: x in fast ==> x in c.fast
    requires GenuineRequests(c.batch, c.fast, ids) && GenuineRequests(c.done, c.fast, ids)
    requires GenuineWaiters(c.table, c.fast, ids)
    ensures GenuineRequests(c.batch, fast, ids) && GenuineRequests(c.done, fast, ids)
    ensures GenuineWaiters(c.table, fast, ids)
  {
  }

  lemma NetAdmits(h: History, k: History, op: Op, n: Net)
    requires NetOk(h, n) && Known(h.trace, h) && op.id == h.next && op.id !in h.ops
    requires op.kind.Bearing() ==> op.pid !in h.owner
    requires k == h.(ops := h.ops[op.id := op], trace := h.trace + [Started(op.id)], next := h.next + 1,
                     owner := if op.kind.Bearing() then h.owner[op.pid := op.id] else h.owner)
    ensures NetOk(k, n)
  {
    assert n.past <= k.trace;
    NetOwnersLog(h, k, Started(op.id), n);
    assert Accepted(op.id) !in h.trace;
  }

  lemma AdmitLink(c: State, d: State, kind: Kind, pid: nat, seqno: nat, n: Net)
    requires Link(c, n) && IdsOk(c.h, c.inUse) && Known(c.h.trace, c.h)
    requires kind.Bearing() ==> pid !in c.inUse
    requires d == Admit(c, kind, pid, seqno)
    ensures Link(d, n)
  {
    NetAdmits(c.h, d.h, Op(c.h.next, kind, pid, seqno), n);
  }

  lemma NetAccepts(h: History, k: History, op: Op, n: Net)
    requires NetOk(h, n) && Labelled(h) && WasSent(h.trace, op.id) && op.id in h.ops && h.ops[op.id] == op
    requires op.kind.Qos2?
    requires op.pid in n.watched ==> PastPublish(n, op.pid, op.id) && IsForwarded(n.session, op.id)
    requires k == h.(trace := h.trace + [Accepted(op.id)])
    ensures NetOk(k, n)
  {
    assert n.past <= k.trace;
    NetOwnersLog(h, k, Accepted(op.id), n);
    StillElsewhere(h.trace, k.trace, n.watched);
    if op.pid !in n.watched {
      var e :| e in h.trace && e.Handed? && e.id == op.id;
      assert e in k.trace;
      assert SentElsewhere(k.trace, op.id, n.watched);
    }
  }

  /** Replies that come after a reply are not of an earlier phase. */
  lemma NotBefore(h: History, n: Net, r: Reply, d: Reply)
    requires n.past <= h.trace && PhasesRise(h.trace) && Receipt(n.past, r) && Receipt(n.past, d)
    requires r.answers < d.answers && r.pid == d.pid && OfFlow(r) && OfFlow(d)
    ensures PhaseOf(r) <= PhaseOf(d)
  {
    assert h.trace[r.answers] == n.past[r.answers] && h.trace[d.answers] == n.past[d.answers];
    PhasesAt(h.trace, r.answers, d.answers);
  }

  lemma ReadPastPublish(h: History, n: Net, r: Reply)
    requires NetOk(h, n) && PhasesRise(h.trace) && ReadOk(n, r) && r.code.Pubrec? && r.verdict.Success?
    ensures PastPublish(n, r.pid, r.source)
  {
    forall d | d in n.down && OfFlow(d) && d.pid == r.pid ensures 2 * r.source <= PhaseOf(d) {
      NotBefore(h, n, r, d);
    }
  }

  lemma AcceptLink(c: State, d: State, item: Item, r: Reply, n: Net)
    requires Link(c, n) && InPhase(c.h) && Tracked(c.h.ops, item) && Facts(c.h.trace, item) && item.stage.OnPubrec?
    requires Answerable(n, item, r) && r.code.Pubrec? && r.verdict.Success? && r.pid == item.op.pid
    requires d == Log(c, Accepted(item.op.id))
    ensures Link(d, n)
  {
    ReadPastPublish(c.h, n, r);
    NetAccepts(c.h, d.h, item.op, n);
  }
}
