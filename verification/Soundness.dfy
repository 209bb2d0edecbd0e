/**
 What the state of the client says about its run: how far each operation has
 got, whether its packet carries DUP, how old the early replies are. The
 properties of `Runs.Good` are kept along with these facts by every move of the
 engine.
 */
module Soundness {
  import opened Requests
  import opened Client
  import opened Places
  import opened Runs

  // ----- facts about each operation

  ghost predicate WasSent(t: seq<Event>, id: nat) {
    exists e :: e in t && e.Handed? && e.id == id
  }

  /** Stages an operation only reaches after a packet of it was handed over. */
  predicate Progressed(stage: Stage) {
    stage.OnPuback? || stage.OnPubrec? || stage.OnPubrel? || stage.OnPubcomp?
    || stage.OnSuback? || stage.OnRecPubrel? || stage.OnRecPubcomp?
  }

  /** The stage an operation is in, read against its run. */
  ghost predicate Facts(t: seq<Event>, item: Item) {
    && (item.stage.OnPublish? ==> (item.dup <==> Written(item.op.id) in t))
    && (item.stage.OnPuback? || item.stage.OnPubrec? ==> Written(item.op.id) in t)
    && (item.stage.Released() <==> Accepted(item.op.id) in t)
    && (Progressed(item.stage) ==> WasSent(t, item.op.id))
  }

  ghost predicate RequestFacts(t: seq<Event>, s: seq<Request>) {
    forall r :: r in s ==> Facts(t, r.item)
  }
  ghost predicate WaiterFacts(t: seq<Event>, s: seq<Waiter>) {
    forall w :: w in s ==> Facts(t, w.item)
  }
  ghost predicate PostedFacts(t: seq<Event>, s: seq<Posted>) {
    forall p :: p in s ==> Facts(t, p.item)
                           && (p.outcome.Got? ==> SentBefore(t, p.item.op.id, p.outcome.reply.readAt))
  }

  ghost predicate AllSent(t: seq<Event>, s: seq<Request>) {
    forall r :: r in s ==> WasSent(t, r.item.op.id)
  }

  /** Early replies were read after the last write began. */
  ghost predicate FastFresh(t: seq<Event>, s: seq<Reply>) {
    forall r :: r in s ==> Since(t, r.readAt)
  }

  ghost predicate Since(t: seq<Event>, k: nat) {
    k <= |t| && forall j :: k <= j < |t| ==> !t[j].Handed?
  }

  /** The event is about an operation. */
  predicate HasId(e: Event) {
    !e.Epoch? && !e.Disturbed? && !e.Stopped? && !e.Dropped? && !e.Arrived?
  }

  /** Events are about calls that were made; what has ended is not live. */
  ghost predicate Known(t: seq<Event>, h: History) {
    forall e :: e in t && HasId(e) ==> e.id < h.next && (e.Finished? ==> e.id !in h.ops)
  }

  ghost predicate Chronicle(c: State) {
    var t := c.h.trace;
    && Good(t) && Known(t, c.h) && c.h.ops.Keys == Live(t)
    && RequestFacts(t, c.queue) && RequestFacts(t, c.batch) && RequestFacts(t, c.done)
    && WaiterFacts(t, c.table) && PostedFacts(t, c.posted)
    && AllSent(t, c.batch) && AllSent(t, c.done)
    && FastFresh(t, c.fast)
  }

  // ----- one more event

  lemma GrowFacts(t: seq<Event>, e: Event, item: Item)
    requires Facts(t, item)
    requires (e.Written? || e.Accepted?) ==> e.id != item.op.id
    ensures Facts(t + [e], item)
  {
    if WasSent(t, item.op.id) {
      var h :| h in t && h.Handed? && h.id == item.op.id;
      assert h in t + [e];
    }
  }

  lemma GrowSent(t: seq<Event>, e: Event, id: nat)
    requires WasSent(t, id)
    ensures WasSent(t + [e], id)
  {
    var h :| h in t && h.Handed? && h.id == id;
    assert h in t + [e];
  }

  lemma GrowSentBefore(t: seq<Event>, e: Event, id: nat, k: nat)
    requires SentBefore(t, id, k) && !(e.Handed? && e.id == id)
    ensures SentBefore(t + [e], id, k)
  {
    var j :| 0 <= j < k && t[j].Handed? && t[j].id == id;
    assert (t + [e])[j] == t[j];
  }

  /** An event about `id` does not disturb what is known of other operations. */
  lemma GrowRequests(t: seq<Event>, e: Event, s: seq<Request>)
    requires RequestFacts(t, s)
    requires (e.Written? || e.Accepted?) ==> forall r :: r in s ==> r.item.op.id != e.id
    ensures RequestFacts(t + [e], s)
  {
    forall r | r in s ensures Facts(t + [e], r.item) { GrowFacts(t, e, r.item); }
  }

  lemma GrowWaiters(t: seq<Event>, e: Event, s: seq<Waiter>)
    requires WaiterFacts(t, s)
    requires (e.Written? || e.Accepted?) ==> forall w :: w in s ==> w.item.op.id != e.id
    ensures WaiterFacts(t + [e], s)
  {
    forall w | w in s ensures Facts(t + [e], w.item) { GrowFacts(t, e, w.item); }
  }

  lemma GrowPosted(t: seq<Event>, e: Event, s: seq<Posted>)
    requires PostedFacts(t, s)
    requires (e.Written? || e.Accepted? || e.Handed?) ==> forall p :: p in s ==> p.item.op.id != e.id
    ensures PostedFacts(t + [e], s)
  {
    forall p | p in s ensures Facts(t + [e], p.item)
      && (p.outcome.Got? ==> SentBefore(t + [e], p.item.op.id, p.outcome.reply.readAt))
    {
      GrowFacts(t, e, p.item);
      if p.outcome.Got? { GrowSentBefore(t, e, p.item.op.id, p.outcome.reply.readAt); }
    }
  }

  lemma GrowAllSent(t: seq<Event>, e: Event, s: seq<Request>)
    requires AllSent(t, s)
    ensures AllSent(t + [e], s)
  {
    forall r | r in s ensures WasSent(t + [e], r.item.op.id) { GrowSent(t, e, r.item.op.id); }
  }

  /** Logging an event about an operation that the running code holds. */
  lemma Logs(c: State, held: multiset<nat>, e: Event)
    requires Counted(c, held) && Chronicle(c)
    requires Fitting(c.h.trace, e) && !e.Handed? && !e.Finished? && !e.Started?
    requires HasId(e) ==> e.id < c.h.next
    requires e.Written? || e.Accepted? ==> e.id in held
    ensures Chronicle(Log(c, e))
  {
    var t := c.h.trace;
    if e.Written? || e.Accepted? { HeldIsNowhere(c, held, e.id); }
    GoodAppend(t, e);
    LiveAppend(t, e);
    GrowRequests(t, e, c.queue);
    GrowRequests(t, e, c.batch);
    GrowRequests(t, e, c.done);
    GrowWaiters(t, e, c.table);
    GrowPosted(t, e, c.posted);
    GrowAllSent(t, e, c.batch);
    GrowAllSent(t, e, c.done);
  }

  // ----- a write begins

  lemma {:induction false} HandedMembers(s: seq<Request>)
    ensures forall e :: e in HandedEvents(s) ==> exists r :: r in s && e == HandedEvent(r)
    ensures forall r :: r in s ==> HandedEvent(r) in HandedEvents(s)
  {
    if s != [] {
      HandedMembers(s[..|s| - 1]);
      forall e | e in HandedEvents(s) ensures exists r :: r in s && e == HandedEvent(r) {
        if e in HandedEvents(s[..|s| - 1]) {
          var r :| r in s[..|s| - 1] && e == HandedEvent(r);
          assert r in s;
        } else {
          assert s[|s| - 1] in s;
        }
      }
      assert s == s[..|s| - 1] + [s[|s| - 1]];
    }
  }

  /** Handing over a batch adds events that are neither writes nor acceptances. */
  lemma HandFacts(t: seq<Event>, s: seq<Request>, item: Item)
    requires Facts(t, item)
    ensures Facts(t + HandedEvents(s), item)
  {
    HandedMembers(s);
    if WasSent(t, item.op.id) {
      var h :| h in t && h.Handed? && h.id == item.op.id;
      assert h in t + HandedEvents(s);
    }
  }

  lemma HandRequests(t: seq<Event>, s: seq<Request>, q: seq<Request>)
    requires RequestFacts(t, q)
    ensures RequestFacts(t + HandedEvents(s), q)
  {
    forall r | r in q ensures Facts(t + HandedEvents(s), r.item) { HandFacts(t, s, r.item); }
  }

  lemma HandWaiters(t: seq<Event>, s: seq<Request>, q: seq<Waiter>)
    requires WaiterFacts(t, q)
    ensures WaiterFacts(t + HandedEvents(s), q)
  {
    forall w | w in q ensures Facts(t + HandedEvents(s), w.item) { HandFacts(t, s, w.item); }
  }

  lemma HandPosted(t: seq<Event>, s: seq<Request>, q: seq<Posted>)
    requires PostedFacts(t, q)
    requires forall r, p :: r in s && p in q ==> r.item.op.id != p.item.op.id
    ensures PostedFacts(t + HandedEvents(s), q)
  {
    var u := t + HandedEvents(s);
    HandedMembers(s);
    forall p | p in q ensures Facts(u, p.item)
      && (p.outcome.Got? ==> SentBefore(u, p.item.op.id, p.outcome.reply.readAt))
    {
      HandFacts(t, s, p.item);
      if p.outcome.Got? {
        var k := p.outcome.reply.readAt;
        var j :| 0 <= j < k && t[j].Handed? && t[j].id == p.item.op.id;
        assert u[j] == t[j];
        forall j | k <= j < |u| && u[j].Handed? ensures u[j].id != p.item.op.id {
          if j >= |t| {
            assert u[j] in HandedEvents(s);
          }
        }
      }
    }
  }

  lemma HandSent(t: seq<Event>, s: seq<Request>, q: seq<Request>)
    requires AllSent(t, q)
    ensures AllSent(t + HandedEvents(s), q) && AllSent(t + HandedEvents(s), s)
  {
    var u := t + HandedEvents(s);
    HandedMembers(s);
    forall r | r in q ensures WasSent(u, r.item.op.id) {
      var h :| h in t && h.Handed? && h.id == r.item.op.id;
      assert h in u;
    }
    forall r | r in s ensures WasSent(u, r.item.op.id) {
      assert HandedEvent(r) in u;
    }
  }

  lemma {:induction false} HandGood(t: seq<Event>, s: seq<Request>)
    requires Good(t) && RequestFacts(t, s)
    requires forall r :: r in s && r.throttled ==> r.item.stage.OnPublish? || r.item.stage.OnPubrel?
    ensures Good(t + HandedEvents(s))
  {
    if s == [] {
      assert t + HandedEvents(s) == t;
    } else {
      var front, r := s[..|s| - 1], s[|s| - 1];
      HandGood(t, front);
      HandFacts(t, front, r.item);
      GoodAppend(t + HandedEvents(front), HandedEvent(r));
      assert t + HandedEvents(s) == t + HandedEvents(front) + [HandedEvent(r)];
    }
  }

  lemma HandKnown(t: seq<Event>, s: seq<Request>, h: History)
    requires Known(t, h) && forall r :: r in s ==> r.item.op.id < h.next
    ensures Known(t + HandedEvents(s), h)
  {
    HandedMembers(s);
  }

  lemma {:induction false} HandLive(t: seq<Event>, s: seq<Request>)
    ensures Live(t + HandedEvents(s)) == Live(t)
  {
    if s == [] {
      assert t + HandedEvents(s) == t;
    } else {
      var front, e := s[..|s| - 1], HandedEvent(s[|s| - 1]);
      HandLive(t, front);
      LiveAppend(t + HandedEvents(front), e);
      assert t + HandedEvents(s) == t + HandedEvents(front) + [e];
    }
  }

  /** A batch is taken from the queue and handed over. */
  lemma BeginsSoundly(c: State, held: multiset<nat>, taken: seq<Request>, left: seq<Request>, quota: nat)
    requires Placed(c, held) && Chronicle(c)
    requires forall r :: r in taken || r in left ==> r in c.queue
    ensures Chronicle(Begin(c, taken, left, quota))
  {
    var t := c.h.trace;
    assert RequestFacts(t, taken) && RequestFacts(t, left);
    assert AllRequests(c.h.ops, c.queue);
    forall r | r in taken && r.throttled ensures r.item.stage.OnPublish? || r.item.stage.OnPubrel? {
      assert RequestOk(c.h.ops, r);
    }
    HandGood(t, taken);
    HandKnown(t, taken, c.h);
    HandLive(t, taken);
    HandRequests(t, taken, taken);
    HandRequests(t, taken, left);
    HandRequests(t, taken, c.done);
    HandWaiters(t, taken, c.table);
    QueuedNotPosted(c, held);
    HandPosted(t, taken, c.posted);
    HandSent(t, taken, c.done);
  }

  lemma QueuedNotPosted(c: State, held: multiset<nat>)
    requires Counted(c, held)
    ensures forall r, p :: r in c.queue && p in c.posted ==> r.item.op.id != p.item.op.id
  {
    forall r, p | r in c.queue && p in c.posted ensures r.item.op.id != p.item.op.id {
      InRequestIds(c.queue, r);
      var i :| 0 <= i < |c.posted| && c.posted[i] == p;
      assert PostedIds(c.posted)[i] == p.item.op.id;
      assert multiset(PostedIds(c.posted))[p.item.op.id] >= 1;
      assert (Census(c) + held)[r.item.op.id] <= 1;
    }
  }

  lemma PumpsSoundly(c: State, held: multiset<nat>)
    requires Placed(c, held) && Chronicle(c)
    ensures Chronicle(Pump(c))
  {
    if !c.writing && c.queue != [] {
      var t := FirstTerminal(c.queue);
      if t < |c.queue| {
        RequestIdsWithout(c.queue, t);
        BeginsSoundly(c, held, [c.queue[t]], Without(c.queue, t), c.quota);
      } else if c.limit == MAX_LIMIT {
        BeginsSoundly(c, held, c.queue, [], c.quota);
      } else {
        var share := Split(c.queue, c.quota);
        SplitKeeps(c.queue, c.quota);
        if share.taken != [] {
          BeginsSoundly(c, held, share.taken, share.left, share.quota);
        }
      }
    }
  }

  lemma SendsSoundly(c: State, held: multiset<nat>, r: Request)
    requires Placed(c, held + multiset{r.item.op.id}) && RequestOk(c.h.ops, r) && Chronicle(c)
    requires Facts(c.h.trace, r.item)
    ensures Chronicle(Send(c, r))
  {
    var c1 := c.(queue := c.queue + [r]);
    Enqueue(c, held, r);
    assert Chronicle(c1);
    PumpsSoundly(c1, held);
  }

  // ----- waiting

  lemma AwaitsSoundly(c: State, held: multiset<nat>, item: Item)
    requires Chronicle(c) && Counted(c, held + multiset{item.op.id})
    requires !item.stage.Writes() && Facts(c.h.trace, item) && Progressed(item.stage)
    ensures Chronicle(AwaitReply(c, item))
  {
    var code, pid := AwaitedCode(item.stage), item.op.pid;
    EvictsSoundly(c, code, pid);
    var c1 := Evict(c, code, pid);
    var f := FindReply(c1.fast, code, pid);
    if f < |c1.fast| { EarlySoundly(c1, AwaitReply(c, item), item, f); }
  }

  /** The operation is posted an early reply. */
  lemma EarlySoundly(c: State, d: State, item: Item, f: nat)
    requires Chronicle(c) && Facts(c.h.trace, item) && Progressed(item.stage) && f < |c.fast|
    requires d == c.(fast := Without(c.fast, f), posted := c.posted + [Posted(item, Got(c.fast[f]))])
    ensures Chronicle(d)
  {
    var r := c.fast[f];
    assert r in c.fast;
    SentInTime(c.h.trace, item.op.id, r.readAt);
    assert forall x :: x in Without(c.fast, f) ==> x in c.fast;
  }

  lemma SentInTime(t: seq<Event>, id: nat, k: nat)
    requires WasSent(t, id) && Since(t, k)
    ensures SentBefore(t, id, k)
  {
    var e :| e in t && e.Handed? && e.id == id;
    var j :| 0 <= j < |t| && t[j] == e;
  }

  lemma EvictsSoundly(c: State, code: Code, pid: nat)
    requires Chronicle(c)
    ensures Chronicle(Evict(c, code, pid))
  {
    var i := FindWaiter(c.table, code, pid);
    if i < |c.table| {
      assert c.table[i] in c.table;
      WaiterIdsWithout(c.table, i);
    }
  }

  // ----- ends and beginnings

  /** The run entitles the operation to end this way. */
  ghost predicate Earned(t: seq<Event>, op: Op, ending: Ending) {
    op.kind.Qos2? && ending.Completed? ==> Accepted(op.id) in t
  }

  lemma RetiresSoundly(c: State, op: Op, ending: Ending)
    requires op.id in c.h.ops && op.id < c.h.next && Chronicle(c)
    requires Earned(c.h.trace, op, ending)
    ensures Chronicle(Retire(c, op, ending))
  {
    var t, e := c.h.trace, Finished(op.id, ending, op.kind);
    assert !Ended(t, op.id);
    GoodAppend(t, e);
    LiveAppend(t, e);
    GrowRequests(t, e, c.queue);
    GrowRequests(t, e, c.batch);
    GrowRequests(t, e, c.done);
    GrowWaiters(t, e, c.table);
    GrowPosted(t, e, c.posted);
    GrowAllSent(t, e, c.batch);
    GrowAllSent(t, e, c.done);
  }

  /** The facts do not look at the other parts of the state. */
  lemma SameChronicle(c: State, d: State)
    requires Chronicle(c)
    requires d.queue == c.queue && d.batch == c.batch && d.done == c.done
    requires d.table == c.table && d.posted == c.posted && d.fast == c.fast && d.h == c.h
    ensures Chronicle(d)
  {
  }

  lemma AdmitsSoundly(c: State, held: multiset<nat>, kind: Kind, pid: nat, seqno: nat, stage: Stage)
    requires Placed(c, held) && Chronicle(c)
    requires !Progressed(stage)
    ensures Chronicle(Admit(c, kind, pid, seqno))
    ensures var d := Admit(c, kind, pid, seqno);
            Facts(d.h.trace, Item(d.h.ops[c.h.next], stage, false))
  {
    var t, e := c.h.trace, Started(c.h.next);
    var d := Admit(c, kind, pid, seqno);
    GoodAppend(t, e);
    LiveAppend(t, e);
    GrowRequests(t, e, c.queue);
    GrowRequests(t, e, c.batch);
    GrowRequests(t, e, c.done);
    GrowWaiters(t, e, c.table);
    GrowPosted(t, e, c.posted);
    GrowAllSent(t, e, c.batch);
    GrowAllSent(t, e, c.done);
    NewcomerFacts(t, c.h, d.h.ops[c.h.next], stage);
  }

  /** Nothing has happened to an operation that begins. */
  lemma NewcomerFacts(t: seq<Event>, h: History, op: Op, stage: Stage)
    requires Known(t, h) && op.id == h.next && !Progressed(stage)
    ensures Facts(t + [Started(op.id)], Item(op, stage, false))
  {
    assert Written(op.id) !in t && Accepted(op.id) !in t;
  }
}
