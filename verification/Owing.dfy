/**
 Two operations of one inbound message that have yet to deliver it, and what each
 move of the client means for them. Neither is lost as long as nobody waits for the
 PUBREL on their packet id when somebody else comes to wait for it.
 */
module Owing {
  import opened Requests
  import opened Client
  import opened Places
  import opened Engine
  import opened Receiving
  import Seqs

  // ----- two operations that have yet to deliver

  /** The operation has ended, or it is alive and no abort is posted to it. */
  ghost predicate Safe(c: State, x: Op) {
    x.id in c.h.ops ==>
      c.h.ops[x.id] == x && forall q :: q in c.posted && q.item.op.id == x.id ==> q.outcome.Got?
  }

  function Copies(channel: seq<Delivery>, m: nat): nat { multiset(channel)[Delivery(2, m)] }

  ghost function Alive(c: State, x: Op): nat { if x.id in c.h.ops then 1 else 0 }

  /** Two deliveries of the message have been made or are to come. */
  datatype Pair = Pair(a: Op, b: Op)

  ghost predicate OfMessage(x: Op, p: nat, m: nat) { x.kind == Receive(true, m) && x.pid == p }

  ghost predicate Owed(c: State, o: Pair, p: nat, m: nat) {
    && OfMessage(o.a, p, m) && OfMessage(o.b, p, m) && o.a.id != o.b.id
    && o.a.id < c.h.next && o.b.id < c.h.next && Safe(c, o.a) && Safe(c, o.b)
    && Copies(c.channel, m) + Alive(c, o.a) + Alive(c, o.b) >= 2
  }

  /** Nobody waits for the PUBREL on this packet id. */
  ghost predicate NoneWaits(c: State, p: nat) {
    forall w :: w in c.table && w.code.Pubrel? ==> w.pid != p
  }

  /** What cannot hurt the two: others end, are posted something, or begin. */
  ghost predicate Harmless(c: State, d: State, o: Pair) {
    && d.channel == c.channel && c.h.next <= d.h.next
    && (forall x :: x == o.a.id || x == o.b.id ==>
          (x in c.h.ops <==> x in d.h.ops) && (x in c.h.ops ==> d.h.ops[x] == c.h.ops[x]))
    && (forall q :: q in d.posted && q !in c.posted && !q.outcome.Got? ==>
          q.item.op.id != o.a.id && q.item.op.id != o.b.id)
  }

  lemma HarmlessOwed(c: State, d: State, o: Pair, p: nat, m: nat)
    requires Owed(c, o, p, m) && Harmless(c, d, o)
    ensures Owed(d, o, p, m)
  {
  }

  lemma DeliverOwed(c: State, d: State, op: Op, o: Pair, p: nat, m: nat)
    requires Owed(c, o, p, m) && op.id in c.h.ops && c.h.ops[op.id] == op && op.kind.Receive? && d == Deliver(c, op)
    ensures Owed(d, o, p, m)
  {
    var x := Delivery(if op.kind.qos2 then 2 else 1, op.kind.msg);
    assert multiset(d.channel) == multiset(c.channel) + multiset{x};
  }

  // ----- early PUBRELs

  /** How many PUBRELs on this packet id are at hand. */
  function Ready(s: seq<Reply>, p: nat): nat {
    if s == [] then 0 else Ready(s[..|s| - 1], p) + (if s[|s| - 1].code.Pubrel? && s[|s| - 1].pid == p then 1 else 0)
  }

  lemma ReadySnoc(s: seq<Reply>, r: Reply, p: nat)
    ensures Ready(s + [r], p) == Ready(s, p) + (if r.code.Pubrel? && r.pid == p then 1 else 0)
  {
    Seqs.Front(s, r);
  }

  lemma {:induction false} ReadyConcat(s: seq<Reply>, t: seq<Reply>, p: nat)
    ensures Ready(s + t, p) == Ready(s, p) + Ready(t, p)
  {
    if t == [] {
      assert s + t == s;
    } else {
      var front, r := t[..|t| - 1], t[|t| - 1];
      ReadyConcat(s, front, p);
      ReadySnoc(s + front, r, p);
      Seqs.LastOfConcat(s, t);
    }
  }

  lemma ReadyWithout(s: seq<Reply>, i: nat, p: nat)
    requires i < |s|
    ensures Ready(Without(s, i), p) == Ready(s, p) - (if s[i].code.Pubrel? && s[i].pid == p then 1 else 0)
    ensures forall r :: r in Without(s, i) ==> r in s
  {
    Seqs.Around(s, i);
    ReadyConcat(s[..i] + [s[i]], s[i + 1..], p);
    ReadySnoc(s[..i], s[i], p);
    ReadyConcat(s[..i], s[i + 1..], p);
  }

  lemma {:induction false} ReadyFound(s: seq<Reply>, p: nat)
    requires Ready(s, p) > 0
    ensures FindReply(s, Pubrel, p) < |s|
  {
    var front, r := s[..|s| - 1], s[|s| - 1];
    if r.code.Pubrel? && r.pid == p {
      assert s[|s| - 1] == r;
    } else {
      ReadyFound(front, p);
      assert s[FindReply(front, Pubrel, p)] == front[FindReply(front, Pubrel, p)];
    }
  }

  /** Only well-formed PUBRELs on this packet id are at hand. */
  predicate Clear(s: seq<Reply>, p: nat) {
    forall r :: r in s ==> r.code.Pubrel? && r.pid == p && !r.verdict.Malformed?
  }

  /** All replies posted are well-formed PUBRELs. */
  predicate ClearPosted(s: seq<Posted>) {
    forall q :: q in s && q.outcome.Got? ==> q.outcome.reply.code.Pubrel? && !q.outcome.reply.verdict.Malformed?
  }

  function Gots(s: seq<Posted>): nat {
    if s == [] then 0 else Gots(s[..|s| - 1]) + (if s[|s| - 1].outcome.Got? then 1 else 0)
  }

  lemma GotsSnoc(s: seq<Posted>, q: Posted)
    ensures Gots(s + [q]) == Gots(s) + (if q.outcome.Got? then 1 else 0)
  {
    Seqs.Front(s, q);
  }

  lemma {:induction false} GotsFirst(s: seq<Posted>)
    requires s != []
    ensures Gots(s) == (if s[0].outcome.Got? then 1 else 0) + Gots(s[1..])
  {
    if |s| == 1 {
      assert s[..0] == [] && s[1..] == [];
    } else {
      var front := s[..|s| - 1];
      GotsFirst(front);
      assert front[1..] == s[1..][..|s| - 2];
    }
  }

  // ----- waiting

  /** Someone comes to wait for something else. */
  lemma AwaitElse(c: State, d: State, item: Item, o: Pair, p: nat, m: nat)
    requires Shaped(c) && Owed(c, o, p, m) && NoneWaits(c, p) && !item.stage.Writes() && d == AwaitReply(c, item)
    requires !(AwaitedCode(item.stage).Pubrel? && item.op.pid == p)
    ensures Owed(d, o, p, m) && NoneWaits(d, p) && Ready(d.fast, p) == Ready(c.fast, p)
    ensures forall r :: r in d.fast ==> r in c.fast
    ensures Clear(c.fast, p) ==> Gots(d.posted) == Gots(c.posted) && (ClearPosted(c.posted) ==> ClearPosted(d.posted))
  {
    var code, pid := AwaitedCode(item.stage), item.op.pid;
    var c1 := Evict(c, code, pid);
    EvictElse(c, c1, code, pid, o, p, m);
    var f := FindReply(c1.fast, code, pid);
    if f < |c1.fast| { ReadyWithout(c1.fast, f, p); }
    HarmlessOwed(c1, d, o, p, m);
  }

  lemma EvictElse(c: State, d: State, code: Code, pid: nat, o: Pair, p: nat, m: nat)
    requires Shaped(c) && Owed(c, o, p, m) && NoneWaits(c, p) && d == Evict(c, code, pid)
    ensures Owed(d, o, p, m) && NoneWaits(d, p) && d.fast == c.fast
    ensures Gots(d.posted) == Gots(c.posted) && (ClearPosted(c.posted) ==> ClearPosted(d.posted))
  {
    var i := FindWaiter(c.table, code, pid);
    if i < |c.table| {
      var w := c.table[i];
      GotsSnoc(c.posted, Posted(w.item, Aborted));
      assert w in c.table && WaiterOk(c.h.ops, w);
      WaiterIdsWithout(c.table, i);
      assert w.item.op.id in c.h.ops && w.item.op != o.a && w.item.op != o.b;
      HarmlessOwed(c, d, o, p, m);
    }
  }

  /** Someone on the packet id comes to wait for a PUBREL that is at hand. */
  lemma AwaitReady(c: State, d: State, item: Item, o: Pair, p: nat, m: nat)
    requires Owed(c, o, p, m) && NoneWaits(c, p) && item.stage.OnRecPubrel? && item.op.pid == p
    requires Ready(c.fast, p) > 0 && d == AwaitReply(c, item)
    ensures Owed(d, o, p, m) && NoneWaits(d, p) && Ready(d.fast, p) == Ready(c.fast, p) - 1
    ensures forall r :: r in d.fast ==> r in c.fast
    ensures Gots(d.posted) == Gots(c.posted) + 1
    ensures Clear(c.fast, p) && ClearPosted(c.posted) ==> ClearPosted(d.posted)
  {
    var f := AwaitTakes(c, d, item, p);
    GotsSnoc(c.posted, Posted(item, Got(c.fast[f])));
    ReadyWithout(c.fast, f, p);
    HarmlessOwed(c, d, o, p, m);
  }

  lemma AwaitTakes(c: State, d: State, item: Item, p: nat) returns (f: nat)
    requires NoneWaits(c, p) && item.stage.OnRecPubrel? && item.op.pid == p
    requires Ready(c.fast, p) > 0 && d == AwaitReply(c, item)
    ensures f < |c.fast| && c.fast[f] in c.fast && c.fast[f].code.Pubrel? && c.fast[f].pid == p
    ensures d == c.(fast := Without(c.fast, f), posted := c.posted + [Posted(item, Got(c.fast[f]))])
  {
    f := FindReply(c.fast, Pubrel, p);
    ReadyFound(c.fast, p);
    NoneFound(c.table, p);
  }

  lemma NoneFound(s: seq<Waiter>, p: nat)
    requires forall w :: w in s && w.code.Pubrel? ==> w.pid != p
    ensures FindWaiter(s, Pubrel, p) == |s|
  {
    assert forall i :: 0 <= i < |s| ==> s[i] in s;
  }

  // ----- a write has been completed

  /** Work still to be done for the requests of a collection: a PUBREC is followed
      by a posted PUBREL and a PUBCOMP. */
  function Load(r: Request): nat { if r.item.stage.OnRecPubrec? then 4 else 1 }

  function Weigh(s: seq<Request>): nat {
    if s == [] then 0 else Weigh(s[..|s| - 1]) + Load(s[|s| - 1])
  }

  lemma WeighSnoc(s: seq<Request>, r: Request)
    ensures Weigh(s + [r]) == Weigh(s) + Load(r)
  {
    Seqs.Front(s, r);
  }

  lemma {:induction false} WeighConcat(s: seq<Request>, t: seq<Request>)
    ensures Weigh(s + t) == Weigh(s) + Weigh(t)
  {
    if t == [] {
      assert s + t == s;
    } else {
      WeighConcat(s, t[..|t| - 1]);
      WeighSnoc(s + t[..|t| - 1], t[|t| - 1]);
      Seqs.LastOfConcat(s, t);
    }
  }

  lemma WeighOne(r: Request)
    ensures Weigh([r]) == Load(r)
  {
    WeighSnoc([], r);
    assert [] + [r] == [r];
  }

  lemma {:induction false} WeighSplit(s: seq<Request>, quota: nat)
    ensures var share := Split(s, quota); Weigh(s) == Weigh(share.taken) + Weigh(share.left)
    ensures (forall r :: r in Split(s, quota).left ==> r.throttled)
    ensures (exists r :: r in s && !r.throttled) ==> Split(s, quota).taken != []
  {
    if s != [] {
      var q := if s[0].throttled && quota > 0 then quota - 1 else quota;
      WeighSplit(s[1..], q);
      var rest := Split(s[1..], q);
      Seqs.First(s);
      WeighOne(s[0]);
      WeighConcat([s[0]], s[1..]);
      WeighConcat([s[0]], rest.taken);
      WeighConcat([s[0]], rest.left);
    }
  }

  function Toil(c: State): nat {
    Weigh(c.queue) + Weigh(c.batch) + Weigh(c.done) + 2 * Gots(c.posted)
  }

  predicate Urgent(s: seq<Request>) { exists r :: r in s && !r.throttled }

  /** The sender has sent what it could. */
  predicate Flushed(c: State) { !c.writing ==> !Urgent(c.queue) }

  /** The sender looks at its queue: an urgent request makes it write. */
  lemma PumpToils(c: State, d: State)
    requires !c.writing && c.batch == [] && d == Pump(c)
    ensures Toil(d) == Toil(c) && Flushed(d) && (Urgent(c.queue) ==> d.writing)
    ensures d.writing ==> d.fast == []
    ensures d == c.(writing := d.writing, batch := d.batch, queue := d.queue, quota := d.quota, fast := d.fast,
                    h := c.h.(trace := d.h.trace))
    ensures !d.writing ==> d == c
  {
    if c.queue != [] {
      var t := FirstTerminal(c.queue);
      if t < |c.queue| {
        WeighOne(c.queue[t]);
        Seqs.Around(c.queue, t);
        WeighSnoc(c.queue[..t], c.queue[t]);
        WeighConcat(c.queue[..t] + [c.queue[t]], c.queue[t + 1..]);
        WeighConcat(c.queue[..t], c.queue[t + 1..]);
      } else if c.limit != MAX_LIMIT {
        WeighSplit(c.queue, c.quota);
        NoneTaken(c.queue, c.quota);
      }
    }
  }

  lemma {:induction false} NoneTaken(s: seq<Request>, quota: nat)
    ensures Split(s, quota).taken == [] ==> forall r :: r in s ==> r.throttled
  {
    if s != [] {
      var q := if s[0].throttled && quota > 0 then quota - 1 else quota;
      NoneTaken(s[1..], q);
      Seqs.First(s);
    }
  }

  /** What the end of a write leaves alone. */
  predicate SameSender(c: State, d: State) {
    && d.queue == c.queue && d.batch == c.batch && d.done == c.done && d.writing == c.writing
    && c.h.next == d.h.next
  }

  lemma AwaitSender(c: State, d: State, item: Item)
    requires !item.stage.Writes() && d == AwaitReply(c, item)
    ensures SameSender(c, d)
  {
  }

  /** A handler is told that its write succeeded, with a PUBREL at hand. */
  lemma WrittenOwed(c: State, d: State, item: Item, o: Pair, p: nat, m: nat)
    requires Shaped(c) && Tracked(c.h.ops, item) && Owed(c, o, p, m) && NoneWaits(c, p)
    requires Ready(c.fast, p) > 0 && item.stage.Writes() && d == OnWritten(c, item)
    ensures SameSender(c, d) && Owed(d, o, p, m) && NoneWaits(d, p) && Ready(d.fast, p) >= Ready(c.fast, p) - 1
    ensures forall r :: r in d.fast ==> r in c.fast
    ensures Clear(c.fast, p) ==> 2 * Gots(d.posted) < 2 * Gots(c.posted) + (if item.stage.OnRecPubrec? then 4 else 1)
    ensures Clear(c.fast, p) && ClearPosted(c.posted) ==> ClearPosted(d.posted)
  {
    if item.stage.OnRecPubrec? {
      var next := item.(stage := OnRecPubrel);
      AwaitSender(c, d, next);
      if item.op.pid == p { AwaitReady(c, d, next, o, p, m); } else { AwaitElse(c, d, next, o, p, m); }
    } else if item.op.kind.Bearing() {
      BearerOwed(c, d, item, o, p, m);
    } else if item.op.kind.Receive? {
      DeliverOwed(c, d, item.op, o, p, m);
    } else {
      HarmlessOwed(c, d, o, p, m);
    }
  }

  lemma BearerOwed(c: State, d: State, item: Item, o: Pair, p: nat, m: nat)
    requires Shaped(c) && Tracked(c.h.ops, item) && Owed(c, o, p, m) && NoneWaits(c, p)
    requires item.op.kind.Bearing() && item.stage.Writes() && d == OnWritten(c, item)
    ensures SameSender(c, d) && Owed(d, o, p, m) && NoneWaits(d, p) && Ready(d.fast, p) == Ready(c.fast, p)
    ensures forall r :: r in d.fast ==> r in c.fast
    ensures Clear(c.fast, p) ==> Gots(d.posted) == Gots(c.posted) && (ClearPosted(c.posted) ==> ClearPosted(d.posted))
  {
    SentCases(c, item);
    var c1 := if item.stage.OnPublish? then Log(c, Written(item.op.id)) else c;
    HarmlessOwed(c, c1, o, p, m);
    AwaitSender(c1, d, item.(stage := NextWait(item)));
    AwaitElse(c1, d, item.(stage := NextWait(item)), o, p, m);
  }

  ghost predicate Poised(c: State, o: Pair, p: nat, m: nat) { Owed(c, o, p, m) && NoneWaits(c, p) }

  lemma WeighFirst(s: seq<Request>)
    requires s != []
    ensures Weigh(s) == Load(s[0]) + Weigh(s[1..])
  {
    Seqs.First(s);
    WeighOne(s[0]);
    WeighConcat([s[0]], s[1..]);
  }

  lemma TellOwed(c: State, d: State, o: Pair, p: nat, m: nat)
    requires Shaped(c) && c.batch == [] && !c.writing && c.done != [] && RequestsFit(c.done)
    requires Poised(c, o, p, m) && Ready(c.fast, p) >= |c.done| && d == TellNext(c)
    ensures Poised(d, o, p, m) && d.done == c.done[1..]
    ensures d.done != [] ==> !d.writing && d.queue == c.queue && Ready(d.fast, p) >= |d.done|
    ensures d.done == [] ==> Flushed(d) && (Urgent(c.queue) ==> d.writing) && (d.writing ==> d.fast == [])
    ensures Clear(c.fast, p) ==> Clear(d.fast, p) && Toil(d) < Toil(c)
    ensures Clear(c.fast, p) && ClearPosted(c.posted) ==> ClearPosted(d.posted)
  {
    var r := c.done[0];
    assert r in c.done && RequestOk(c.h.ops, r);
    var c0 := Telling(c);
    var c1 := OnWritten(c0, r.item);
    WeighFirst(c.done);
    HarmlessOwed(c, c0, o, p, m);
    WrittenOwed(c0, c1, r.item, o, p, m);
    if c1.done == [] {
      PumpToils(c1, d);
      HarmlessOwed(c1, d, o, p, m);
    }
  }

  // ----- a PUBREL is read

  /** Nobody waits: the PUBREL is kept. */
  lemma ReadKept(c: State, d: State, r: Reply, o: Pair, p: nat, m: nat)
    requires Poised(c, o, p, m) && r.code.Pubrel? && r.pid == p && !r.verdict.Malformed?
    requires WaitersFit(c.table) && d == ReadReply(c, r)
    ensures Poised(d, o, p, m) && Ready(d.fast, p) == Ready(c.fast, p) + 1
    ensures d == c.(fast := d.fast) && (Clear(c.fast, p) ==> Clear(d.fast, p))
  {
    NoneFound(c.table, p);
    ReadySnoc(c.fast, r.(readAt := |c.h.trace|), p);
    HarmlessOwed(c, d, o, p, m);
  }

  /** Somebody waits: the first takes the PUBREL and queues its PUBCOMP. */
  lemma ReadTaken(c: State, d: State, r: Reply, i: nat, o: Pair, p: nat, m: nat)
    requires Shaped(c) && Owed(c, o, p, m) && r.code.Pubrel? && r.pid == p && !r.verdict.Malformed?
    requires WaitersFit(c.table) && i == FindWaiter(c.table, Pubrel, p) < |c.table| && d == ReadReply(c, r)
    requires c.writing
    ensures Owed(d, o, p, m) && d.table == Without(c.table, i)
    ensures d.writing && d.done == c.done && d.posted == c.posted && d.fast == c.fast && d.batch == c.batch
  {
    var w := c.table[i];
    assert w in c.table && WaiterOk(c.h.ops, w);
    HarmlessOwed(c, d, o, p, m);
  }

  // ----- posted completions, while a write is in progress

  /** Nothing can be written meanwhile. */
  predicate Meanwhile(c: State, d: State) {
    d.writing && d.batch == c.batch && d.done == c.done && d.fast == c.fast
  }

  /** An operation of another kind ends, or queues something. */
  lemma EndOwed(c: State, d: State, op: Op, ending: Ending, o: Pair, p: nat, m: nat)
    requires c.writing && Owed(c, o, p, m) && op.id in c.h.ops && c.h.ops[op.id] == op
    requires op.id != o.a.id && op.id != o.b.id && d == Complete(c, op, ending)
    ensures Owed(d, o, p, m) && Meanwhile(c, d) && d.posted == c.posted && d.table == c.table
  {
    HarmlessOwed(c, d, o, p, m);
  }

  lemma SendOwed(c: State, d: State, r: Request, o: Pair, p: nat, m: nat)
    requires c.writing && Owed(c, o, p, m) && d == Send(c, r)
    ensures Owed(d, o, p, m) && Meanwhile(c, d) && d.posted == c.posted && d.table == c.table
  {
    HarmlessOwed(c, d, o, p, m);
  }

  lemma MalformOwed(c: State, d: State, op: Op, o: Pair, p: nat, m: nat)
    requires c.writing && Owed(c, o, p, m) && IdsOk(c.h, c.inUse) && d == Malform(c, op)
    ensures Owed(d, o, p, m) && Meanwhile(c, d) && d.posted == c.posted && d.table == c.table
    ensures d.cancelled == c.cancelled && c.h.next !in c.h.ops
    ensures forall x :: x in c.h.ops ==> x in d.h.ops && d.h.ops[x] == c.h.ops[x]
  {
    HarmlessOwed(c, d, o, p, m);
  }

  /** A waiting handler starts over. */
  lemma StartOverOwed(c: State, d: State, item: Item, o: Pair, p: nat, m: nat)
    requires c.writing && c.fast == [] && AllWaiters(c.h.ops, c.table) && Tracked(c.h.ops, item)
    requires Poised(c, o, p, m) && !item.stage.Writes() && d == OnResend(c, item)
    ensures Owed(d, o, p, m) && Meanwhile(c, d) && Gots(d.posted) == Gots(c.posted)
  {
    if item.stage.OnRecPubrel? {
      RewaitOwed(c, d, item, o, p, m);
    } else if item.op.id in c.cancelled && !item.stage.OnPubcomp? {
      EndOwed(c, d, item.op, Failed, o, p, m);
    } else {
      HarmlessOwed(c, d, o, p, m);
    }
  }

  lemma RewaitOwed(c: State, d: State, item: Item, o: Pair, p: nat, m: nat)
    requires c.writing && c.fast == [] && AllWaiters(c.h.ops, c.table) && Poised(c, o, p, m)
    requires item.stage.OnRecPubrel? && d == AwaitReply(c, item)
    ensures Owed(d, o, p, m) && Meanwhile(c, d) && Gots(d.posted) == Gots(c.posted)
  {
    var c1 := Evict(c, Pubrel, item.op.pid);
    var i := FindWaiter(c.table, Pubrel, item.op.pid);
    if i < |c.table| {
      var w := c.table[i];
      assert w in c.table && WaiterOk(c.h.ops, w);
      GotsSnoc(c.posted, Posted(w.item, Aborted));
      assert w.item.op != o.a && w.item.op != o.b;
    }
    HarmlessOwed(c, c1, o, p, m);
    HarmlessOwed(c1, d, o, p, m);
  }

  lemma AcknowledgeOwed(c: State, d: State, item: Item, v: Verdict, o: Pair, p: nat, m: nat)
    requires c.writing && Tracked(c.h.ops, item) && Owed(c, o, p, m)
    requires !item.stage.Writes() && !v.Malformed? && d == Acknowledge(c, item, v)
    ensures Owed(d, o, p, m) && Meanwhile(c, d) && d.posted == c.posted && d.table == c.table
  {
    if item.stage.OnPubrec? && v.Success? {
      var c1 := Log(c, Accepted(item.op.id));
      HarmlessOwed(c, c1, o, p, m);
      SendOwed(c1, d, PubrelRequest(item.(stage := OnPubrel), false), o, p, m);
    } else if item.stage.OnRecPubrel? {
      SendOwed(c, d, PlainRequest(item.(stage := OnRecPubcomp)), o, p, m);
    } else {
      EndOwed(c, d, item.op, EndingOf(v), o, p, m);
    }
  }

  lemma AnswerOwed(c: State, d: State, item: Item, r: Reply, o: Pair, p: nat, m: nat)
    requires c.writing && c.fast == [] && Shaped(c) && IdsOk(c.h, c.inUse) && Tracked(c.h.ops, item)
    requires Poised(c, o, p, m) && !item.stage.Writes() && d == OnAnswer(c, item, r)
    ensures Owed(d, o, p, m) && Meanwhile(c, d) && Gots(d.posted) == Gots(c.posted)
  {
    var c1 := Log(c, Answered(item.op.id, r.readAt, r.code, r.verdict));
    HarmlessOwed(c, c1, o, p, m);
    AnswerCases(c, item, r);
    if r.verdict.Malformed? {
      var c2 := Malform(c1, item.op);
      MalformOwed(c1, c2, item.op, o, p, m);
      StartOverOwed(c2, d, item, o, p, m);
    } else {
      AcknowledgeOwed(c1, d, item, r.verdict, o, p, m);
    }
  }

  lemma PostedOwed(c: State, d: State, o: Pair, p: nat, m: nat)
    requires c.writing && c.fast == [] && Shaped(c) && IdsOk(c.h, c.inUse) && PostedFit(c.posted)
    requires Poised(c, o, p, m) && c.posted != [] && d == RunPosted(c)
    ensures Owed(d, o, p, m) && Meanwhile(c, d)
    ensures Gots(d.posted) < Gots(c.posted) || (Gots(d.posted) == Gots(c.posted) && |d.posted| < |c.posted|)
  {
    var q := c.posted[0];
    assert q in c.posted && PostedOk(c.h.ops, q);
    GotsFirst(c.posted);
    var c1 := c.(posted := c.posted[1..]);
    HarmlessOwed(c, c1, o, p, m);
    if q.outcome.Got? {
      AnswerOwed(c1, d, q.item, q.outcome.reply, o, p, m);
    } else {
      EndOwed(c1, d, q.item.op, Failed, o, p, m);
    }
  }

  // ----- posted PUBRELs, whether or not a write is in progress

  /** The state after a completion but for the sender's look at its queue. */
  ghost predicate Looked(c: State, d: State) {
    (c.writing && d == c) || (!c.writing && c.batch == [] && (d == c || d == Pump(c)))
  }

  lemma LookedToil(c: State, d: State, o: Pair, p: nat, m: nat)
    requires Poised(c, o, p, m) && Looked(c, d)
    ensures Poised(d, o, p, m) && Toil(d) == Toil(c) && d.posted == c.posted && d.done == c.done
    ensures Clear(c.fast, p) ==> Clear(d.fast, p)
    ensures Flushed(c) ==> Flushed(d)
    ensures !c.writing && d == Pump(c) ==> Flushed(d)
  {
    if !c.writing && d == Pump(c) {
      PumpToils(c, d);
      HarmlessOwed(c, d, o, p, m);
    }
  }

  lemma AbortClear(c: State, d: State, op: Op, o: Pair, p: nat, m: nat)
    requires Poised(c, o, p, m) && op.id in c.h.ops && c.h.ops[op.id] == op && (c.writing || c.batch == [])
    requires op.id != o.a.id && op.id != o.b.id && d == Complete(c, op, Failed)
    ensures Poised(d, o, p, m) && Toil(d) == Toil(c) && d.posted == c.posted && d.done == c.done
    ensures (Clear(c.fast, p) ==> Clear(d.fast, p)) && (Flushed(c) ==> Flushed(d))
  {
    CompleteIsSettledPump(c, op, Failed);
    var c1 := Settled(c, op, Failed);
    HarmlessOwed(c, c1, o, p, m);
    LookedToil(c1, d, o, p, m);
  }

  lemma AnswerClear(c: State, d: State, item: Item, r: Reply, o: Pair, p: nat, m: nat)
    requires Poised(c, o, p, m) && item.stage.OnRecPubrel? && Fits(item) && !r.verdict.Malformed?
    requires (c.writing || c.batch == []) && d == OnAnswer(c, item, r)
    ensures Poised(d, o, p, m) && Toil(d) == Toil(c) + 1 && d.posted == c.posted && d.done == c.done
    ensures (Clear(c.fast, p) ==> Clear(d.fast, p)) && (Flushed(c) ==> Flushed(d))
  {
    var out := PlainRequest(item.(stage := OnRecPubcomp));
    var c1 := Log(c, Answered(item.op.id, r.readAt, r.code, r.verdict)).(queue := c.queue + [out]);
    WeighSnoc(c.queue, out);
    HarmlessOwed(c, c1, o, p, m);
    assert d == Pump(c1);
    LookedToil(c1, d, o, p, m);
  }

  lemma PostedClear(c: State, d: State, o: Pair, p: nat, m: nat)
    requires Shaped(c) && (c.writing || c.batch == []) && PostedFit(c.posted) && ClearPosted(c.posted)
    requires Poised(c, o, p, m) && Clear(c.fast, p) && Flushed(c) && c.posted != [] && d == RunPosted(c)
    ensures Poised(d, o, p, m) && Clear(d.fast, p) && Flushed(d) && ClearPosted(d.posted) && d.done == c.done
    ensures |d.posted| < |c.posted| && Toil(d) <= Toil(c)
  {
    var q := c.posted[0];
    assert q in c.posted && PostedOk(c.h.ops, q);
    GotsFirst(c.posted);
    var c1 := c.(posted := c.posted[1..]);
    HarmlessOwed(c, c1, o, p, m);
    if q.outcome.Got? {
      AnswerClear(c1, d, q.item, q.outcome.reply, o, p, m);
    } else {
      AbortClear(c1, d, q.item.op, o, p, m);
    }
  }

  // ----- a PINGREQ

  /** A packet that nobody waits on makes the sender write. */
  lemma KickOwed(c: State, d: State, o: Pair, p: nat, m: nat)
    requires Owed(c, o, p, m) && IdsOk(c.h, c.inUse) && (c.writing || c.batch == []) && d == CallOther(c, OneShot)
    ensures Owed(d, o, p, m) && d.writing && d.table == c.table && d.posted == c.posted && d.done == c.done
    ensures c.writing ==> Urgent(d.queue) && d.batch == c.batch && d.fast == c.fast
  {
    var c1 := Admit(c, OneShot, 0, 0);
    var out := PlainRequest(Item(Op(c.h.next, OneShot, 0, 0), OnOneShot, false));
    var c2 := c1.(queue := c1.queue + [out]);
    assert out in c2.queue && Urgent(c2.queue);
    assert d == Pump(c2);
    HarmlessOwed(c, c2, o, p, m);
    if !c.writing {
      PumpToils(c2, d);
      HarmlessOwed(c2, d, o, p, m);
    }
  }

  // ----- where the two are

  /** A live operation is in one of the collections. */
  lemma Somewhere(c: State, id: nat)
    requires Counted(c, multiset{}) && id in c.h.ops
    ensures (exists r :: (r in c.queue || r in c.batch || r in c.done) && r.item.op.id == id)
         || (exists w :: w in c.table && w.item.op.id == id) || (exists q :: q in c.posted && q.item.op.id == id)
  {
    assert Census(c)[id] == (Census(c) + multiset{})[id] == 1;
    if id in RequestIds(c.queue) {
      AmongRequests(c.queue, id);
    } else if id in RequestIds(c.batch) {
      AmongRequests(c.batch, id);
    } else if id in RequestIds(c.done) {
      AmongRequests(c.done, id);
    } else if id in WaiterIds(c.table) {
      var i :| 0 <= i < |c.table| && WaiterIds(c.table)[i] == id;
      assert c.table[i] in c.table;
    } else {
      assert id in PostedIds(c.posted);
      var i :| 0 <= i < |c.posted| && PostedIds(c.posted)[i] == id;
      assert c.posted[i] in c.posted;
    }
  }

  lemma AmongRequests(s: seq<Request>, id: nat)
    requires id in RequestIds(s)
    ensures exists r :: r in s && r.item.op.id == id
  {
    var i :| 0 <= i < |s| && RequestIds(s)[i] == id;
    assert s[i] in s;
  }

  /** An open operation is alive and nothing is posted to it. */
  lemma OpenSafe(c: State, p: nat, item: Item)
    requires Placed(c, multiset{}) && Open(c, p, item)
    ensures item.op.id in c.h.ops && c.h.ops[item.op.id] == item.op && item.op.id < c.h.next && Safe(c, item.op)
  {
    var id := item.op.id;
    if item.stage.OnRecPubrec? {
      var r :| (r in c.queue || r in c.batch || r in c.done) && r.item == item;
      assert RequestOk(c.h.ops, r);
      if r in c.queue { InRequestIds(c.queue, r); }
      if r in c.batch { InRequestIds(c.batch, r); }
      if r in c.done { InRequestIds(c.done, r); }
    } else {
      var w :| w in c.table && w.item == item;
      assert WaiterOk(c.h.ops, w);
      var i :| 0 <= i < |c.table| && c.table[i] == w;
      assert WaiterIds(c.table)[i] == id;
    }
    assert (Census(c) + multiset{})[id] <= 1;
    forall q | q in c.posted ensures q.item.op.id != id {
      var i :| 0 <= i < |c.posted| && c.posted[i] == q;
      assert PostedIds(c.posted)[i] == q.item.op.id;
    }
  }

  lemma OpenOwed(c: State, p: nat, a: Item, b: Item)
    requires Placed(c, multiset{}) && Open(c, p, a) && Open(c, p, b)
    requires a.op.kind.msg == b.op.kind.msg && a.op != b.op
    ensures Owed(c, Pair(a.op, b.op), p, a.op.kind.msg)
  {
    OpenSafe(c, p, a);
    OpenSafe(c, p, b);
  }

  /** A PUBREL, whether or not it can be decoded, is read. */
  lemma ReadOwed(c: State, d: State, r: Reply, o: Pair, p: nat, m: nat)
    requires Shaped(c) && IdsOk(c.h, c.inUse) && WaitersFit(c.table) && OneWaiter(c.table) && Owed(c, o, p, m)
    requires r.code.Pubrel? && r.pid == p && d == ReadReply(c, r)
    ensures Owed(d, o, p, m) && d.done == c.done
  {
    var i := FindWaiter(c.table, Pubrel, p);
    if i < |c.table| {
      TakenOwed(c, d, r.(readAt := |c.h.trace|), i, o, p, m);
    } else {
      HarmlessOwed(c, d, o, p, m);
    }
  }

  lemma TakenOwed(c: State, d: State, r: Reply, i: nat, o: Pair, p: nat, m: nat)
    requires AllWaiters(c.h.ops, c.table) && IdsOk(c.h, c.inUse) && WaitersFit(c.table) && OneWaiter(c.table)
    requires Owed(c, o, p, m) && i == FindWaiter(c.table, Pubrel, p) < |c.table|
    requires d == OnAnswer(c.(table := Without(c.table, i)), c.table[i].item, r)
    ensures Owed(d, o, p, m) && d.done == c.done
  {
    var w := c.table[i];
    assert w in c.table && WaiterOk(c.h.ops, w);
    var c1 := Log(c.(table := Without(c.table, i)), Answered(w.item.op.id, r.readAt, r.code, r.verdict));
    OthersElsewhere(c.table, i, p);
    HarmlessOwed(c, c1, o, p, m);
    AnswerCases(c.(table := Without(c.table, i)), w.item, r);
    if r.verdict.Malformed? {
      GarbledOwed(c1, d, w.item, o, p, m);
    } else {
      QueuedOwed(c1, d, PlainRequest(w.item.(stage := OnRecPubcomp)), o, p, m);
    }
  }

  lemma OthersElsewhere(s: seq<Waiter>, i: nat, p: nat)
    requires OneWaiter(s) && i == FindWaiter(s, Pubrel, p) < |s|
    ensures forall w :: w in Without(s, i) && w.code.Pubrel? ==> w.pid != p
  {
    forall w | w in Without(s, i) && w.code.Pubrel? ensures w.pid != p {
      var j :| 0 <= j < |s| && j != i && s[j] == w;
    }
  }

  lemma GarbledOwed(c: State, d: State, item: Item, o: Pair, p: nat, m: nat)
    requires Poised(c, o, p, m) && IdsOk(c.h, c.inUse) && item.stage.OnRecPubrel? && item.op.pid == p
    requires d == AwaitReply(Malform(c, item.op), item)
    ensures Owed(d, o, p, m) && d.done == c.done
  {
    var c0 := Admit(Log(c, Complaint(item.op)), Disconnect(false), 0, 0);
    HarmlessOwed(c, c0, o, p, m);
    var c1 := Malform(c, item.op);
    QueuedOwed(c0, c1, PlainRequest(DisconnectItem(c)), o, p, m);
    NoneFound(c1.table, p);
    RegistersOwed(c1, d, item, o, p, m);
  }

  lemma QueuedOwed(c: State, d: State, r: Request, o: Pair, p: nat, m: nat)
    requires Owed(c, o, p, m) && d == Send(c, r)
    ensures Owed(d, o, p, m) && d.done == c.done && d.table == c.table
  {
    HarmlessOwed(c, d, o, p, m);
  }

  lemma RegistersOwed(c: State, d: State, item: Item, o: Pair, p: nat, m: nat)
    requires Owed(c, o, p, m) && item.stage.OnRecPubrel? && FindWaiter(c.table, Pubrel, item.op.pid) == |c.table|
    requires d == AwaitReply(c, item)
    ensures Owed(d, o, p, m) && d.done == c.done
  {
    HarmlessOwed(c, d, o, p, m);
  }
}
