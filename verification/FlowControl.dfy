/**
 Receive Maximum and the order of transmissions. Between two effective resends
 without malformed acknowledgements and cancellations, the quota and the
 operations in flight always add up to the limit; and the throttled packets are
 handed over in order until one that was put back in the queue is.
 */
module FlowControl {
  import opened Requests
  import opened Client
  import opened SerialOrder
  import opened Places
  import opened Runs
  import Seqs

  // ----- the invariant

  /** A queued packet of a metered operation is throttled exactly when the
      operation is not in flight yet. */
  ghost predicate Due(t: seq<Event>, s: seq<Request>) {
    forall r :: r in s && r.item.op.kind.Metered() ==> (r.throttled <==> r.item.op.id !in InFlight(t))
  }
  ghost predicate AwayRequests(t: seq<Event>, s: seq<Request>) {
    forall r :: r in s && r.item.op.kind.Metered() ==> r.item.op.id in InFlight(t)
  }
  ghost predicate AwayWaiters(t: seq<Event>, s: seq<Waiter>) {
    forall w :: w in s && w.item.op.kind.Metered() ==> w.item.op.id in InFlight(t)
  }
  ghost predicate AwayPosted(t: seq<Event>, s: seq<Posted>) {
    forall p :: p in s && p.item.op.kind.Metered() ==> p.item.op.id in InFlight(t)
  }

  ghost predicate Metering(c: State) {
    var t := c.h.trace;
    && Due(t, c.queue) && AwayRequests(t, c.batch) && AwayRequests(t, c.done)
    && AwayWaiters(t, c.table) && AwayPosted(t, c.posted) && Drift(t) == 0
  }

  /** Only live, metered operations are in flight. */
  ghost predicate OnlyMetered(h: History) {
    forall id :: id in InFlight(h.trace) ==> id in h.ops && h.ops[id].kind.Metered()
  }

  ghost predicate Flow(c: State) {
    && c.limit <= 65535 && c.quota <= 65535
    && OnlyMetered(c.h)
    && (Tidy(c.h.trace) ==> Metering(c))
  }

  // ----- handing over a batch

  function Charged(s: seq<Request>): set<nat> {
    if s == [] then {}
    else Charged(s[..|s| - 1]) + (if s[|s| - 1].throttled then {s[|s| - 1].item.op.id} else {})
  }

  function Throttles(s: seq<Request>): nat {
    if s == [] then 0 else Throttles(s[..|s| - 1]) + (if s[|s| - 1].throttled then 1 else 0)
  }

  lemma {:induction false} ChargedMembers(s: seq<Request>)
    ensures forall id :: id in Charged(s) <==> exists r :: r in s && r.throttled && r.item.op.id == id
  {
    if s != [] {
      var front, last := s[..|s| - 1], s[|s| - 1];
      ChargedMembers(front);
      assert s == front + [last];
      forall id ensures id in Charged(s) <==> exists r :: r in s && r.throttled && r.item.op.id == id {
        if id in Charged(front) {
          var r :| r in front && r.throttled && r.item.op.id == id;
          assert r in s;
        }
      }
    }
  }

  lemma {:induction false} HandInFlight(t: seq<Event>, s: seq<Request>)
    ensures InFlight(t + HandedEvents(s)) == InFlight(t) + Charged(s)
    ensures Tidy(t + HandedEvents(s)) == Tidy(t)
    ensures Near(t + HandedEvents(s)) == Near(t)
  {
    if s == [] {
      assert t + HandedEvents(s) == t;
    } else {
      var front, e := s[..|s| - 1], HandedEvent(s[|s| - 1]);
      HandInFlight(t, front);
      Append(t + HandedEvents(front), e);
      assert t + HandedEvents(s) == t + HandedEvents(front) + [e];
    }
  }

  ghost predicate Distinct(s: seq<Request>) {
    forall i, j :: 0 <= i < j < |s| ==> s[i].item.op.id != s[j].item.op.id
  }

  /** Operations that are not in flight yet can be sent without a drift. */
  lemma {:induction false} HandDrift(t: seq<Event>, s: seq<Request>)
    requires Distinct(s)
    requires forall r :: r in s && r.throttled ==> r.item.op.id !in InFlight(t)
    ensures Drift(t + HandedEvents(s)) == Drift(t)
  {
    if s == [] {
      assert t + HandedEvents(s) == t;
    } else {
      var front, last := s[..|s| - 1], s[|s| - 1];
      HandDrift(t, front);
      HandInFlight(t, front);
      assert last in s;
      LastIsNew(s);
      LentAppend(t + HandedEvents(front), HandedEvent(last));
      assert t + HandedEvents(s) == t + HandedEvents(front) + [HandedEvent(last)];
    }
  }

  lemma LastIsNew(s: seq<Request>)
    requires Distinct(s) && s != []
    ensures s[|s| - 1].item.op.id !in Charged(s[..|s| - 1])
  {
    ChargedMembers(s[..|s| - 1]);
  }

  lemma ThrottlesCons(r: Request, s: seq<Request>)
    ensures Throttles([r] + s) == (if r.throttled then 1 else 0) + Throttles(s)
  {
    if s == [] {
      assert [r] + s == [r];
    } else {
      ThrottlesCons(r, s[..|s| - 1]);
      assert ([r] + s)[..|s|] == [r] + s[..|s| - 1];
    }
  }

  lemma {:induction false} SplitSpends(s: seq<Request>, quota: nat)
    ensures var share := Split(s, quota); share.quota + Throttles(share.taken) == quota
  {
    if s != [] {
      var q := if s[0].throttled && quota > 0 then quota - 1 else quota;
      SplitSpends(s[1..], q);
      ThrottlesCons(s[0], Split(s[1..], q).taken);
    }
  }

  lemma DistinctIds(s: seq<Request>)
    requires forall id :: multiset(RequestIds(s))[id] <= 1
    ensures Distinct(s)
  {
    var ids := RequestIds(s);
    forall i, j | 0 <= i < j < |s| ensures s[i].item.op.id != s[j].item.op.id {
      assert ids == ids[..j] + [ids[j]] + ids[j + 1..];
      assert multiset(ids)[ids[j]] <= 1;
      assert ids[i] == ids[..j][i];
    }
  }

  lemma AtMostOnce(c: State, held: multiset<nat>, id: nat)
    requires Counted(c, held)
    ensures (Census(c) + held)[id] <= 1
  {
  }

  lemma QueueDistinct(c: State, held: multiset<nat>)
    requires Counted(c, held)
    ensures Distinct(c.queue)
  {
    forall id ensures multiset(RequestIds(c.queue))[id] <= 1 { AtMostOnce(c, held, id); }
    DistinctIds(c.queue);
  }

  /** Requests taken and left are different ones, each in the queue once. */
  ghost predicate Parted(c: State, taken: seq<Request>, left: seq<Request>) {
    && (forall r :: r in taken || r in left ==> r in c.queue)
    && (forall r, l :: r in taken && l in left ==> r.item.op.id != l.item.op.id)
    && Distinct(taken)
  }

  lemma PartsOf(c: State, held: multiset<nat>, taken: seq<Request>, left: seq<Request>)
    requires Counted(c, held)
    requires multiset(RequestIds(c.queue)) == multiset(RequestIds(taken)) + multiset(RequestIds(left))
    requires forall r :: r in taken || r in left ==> r in c.queue
    ensures Parted(c, taken, left)
  {
    forall r, l | r in taken && l in left ensures r.item.op.id != l.item.op.id {
      InRequestIds(taken, r);
      InRequestIds(left, l);
      AtMostOnce(c, held, r.item.op.id);
    }
    forall id ensures multiset(RequestIds(taken))[id] <= 1 { AtMostOnce(c, held, id); }
    DistinctIds(taken);
  }

  lemma BeginsMetered(c: State, taken: seq<Request>, left: seq<Request>, quota: nat)
    requires Flow(c) && Shaped(c) && c.batch == [] && Parted(c, taken, left)
    requires quota <= c.quota
    ensures Flow(Begin(c, taken, left, quota))
  {
    var t := c.h.trace;
    var d := Begin(c, taken, left, quota);
    HandInFlight(t, taken);
    ChargedMembers(taken);
    forall id | id in Charged(taken) ensures id in c.h.ops && c.h.ops[id].kind.Metered() {
      var r :| r in taken && r.throttled && r.item.op.id == id;
      assert RequestOk(c.h.ops, r);
    }
    if Tidy(t) {
      ThrottledAreMetered(c);
      HandDrift(t, taken);
      TakenAway(c, taken, left);
    }
  }

  lemma ThrottledAreMetered(c: State)
    requires Shaped(c)
    ensures forall r :: r in c.queue && r.throttled ==> r.item.op.kind.Metered()
  {
    forall r | r in c.queue && r.throttled ensures r.item.op.kind.Metered() {
      assert RequestOk(c.h.ops, r);
    }
  }

  lemma TakenAway(c: State, taken: seq<Request>, left: seq<Request>)
    requires Metering(c) && Parted(c, taken, left)
    ensures var u := c.h.trace + HandedEvents(taken);
      && AwayRequests(u, taken) && Due(u, left) && AwayRequests(u, c.done)
      && AwayWaiters(u, c.table) && AwayPosted(u, c.posted)
  {
    HandInFlight(c.h.trace, taken);
    ChargedMembers(taken);
  }

  lemma PumpsMetered(c: State, held: multiset<nat>)
    requires Flow(c) && Placed(c, held)
    ensures Flow(Pump(c))
  {
    if !c.writing && c.queue != [] {
      var t := FirstTerminal(c.queue);
      if t < |c.queue| {
        PumpsTerminal(c, held, t);
      } else if c.limit == MAX_LIMIT {
        assert RequestIds([]) == [];
        PartsOf(c, held, c.queue, []);
        BeginsMetered(c, c.queue, [], c.quota);
      } else {
        var share := Split(c.queue, c.quota);
        SplitKeeps(c.queue, c.quota);
        SplitSpends(c.queue, c.quota);
        if share.taken != [] {
          PartsOf(c, held, share.taken, share.left);
          BeginsMetered(c, share.taken, share.left, share.quota);
        }
      }
    }
  }

  lemma PumpsTerminal(c: State, held: multiset<nat>, t: nat)
    requires Flow(c) && Placed(c, held) && !c.writing && t < |c.queue| && c.queue[t].terminal
    ensures Flow(Begin(c, [c.queue[t]], Without(c.queue, t), c.quota))
  {
    var r := c.queue[t];
    assert r in c.queue && RequestOk(c.h.ops, r);
    RequestIdsWithout(c.queue, t);
    assert RequestIds([r]) == [r.item.op.id];
    PartsOf(c, held, [r], Without(c.queue, t));
    BeginsMetered(c, [r], Without(c.queue, t), c.quota);
  }

  lemma SendsMetered(c: State, held: multiset<nat>, r: Request)
    requires Flow(c) && Placed(c, held + multiset{r.item.op.id}) && RequestOk(c.h.ops, r)
    requires Tidy(c.h.trace) && r.item.op.kind.Metered() ==>
               (r.throttled <==> r.item.op.id !in InFlight(c.h.trace))
    ensures Flow(Send(c, r))
  {
    var c1 := c.(queue := c.queue + [r]);
    Enqueue(c, held, r);
    assert Flow(c1);
    PumpsMetered(c1, held);
  }

  // ----- other moves

  lemma LogsMetered(c: State, e: Event)
    requires Flow(c) && !e.Handed? && !e.Finished? && !e.Epoch?
    ensures Flow(Log(c, e))
    ensures InFlight(Log(c, e).h.trace) == InFlight(c.h.trace)
    ensures Tidy(Log(c, e).h.trace) ==> Tidy(c.h.trace)
  {
    Append(c.h.trace, e);
    LentAppend(c.h.trace, e);
  }

  lemma AwaitsMetered(c: State, item: Item)
    requires Flow(c) && !item.stage.Writes()
    requires Tidy(c.h.trace) && item.op.kind.Metered() ==> item.op.id in InFlight(c.h.trace)
    ensures Flow(AwaitReply(c, item))
  {
    var code, pid := AwaitedCode(item.stage), item.op.pid;
    EvictsMetered(c, code, pid);
  }

  lemma EvictsMetered(c: State, code: Code, pid: nat)
    requires Flow(c)
    ensures Flow(Evict(c, code, pid))
  {
    var i := FindWaiter(c.table, code, pid);
    if i < |c.table| {
      assert c.table[i] in c.table;
      WaiterIdsWithout(c.table, i);
    }
  }

  /** Retiring an operation and giving back its share of the quota. */
  lemma Settles(c: State, op: Op, ending: Ending)
    requires Flow(c) && Nowhere(c, op.id) && op.id in c.h.ops && c.h.ops[op.id] == op
    requires Tidy(c.h.trace) && op.kind.Metered() ==> op.id in InFlight(c.h.trace)
    ensures var c1 := Retire(c, op, ending);
            Flow(if op.kind.Metered() && c.limit != MAX_LIMIT
                 then c1.(quota := if c1.quota == MAX_LIMIT then 0 else c1.quota + 1) else c1)
  {
    Append(c.h.trace, Finished(op.id, ending, op.kind));
    LentAppend(c.h.trace, Finished(op.id, ending, op.kind));
  }

  // ----- order

  function RequestRank(r: Request): Rank {
    Rank(r.item.stage.OnPubrel?, r.item.op.id)
  }

  function RankList(r: Request): seq<Rank> {
    if r.throttled then [RequestRank(r)] else []
  }

  /** The throttled requests, in their order in the queue. */
  function Ranks(s: seq<Request>): seq<Rank> {
    if s == [] then [] else Ranks(s[..|s| - 1]) + RankList(s[|s| - 1])
  }

  predicate Rising(q: seq<Rank>) {
    forall i, j :: 0 <= i < j < |q| ==> Before(q[i], q[j])
  }

  ghost predicate Ahead(s: set<Rank>, q: seq<Rank>) {
    forall a, b :: a in s && b in q ==> Before(a, b)
  }

  /** Each request that was not put back comes behind everything in front of it. */
  ghost predicate Lined(q: seq<Rank>, back: set<nat>) {
    forall i, j :: 0 <= i < j < |q| && q[j].id !in back ==> Before(q[i], q[j])
  }

  ghost predicate Behind(s: set<Rank>, q: seq<Rank>, back: set<nat>) {
    forall a, b :: a in s && b in q && b.id !in back ==> Before(a, b)
  }

  /** Unless a packet that was put back has been handed over out of turn, everything
      was handed over in order, and what is queued and was not put back is in line. */
  ghost predicate Ordering(c: State) {
    BackInTurn(c.h.trace) && Near(c.h.trace) ==>
      && Orderly(c.h.trace) && InLine(c.h.trace, Ranks(c.queue))
  }

  ghost predicate InLine(t: seq<Event>, q: seq<Rank>) {
    Lined(q, Returns(t)) && Behind(Transmissions(t), q, Returns(t))
  }

  predicate Beside(q: seq<Rank>, back: set<nat>) {
    forall x :: x in q ==> x.id !in back
  }

  lemma LinedParts(a: seq<Rank>, b: seq<Rank>, back: set<nat>)
    requires Lined(a + b, back)
    ensures Lined(a, back) && Lined(b, back)
    ensures forall x, y :: x in a && y in b && y.id !in back ==> Before(x, y)
  {
    var q := a + b;
    assert forall i :: 0 <= i < |a| ==> q[i] == a[i];
    assert forall i :: 0 <= i < |b| ==> q[|a| + i] == b[i];
    forall i, j | 0 <= i < j < |b| && b[j].id !in back ensures Before(b[i], b[j]) {
      assert Before(q[|a| + i], q[|a| + j]);
    }
    forall x, y | x in a && y in b && y.id !in back ensures Before(x, y) {
      var i :| 0 <= i < |a| && a[i] == x;
      var j :| 0 <= j < |b| && b[j] == y;
      assert Before(q[i], q[|a| + j]);
    }
  }

  lemma RanksSnoc(s: seq<Request>, r: Request)
    ensures Ranks(s + [r]) == Ranks(s) + RankList(r)
  {
    Seqs.Front(s, r);
  }

  lemma RanksOne(r: Request)
    ensures Ranks([r]) == RankList(r)
  {
    RanksSnoc([], r);
    assert [] + [r] == [r];
  }

  lemma {:induction false} RanksConcat(a: seq<Request>, b: seq<Request>)
    ensures Ranks(a + b) == Ranks(a) + Ranks(b)
  {
    if b == [] {
      assert a + b == a;
    } else {
      var front, r := b[..|b| - 1], b[|b| - 1];
      RanksConcat(a, front);
      RanksSnoc(a + front, r);
      Seqs.LastOfConcat(a, b);
      Seqs.Assoc(Ranks(a), Ranks(front), RankList(r));
    }
  }

  /** Of the throttled requests, a prefix is taken and the rest is left. */
  lemma {:induction false} SplitRanks(s: seq<Request>, quota: nat)
    ensures var share := Split(s, quota);
      && Ranks(s) == Ranks(share.taken) + Ranks(share.left)
      && (quota == 0 ==> Ranks(share.taken) == [])
  {
    if s != [] {
      var q := if s[0].throttled && quota > 0 then quota - 1 else quota;
      SplitRanks(s[1..], q);
      var rest := Split(s[1..], q);
      RanksConcat([s[0]], rest.taken);
      RanksConcat([s[0]], rest.left);
      RanksConcat([s[0]], s[1..]);
      RanksOne(s[0]);
      Seqs.First(s);
      Seqs.Assoc(RankList(s[0]), Ranks(rest.taken), Ranks(rest.left));
    }
  }

  ghost function SetOf(q: seq<Rank>): set<Rank> {
    set x | x in q
  }

  lemma HandOne(t: seq<Event>, r: Request)
    requires Orderly(t)
    requires forall y :: y in RankList(r) ==> AllBefore(Transmissions(t), y)
    ensures Orderly(t + [HandedEvent(r)])
  {
    Append(t, HandedEvent(r));
  }

  lemma {:induction false} HandTransmissions(t: seq<Event>, s: seq<Request>, u: seq<Event>)
    requires u == t + HandedEvents(s)
    ensures Transmissions(u) == Transmissions(t) + SetOf(Ranks(s))
  {
    if s == [] {
      assert u == t;
    } else {
      var front, r := s[..|s| - 1], s[|s| - 1];
      var v := t + HandedEvents(front);
      HandTransmissions(t, front, v);
      TransmitOne(v, r);
      Seqs.Assoc(t, HandedEvents(front), [HandedEvent(r)]);
      Collects(Transmissions(t), Ranks(front), RankList(r));
    }
  }

  lemma {:induction false} HandInOrder(t: seq<Event>, s: seq<Request>, u: seq<Event>)
    requires Orderly(t) && InLine(t, Ranks(s)) && u == t + HandedEvents(s) && BackInTurn(u)
    ensures Orderly(u)
  {
    if s == [] {
      assert u == t;
    } else {
      var front, r := s[..|s| - 1], s[|s| - 1];
      var v := t + HandedEvents(front);
      Seqs.Assoc(t, HandedEvents(front), [HandedEvent(r)]);
      ReturnsAppend(v, HandedEvent(r));
      LinedParts(Ranks(front), RankList(r), Returns(t));
      HandInOrder(t, front, v);
      HandTransmissions(t, front, v);
      HandReturns(t, front);
      LastComesLast(t, v, front, r);
      HandOne(v, r);
    }
  }

  lemma Collects(s: set<Rank>, a: seq<Rank>, b: seq<Rank>)
    ensures (s + SetOf(a)) + SetOf(b) == s + SetOf(a + b)
  {
  }

  lemma TransmitOne(t: seq<Event>, r: Request)
    ensures Transmissions(t + [HandedEvent(r)]) == Transmissions(t) + SetOf(RankList(r))
  {
    Append(t, HandedEvent(r));
  }

  lemma LastComesLast(t: seq<Event>, u: seq<Event>, front: seq<Request>, r: Request)
    requires Behind(Transmissions(t), Ranks(front) + RankList(r), Returns(t)) && Returns(u) == Returns(t)
    requires Transmissions(u) == Transmissions(t) + SetOf(Ranks(front))
    requires forall x, y :: x in Ranks(front) && y in RankList(r) && y.id !in Returns(t) ==> Before(x, y)
    requires r.throttled && r.item.op.id in Returns(u) ==> AllBefore(Transmissions(u), RequestRank(r))
    ensures forall y :: y in RankList(r) ==> AllBefore(Transmissions(u), y)
  {
    forall y | y in RankList(r) ensures AllBefore(Transmissions(u), y) {
      assert y in Ranks(front) + RankList(r);
    }
  }

  /** A batch is handed over: what was put back is handed over, or is not in it. */
  lemma {:induction false} HandReturns(t: seq<Event>, s: seq<Request>)
    ensures var u := t + HandedEvents(s);
      && Returns(u) == Returns(t) && Unanswered(u) == Unanswered(t)
      && (NoneReturned(u) <==> NoneReturned(t) && Beside(Ranks(s), Returns(t)))
      && (NoneRepeated(u) ==> NoneRepeated(t) && Beside(Ranks(s), InFlight(t)))
  {
    if s == [] {
      assert t + HandedEvents(s) == t;
    } else {
      var front, r := s[..|s| - 1], s[|s| - 1];
      HandReturns(t, front);
      HandInFlight(t, front);
      var v := t + HandedEvents(front);
      ReturnsAppend(v, HandedEvent(r));
      Seqs.Assoc(t, HandedEvents(front), [HandedEvent(r)]);
      BesideOne(Ranks(front), r, Returns(t));
      BesideOne(Ranks(front), r, InFlight(t));
    }
  }

  lemma BesideOne(q: seq<Rank>, r: Request, back: set<nat>)
    ensures Beside(q + RankList(r), back) <==> Beside(q, back) && (r.throttled ==> r.item.op.id !in back)
  {
    if r.throttled { assert RequestRank(r) in q + RankList(r); }
    assert forall x :: x in q ==> x in q + RankList(r);
  }

  lemma {:induction false} BackEarlier(t: seq<Event>, s: seq<Request>)
    requires BackInTurn(t + HandedEvents(s))
    ensures BackInTurn(t)
  {
    if s == [] {
      assert t + HandedEvents(s) == t;
    } else {
      var front, r := s[..|s| - 1], s[|s| - 1];
      Seqs.Assoc(t, HandedEvents(front), [HandedEvent(r)]);
      ReturnsAppend(t + HandedEvents(front), HandedEvent(r));
      BackEarlier(t, front);
    }
  }

  lemma BeginsInOrder(c: State, taken: seq<Request>, left: seq<Request>, quota: nat)
    requires Ordering(c) && Ranks(c.queue) == Ranks(taken) + Ranks(left)
    ensures Ordering(Begin(c, taken, left, quota))
  {
    var t, u := c.h.trace, c.h.trace + HandedEvents(taken);
    HandInFlight(t, taken);
    HandReturns(t, taken);
    if BackInTurn(u) && Near(t) {
      BackEarlier(t, taken);
      LinedParts(Ranks(taken), Ranks(left), Returns(t));
      HandInOrder(t, taken, u);
      HandTransmissions(t, taken, u);
    }
  }

  lemma WithoutUnthrottled(s: seq<Request>, i: nat)
    requires i < |s| && !s[i].throttled
    ensures Ranks([s[i]]) == [] && Ranks(Without(s, i)) == Ranks(s)
  {
    RanksOne(s[i]);
    var a, b := s[..i], s[i + 1..];
    Seqs.Around(s, i);
    RanksSnoc(a, s[i]);
    RanksConcat(a + [s[i]], b);
    RanksConcat(a, b);
    assert Ranks(a + [s[i]]) == Ranks(a);
  }

  lemma PumpsInOrder(c: State)
    requires Ordering(c) && Shaped(c)
    ensures Ordering(Pump(c))
  {
    if !c.writing && c.queue != [] {
      var t := FirstTerminal(c.queue);
      if t < |c.queue| {
        assert c.queue[t] in c.queue && RequestOk(c.h.ops, c.queue[t]);
        WithoutUnthrottled(c.queue, t);
        BeginsInOrder(c, [c.queue[t]], Without(c.queue, t), c.quota);
      } else if c.limit == MAX_LIMIT {
        assert Ranks(c.queue) == Ranks(c.queue) + Ranks([]);
        BeginsInOrder(c, c.queue, [], c.quota);
      } else {
        var share := Split(c.queue, c.quota);
        SplitRanks(c.queue, c.quota);
        if share.taken != [] {
          BeginsInOrder(c, share.taken, share.left, share.quota);
        }
      }
    }
  }

  /** A packet joins the queue: an unthrottled one, that of the latest call, or one
      that is put back. */
  lemma SendsInOrder(c: State, r: Request)
    requires Ordering(c) && Shaped(c) && RequestOk(c.h.ops, r)
    requires BackInTurn(c.h.trace) && Near(c.h.trace) && r.throttled && r.item.op.id !in Returns(c.h.trace) ==>
      AllBefore(Transmissions(c.h.trace), RequestRank(r)) && Ahead(SetOf(Ranks(c.queue)), [RequestRank(r)])
    ensures Ordering(Send(c, r))
  {
    var c1 := c.(queue := c.queue + [r]);
    RanksSnoc(c.queue, r);
    JoinsInLine(c.h.trace, Ranks(c.queue), r);
    assert Shaped(c1);
    PumpsInOrder(c1);
  }

  lemma JoinsInLine(t: seq<Event>, q: seq<Rank>, r: Request)
    ensures InLine(t, q) && (r.throttled && r.item.op.id !in Returns(t) ==>
              AllBefore(Transmissions(t), RequestRank(r)) && Ahead(SetOf(q), [RequestRank(r)]))
            ==> InLine(t, q + RankList(r))
  {
  }

  lemma LogsInOrder(c: State, e: Event)
    requires Ordering(c) && !e.Handed? && !e.Epoch? && !e.Finished?
    ensures Ordering(Log(c, e))
  {
    Append(c.h.trace, e);
    ReturnsAppend(c.h.trace, e);
  }

  // ----- the queue after a resend

  predicate InCallOrder(a: Op, b: Op) {
    a.kind.Publishes() && b.kind.Publishes() ==> a.seqno < b.seqno
  }

  /** Publish operations are numbered in the order of their calls. */
  ghost predicate Serials(h: History, lastSerial: nat) {
    && lastSerial == h.published % 0x1_0000_0000
    && (forall id :: id in h.ops && h.ops[id].kind.Publishes() ==> 1 <= h.ops[id].seqno <= h.published)
    && (forall a, b :: a in h.ops && b in h.ops && a < b ==> InCallOrder(h.ops[a], h.ops[b]))
  }

  /** What `resend()` puts in the queue. */
  predicate Requeued(s: seq<Request>) {
    forall r :: r in s ==> r.item.op.kind.Publishes() || Unnumbered(r.item.op.kind)
  }

  lemma QueueInWindow(ops: map<nat, Op>, s: seq<Request>, base: nat)
    requires AllRequests(ops, s) && SerialsNear(ops, base) && Requeued(s)
    ensures Window(s, base)
    ensures forall r :: r in s && r.throttled ==> Age(r.serial, base) == r.item.op.seqno - base
  {
    forall r | r in s
      ensures InWindow(r, base) && (r.throttled ==> Age(r.serial, base) == r.item.op.seqno - base)
    {
      assert RequestOk(ops, r);
      if r.item.op.kind.Publishes() {
        AgeOfCall(r.item.op.seqno, base);
      } else {
        assert Unnumbered(ops[r.item.op.id].kind);
      }
    }
  }

  lemma {:induction false} RanksRise(s: seq<Request>)
    requires forall i, j :: 0 <= i < j < |s| && s[i].throttled && s[j].throttled ==>
               Before(RequestRank(s[i]), RequestRank(s[j]))
    ensures Rising(Ranks(s))
  {
    if s != [] {
      var front, r := s[..|s| - 1], s[|s| - 1];
      RanksRise(front);
      RanksMembers(front);
      forall y | y in Ranks(front) && r.throttled ensures Before(y, RequestRank(r)) {
        var x :| x in front && x.throttled && RequestRank(x) == y;
        var i :| 0 <= i < |front| && front[i] == x;
        assert s[i] == x;
      }
    }
  }

  lemma {:induction false} RanksMembers(s: seq<Request>)
    ensures forall y :: y in Ranks(s) ==> exists r :: r in s && r.throttled && RequestRank(r) == y
  {
    if s != [] {
      var front, r := s[..|s| - 1], s[|s| - 1];
      RanksMembers(front);
      forall y | y in Ranks(s) ensures exists r :: r in s && r.throttled && RequestRank(r) == y {
        if y in Ranks(front) {
          var x :| x in front && x.throttled && RequestRank(x) == y;
          assert x in s;
        } else {
          assert r in s;
        }
      }
    }
  }

  /** Sorting puts re-sent PUBRELs first and both groups in call order. */
  lemma SortRises(h: History, lastSerial: nat, s: seq<Request>, base: nat)
    requires AllRequests(h.ops, s) && Serials(h, lastSerial) && SerialsNear(h.ops, base) && Requeued(s)
    requires SortedByKey(s, base) && Distinct(s)
    ensures Rising(Ranks(s))
  {
    QueueInWindow(h.ops, s, base);
    forall i, j | 0 <= i < j < |s| && s[i].throttled && s[j].throttled
      ensures Before(RequestRank(s[i]), RequestRank(s[j]))
    {
      KeysDecide(h, lastSerial, s[i], s[j], base);
    }
    RanksRise(s);
  }

  lemma KeysDecide(h: History, lastSerial: nat, a: Request, b: Request, base: nat)
    requires RequestOk(h.ops, a) && RequestOk(h.ops, b) && Serials(h, lastSerial)
    requires InWindow(a, base) && InWindow(b, base) && a.throttled && b.throttled
    requires Age(a.serial, base) == a.item.op.seqno - base
    requires Age(b.serial, base) == b.item.op.seqno - base
    requires Key(a, base) <= Key(b, base) && a.item.op.id != b.item.op.id
    requires h.ops[a.item.op.id].id == a.item.op.id && h.ops[b.item.op.id].id == b.item.op.id
    ensures Before(RequestRank(a), RequestRank(b))
  {
    assert a.prioritized == a.item.stage.OnPubrel? && b.prioritized == b.item.stage.OnPubrel?;
    if a.item.op.id > b.item.op.id {
      assert InCallOrder(h.ops[b.item.op.id], h.ops[a.item.op.id]);
    }
  }
}
