/**
 `resend()`: while it runs nothing is written, every unanswered and unsent
 operation passes through its handler once, and the rebuilt queue is sorted
 before the first write of the new epoch begins.
 */
module Resending {
  import opened Requests
  import opened Client
  import opened SerialOrder
  import opened Places
  import opened Runs
  import opened Soundness
  import opened Traffic
  import opened FlowControl
  import opened Flight
  import opened Ledger
  import opened Engine

  /** The state between the beginning of a resend and the sort. */
  ghost predicate Refilling(c: State, base: nat) {
    var t := c.h.trace;
    && c.writing && c.batch == [] && Requeued(c.queue)
    && InFlight(t) == {} && Transmissions(t) == {} && Returns(t) == {} && Orderly(t)
    && (Tidy(t) ==> c.cancelled !! c.h.ops.Keys)
    && (Near(t) ==> SerialsNear(c.h.ops, base))
  }

  /** A handler that runs while nothing can be written: at most its own
      operation ends. */
  ghost predicate Quietly(c: State, d: State, id: nat) {
    && d.writing && d.batch == c.batch && d.done == c.done && d.cancelled == c.cancelled
    && (Requeued(c.queue) ==> Requeued(d.queue))
    && ((d.h.trace == c.h.trace && d.h.ops == c.h.ops) || EndsOnly(c.h, d.h, id))
  }

  ghost predicate EndsOnly(h: History, k: History, id: nat) {
    k.ops == h.ops - {id} && exists ending, kind :: k.trace == h.trace + [Finished(id, ending, kind)]
  }

  lemma CompleteQuietly(c: State, d: State, op: Op, ending: Ending)
    requires c.writing && d == Complete(c, op, ending)
    ensures Quietly(c, d, op.id)
  {
    assert d.h.trace == c.h.trace + [Finished(op.id, ending, op.kind)];
  }

  lemma PublishQuietly(c: State, d: State, item: Item)
    requires c.writing && item.op.kind.Publishes() && d == ResendPublish(c, item)
    ensures Quietly(c, d, item.op.id)
  {
    if item.op.id in c.cancelled { CompleteQuietly(c, d, item.op, Failed); }
  }

  lemma SubscribeQuietly(c: State, d: State, item: Item)
    requires c.writing && item.op.kind.Subscribe? && d == ResendSubscribe(c, item)
    ensures Quietly(c, d, item.op.id)
  {
    if item.op.id in c.cancelled { CompleteQuietly(c, d, item.op, Failed); }
  }

  lemma WaiterQuietly(c: State, d: State, item: Item)
    requires c.writing && !item.stage.Writes() && Fits(item) && d == OnResend(c, item)
    ensures Quietly(c, d, item.op.id)
  {
    match item.stage
    case OnPuback => PublishQuietly(c, d, item.(dup := true));
    case OnPubrec => PublishQuietly(c, d, item.(dup := true));
    case OnPubcomp =>
    case OnSuback => SubscribeQuietly(c, d, item);
    case OnRecPubrel =>
  }

  lemma RequestQuietly(c: State, d: State, item: Item)
    requires c.writing && item.stage.Writes() && Fits(item) && d == OnTryAgain(c, item)
    ensures Quietly(c, d, item.op.id)
  {
    match item.stage
    case OnPublish => PublishQuietly(c, d, item);
    case OnPubrel =>
    case OnSubscribe => SubscribeQuietly(c, d, item);
    case OnDisconnect => if !item.op.kind.retry { CompleteQuietly(c, d, item.op, Completed); }
    case OnOneShot => CompleteQuietly(c, d, item.op, Failed);
    case OnRecPuback => CompleteQuietly(c, d, item.op, Failed);
    case OnRecPubrec => CompleteQuietly(c, d, item.op, Failed);
    case OnRecPubcomp =>
  }

  lemma StaysRefilling(c: State, d: State, id: nat, base: nat)
    requires Refilling(c, base) && Quietly(c, d, id)
    ensures Refilling(d, base)
  {
    if EndsOnly(c.h, d.h, id) {
      var ending, kind :| d.h.trace == c.h.trace + [Finished(id, ending, kind)];
      Append(c.h.trace, Finished(id, ending, kind));
      ReturnsAppend(c.h.trace, Finished(id, ending, kind));
    }
  }

  lemma StaysTold(c: State, d: State, id: nat, s: seq<Waiter>, reqs: seq<Request>)
    requires WaiterFacts(c.h.trace, s) && RequestFacts(c.h.trace, reqs) && Quietly(c, d, id)
    ensures WaiterFacts(d.h.trace, s) && RequestFacts(d.h.trace, reqs)
  {
    if EndsOnly(c.h, d.h, id) {
      var ending, kind :| d.h.trace == c.h.trace + [Finished(id, ending, kind)];
      GrowWaiters(c.h.trace, Finished(id, ending, kind), s);
      GrowRequests(c.h.trace, Finished(id, ending, kind), reqs);
    }
  }

  /** What a loop of `resend()` knows of the operations still to come. */
  ghost predicate Pending(c: State, s: seq<Waiter>, reqs: seq<Request>, base: nat) {
    && Holding(c, s, reqs) && WaiterFacts(c.h.trace, s) && RequestFacts(c.h.trace, reqs)
    && Sound(c, false) && Refilling(c, base)
  }

  lemma {:induction false} WaitersAgain(c: State, s: seq<Waiter>, reqs: seq<Request>, base: nat)
    requires Pending(c, s, reqs, base) && WaitersFit(s)
    ensures Pending(ResendWaiters(c, s), [], reqs, base)
    decreases |s|
  {
    if s != [] {
      var item := s[0].item;
      assert s[0] in s;
      HeadWaiter(s);
      var rest := multiset(WaiterIds(s[1..])) + multiset(RequestIds(reqs));
      assert rest + multiset{item.op.id} == multiset(WaiterIds(s)) + multiset(RequestIds(reqs));
      var d := OnResend(c, item);
      NextWaiter(c, d, s, reqs);
      StartOverStep(c, d, rest, item, false);
      WaiterQuietly(c, d, item);
      StaysRefilling(c, d, item.op.id, base);
      StaysTold(c, d, item.op.id, s[1..], reqs);
      WaitersAgain(d, s[1..], reqs, base);
    }
  }

  lemma {:induction false} RequestsAgain(c: State, s: seq<Request>, base: nat)
    requires Pending(c, [], s, base) && RequestsFit(s)
    ensures Pending(RetryRequests(c, s), [], [], base)
    decreases |s|
  {
    if s != [] {
      var item := s[0].item;
      assert s[0] in s;
      HeadRequest(s);
      NoWaiters();
      var d := OnTryAgain(c, item);
      NextRequest(c, d, s);
      TryAgainStep(c, d, multiset(RequestIds(s[1..])), item);
      RequestQuietly(c, d, item);
      StaysRefilling(c, d, item.op.id, base);
      StaysTold(c, d, item.op.id, [], s[1..]);
      RequestsAgain(d, s[1..], base);
    }
  }

  // ----- the sort

  lemma SortPlaced(c: State, d: State)
    requires Placed(c, multiset{}) && c.batch == []
    requires d == c.(queue := StableSort(c.queue), writing := false)
    ensures Placed(d, multiset{}) && Distinct(d.queue)
  {
    SortIds(c.queue);
    SortMembers(c.queue);
    assert Census(d) == Census(c);
    QueueDistinct(d, multiset{});
  }

  lemma SortSound(c: State, d: State)
    requires Chronicle(c) && Flow(c) && Flying(c) && d == c.(queue := StableSort(c.queue), writing := false)
    ensures Chronicle(d) && Flow(d) && Flying(d)
  {
    SortMembers(c.queue);
  }

  lemma SortOrders(c: State, d: State, base: nat)
    requires Refilling(c, base) && Serials(c.h, c.lastSerial) && AllRequests(c.h.ops, c.queue)
    requires d == c.(queue := StableSort(c.queue), writing := false)
    requires AllRequests(d.h.ops, d.queue) && Distinct(d.queue)
    ensures Ordering(d)
  {
    if Near(c.h.trace) {
      SortMembers(c.queue);
      QueueInWindow(c.h.ops, c.queue, base);
      SortSorts(c.queue, base);
      SortRises(d.h, d.lastSerial, d.queue, base);
      assert InLine(d.h.trace, Ranks(d.queue));
    }
  }

  lemma Sorted(c: State, d: State, base: nat)
    requires Placed(c, multiset{}) && Sound(c, false) && Refilling(c, base)
    requires d == c.(queue := StableSort(c.queue), writing := false)
    ensures Placed(d, multiset{}) && Sound(d, true)
  {
    Unfold(c, false);
    SortPlaced(c, d);
    SortSound(c, d);
    SortOrders(c, d, base);
  }

  // ----- the beginning

  lemma RefillPlaced(c: State, d: State)
    requires Placed(c, multiset{}) && !c.writing
    requires d.queue == [] && d.table == [] && d.batch == c.batch && d.done == c.done
    requires d.posted == c.posted && d.inUse == c.inUse && d.writing
    requires d.h == c.h.(trace := d.h.trace)
    ensures Placed(d, multiset(WaiterIds(c.table)) + multiset(RequestIds(c.queue)))
  {
    assert RequestIds([]) == [] && WaiterIds([]) == [];
  }

  lemma EmptyNothing(t: seq<Event>, s: seq<Posted>)
    requires NothingMetered(s)
    ensures AwayPosted(t, s) && AwayRequests(t, []) && AwayWaiters(t, []) && Due(t, [])
  {
  }

  lemma RefillFlow(c: State, d: State, limit: nat)
    requires limit <= MAX_LIMIT && c.done == [] && c.batch == []
    requires d == Log(c, EpochEvent(c)).(writing := true, limit := limit, quota := limit,
                                         queue := [], table := [])
    ensures Flow(d)
  {
    Append(c.h.trace, EpochEvent(c));
    LentAppend(c.h.trace, EpochEvent(c));
    if Tidy(d.h.trace) { EmptyNothing(d.h.trace, d.posted); }
  }

  /** A window that holds the serials, if there is one. */
  ghost function WindowBase(ops: map<nat, Op>): nat {
    if exists base: nat :: SerialsNear(ops, base) then
      var base: nat :| SerialsNear(ops, base);
      base
    else 0
  }

  lemma RefillBegins(c: State, d: State, limit: nat)
    requires Placed(c, multiset{}) && Chronicle(c) && Serials(c.h, c.lastSerial) && InPhase(c.h)
    requires !c.writing && c.done == [] && limit <= MAX_LIMIT
    requires d == Log(c, EpochEvent(c)).(writing := true, limit := limit, quota := limit,
                                         queue := [], table := [])
    ensures Placed(d, multiset(WaiterIds(c.table)) + multiset(RequestIds(c.queue)))
    ensures Sound(d, false)
  {
    RefillPlaced(c, d);
    Logs(c, multiset{}, EpochEvent(c));
    LogsInPhase(c.h, EpochEvent(c), d.h);
    EpochBooked(c, EpochEvent(c), d);
    RefillFlow(c, d, limit);
    EpochAloft(c, d);
  }

  lemma RefillStarts(c: State, d: State)
    requires !c.writing && c.batch == []
    requires d.h == c.h.(trace := c.h.trace + [EpochEvent(c)]) && d.writing && d.batch == c.batch
    requires d.queue == []
    requires d.cancelled == c.cancelled
    requires WaiterFacts(c.h.trace, c.table) && RequestFacts(c.h.trace, c.queue)
    ensures Refilling(d, WindowBase(c.h.ops))
    ensures WaiterFacts(d.h.trace, c.table) && RequestFacts(d.h.trace, c.queue)
  {
    Append(c.h.trace, EpochEvent(c));
    ReturnsAppend(c.h.trace, EpochEvent(c));
    GrowWaiters(c.h.trace, EpochEvent(c), c.table);
    GrowRequests(c.h.trace, EpochEvent(c), c.queue);
  }

  /** The sort and the first write of the epoch. */
  lemma RefillEnds(c: State, d: State, base: nat)
    requires Placed(c, multiset{}) && Sound(c, false) && Refilling(c, base)
    requires d == Pump(c.(queue := StableSort(c.queue), writing := false))
    ensures Placed(d, multiset{}) && Sound(d, true) && (d.writing ==> d.batch != [])
  {
    var c1 := c.(queue := StableSort(c.queue), writing := false);
    Sorted(c, c1, base);
    Pumps(c1, multiset{});
    PumpStep(c1, d, multiset{}, true);
  }

  lemma Refills(c: State, d: State, table: seq<Waiter>, queue: seq<Request>, base: nat)
    requires Pending(c, table, queue, base)
    requires WaitersFit(table) && RequestsFit(queue) && d == RetryRequests(ResendWaiters(c, table), queue)
    ensures Placed(d, multiset{}) && Sound(d, false) && Refilling(d, base)
  {
    WaitersAgain(c, table, queue, base);
    RequestsAgain(ResendWaiters(c, table), queue, base);
    NoWaiters();
  }

  /** `resend()` keeps what was known of the run and of the places, and makes
      the balance of the quota and the order of the queue hold anew. */
  lemma ResendStep(c: State, limit: nat)
    requires Placed(c, multiset{}) && Chronicle(c) && Serials(c.h, c.lastSerial) && InPhase(c.h)
    requires !c.writing && c.done == [] && limit <= MAX_LIMIT
    ensures WaitersFit(c.table) && RequestsFit(c.queue)
    ensures var d := Resend(c, limit);
            Placed(d, multiset{}) && Sound(d, true) && (d.writing ==> d.batch != [])
  {
    ShapeFits(c);
    var base := WindowBase(c.h.ops);
    var c1 := Log(c, EpochEvent(c)).(writing := true, limit := limit, quota := limit,
                                     queue := [], table := []);
    RefillBegins(c, c1, limit);
    RefillStarts(c, c1);
    var c2 := RetryRequests(ResendWaiters(c1, c.table), c.queue);
    Refills(c1, c2, c.table, c.queue, base);
    RefillEnds(c2, Resend(c, limit), base);
  }

  lemma ShapeFits(c: State)
    requires Shaped(c)
    ensures WellShaped(c)
  {
    forall r | r in c.queue || r in c.batch || r in c.done ensures r.item.stage.Writes() && Fits(r.item) {
      assert RequestOk(c.h.ops, r);
    }
    forall w | w in c.table ensures !w.item.stage.Writes() && Fits(w.item) {
      assert WaiterOk(c.h.ops, w);
    }
    forall p | p in c.posted
      ensures Fits(p.item) && !p.outcome.TryAgain? && (p.outcome.Got? ==> !p.item.stage.Writes())
    {
      assert PostedOk(c.h.ops, p);
    }
  }
}
