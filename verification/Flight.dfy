/**
 Who is in flight. In a span that began with no reply posted to a QoS 1 or QoS 2
 operation, every such operation that waits for a reply, or has one, is in flight,
 whatever is cancelled, aborted or malformed. So a packet that a malformed
 acknowledgement puts back is that of an operation in flight.
 */
module Flight {
  import opened Requests
  import opened Client
  import opened Places
  import opened Runs
  import opened FlowControl

  /** A packet that is not throttled is that of an operation in flight. */
  ghost predicate Paid(t: seq<Event>, s: seq<Request>) {
    forall r :: r in s && r.item.op.kind.Metered() && !r.throttled ==> r.item.op.id in InFlight(t)
  }

  ghost predicate AnsweredAway(t: seq<Event>, s: seq<Posted>) {
    forall p :: p in s && p.outcome.Got? && p.item.op.kind.Metered() ==> p.item.op.id in InFlight(t)
  }

  ghost predicate Aloft(c: State) {
    var t := c.h.trace;
    && Paid(t, c.queue) && AwayRequests(t, c.batch) && AwayRequests(t, c.done)
    && AwayWaiters(t, c.table) && AnsweredAway(t, c.posted) && Coming(t)
  }

  /** What was put back is in flight, so it is not handed over unless something in
      flight is. */
  ghost predicate Coming(t: seq<Event>) {
    Returns(t) <= InFlight(t) && (NoneRepeated(t) ==> NoneReturned(t))
  }

  ghost predicate Flying(c: State) {
    Unanswered(c.h.trace) ==> Aloft(c)
  }

  lemma HandsComing(t: seq<Event>, s: seq<Request>, u: seq<Event>)
    requires Coming(t) && u == t + HandedEvents(s)
    ensures Coming(u)
  {
    HandInFlight(t, s);
    HandReturns(t, s);
  }

  lemma BeginsAloft(c: State, taken: seq<Request>, left: seq<Request>, quota: nat)
    requires Flying(c) && forall r :: r in taken || r in left ==> r in c.queue
    ensures Flying(Begin(c, taken, left, quota))
  {
    var t, u := c.h.trace, c.h.trace + HandedEvents(taken);
    HandInFlight(t, taken);
    HandReturns(t, taken);
    ChargedMembers(taken);
    if Unanswered(t) { HandsComing(t, taken, u); }
  }

  lemma PumpsAloft(c: State, d: State)
    requires Flying(c) && d == Pump(c)
    ensures Flying(d)
  {
    if !c.writing && c.queue != [] {
      var t := FirstTerminal(c.queue);
      if t < |c.queue| {
        RequestIdsWithout(c.queue, t);
        BeginsAloft(c, [c.queue[t]], Without(c.queue, t), c.quota);
      } else if c.limit == MAX_LIMIT {
        BeginsAloft(c, c.queue, [], c.quota);
      } else {
        var share := Split(c.queue, c.quota);
        SplitKeeps(c.queue, c.quota);
        if share.taken != [] { BeginsAloft(c, share.taken, share.left, share.quota); }
      }
    }
  }

  lemma SendsAloft(c: State, d: State, r: Request)
    requires Flying(c) && d == Send(c, r)
    requires Unanswered(c.h.trace) && r.item.op.kind.Metered() && !r.throttled ==> r.item.op.id in InFlight(c.h.trace)
    ensures Flying(d)
  {
    PumpsAloft(c.(queue := c.queue + [r]), d);
  }

  lemma LogsAloft(c: State, d: State, e: Event)
    requires Flying(c) && !e.Handed? && !e.Finished? && !e.Epoch?
    requires e.Returned? && Unanswered(c.h.trace) ==> e.id in InFlight(c.h.trace)
    requires d.h.trace == c.h.trace + [e] && SamePlaces(c, d)
    ensures Flying(d)
  {
    Append(c.h.trace, e);
    ReturnsAppend(c.h.trace, e);
  }

  predicate SamePlaces(c: State, d: State) {
    && d.queue == c.queue && d.batch == c.batch && d.done == c.done
    && d.table == c.table && d.posted == c.posted
  }

  lemma AwaitsAloft(c: State, d: State, item: Item)
    requires Flying(c) && !item.stage.Writes() && d == AwaitReply(c, item)
    requires Unanswered(c.h.trace) && item.op.kind.Metered() ==> item.op.id in InFlight(c.h.trace)
    ensures Flying(d)
  {
    EvictsAloft(c, Evict(c, AwaitedCode(item.stage), item.op.pid), AwaitedCode(item.stage), item.op.pid);
  }

  lemma EvictsAloft(c: State, d: State, code: Code, pid: nat)
    requires Flying(c) && d == Evict(c, code, pid)
    ensures Flying(d) && d.h == c.h && d.queue == c.queue && d.batch == c.batch && d.done == c.done
  {
    var i := FindWaiter(c.table, code, pid);
    if i < |c.table| { WaiterIdsWithout(c.table, i); }
  }

  /** An operation ends that is in no collection. */
  lemma RetiresAloft(c: State, d: State, op: Op, ending: Ending)
    requires Flying(c) && Nowhere(c, op.id)
    requires d.h.trace == c.h.trace + [Finished(op.id, ending, op.kind)] && SamePlaces(c, d)
    ensures Flying(d)
  {
    Append(c.h.trace, Finished(op.id, ending, op.kind));
    ReturnsAppend(c.h.trace, Finished(op.id, ending, op.kind));
  }

  /** A span begins. */
  lemma EpochAloft(c: State, d: State)
    requires d.h.trace == c.h.trace + [EpochEvent(c)] && d.posted == c.posted
    requires d.queue == [] && d.table == [] && d.batch == [] && d.done == []
    ensures Flying(d)
  {
    Append(c.h.trace, EpochEvent(c));
    ReturnsAppend(c.h.trace, EpochEvent(c));
  }
}
