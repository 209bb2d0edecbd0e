/**
 The books of the quota, in every state and whatever happened: the quota is what
 the run's events make of the limit, so what it lacks of the limit is what has
 been lent, up to the wraps of a 16-bit counter.
 */
module Ledger {
  import opened Requests
  import opened Client
  import opened Places
  import opened Runs
  import opened FlowControl
  import Seqs

  const QUOTA_MODULUS: nat := 0x1_0000

  ghost predicate Booked(c: State) {
    c.limit < 65535 ==> c.quota == Counter(c.h.trace, c.limit)
  }

  // ----- every move keeps the books

  lemma {:induction false} HandCounts(t: seq<Event>, limit: nat, s: seq<Request>)
    ensures Counter(t + HandedEvents(s), limit) == Counter(t, limit) - Throttles(s)
  {
    if s == [] {
      assert t + HandedEvents(s) == t;
    } else {
      var front, e := s[..|s| - 1], HandedEvent(s[|s| - 1]);
      HandCounts(t, limit, front);
      CounterAppend(t + HandedEvents(front), limit, e);
      Seqs.Assoc(t, HandedEvents(front), [e]);
    }
  }

  lemma BeginsBooked(c: State, taken: seq<Request>, left: seq<Request>, quota: nat)
    requires Booked(c) && (c.limit < MAX_LIMIT ==> quota + Throttles(taken) == c.quota)
    ensures Booked(Begin(c, taken, left, quota))
  {
    HandCounts(c.h.trace, c.limit, taken);
  }

  lemma PumpsBooked(c: State, d: State)
    requires Booked(c) && AllRequests(c.h.ops, c.queue) && d == Pump(c)
    ensures Booked(d)
  {
    if !c.writing && c.queue != [] {
      var t := FirstTerminal(c.queue);
      if t < |c.queue| {
        var r := c.queue[t];
        assert r in c.queue && RequestOk(c.h.ops, r);
        assert [r][..0] == [];
        assert Throttles([r]) == 0;
        BeginsBooked(c, [r], Without(c.queue, t), c.quota);
      } else if c.limit == MAX_LIMIT {
        BeginsBooked(c, c.queue, [], c.quota);
      } else {
        var share := Split(c.queue, c.quota);
        SplitSpends(c.queue, c.quota);
        if share.taken != [] { BeginsBooked(c, share.taken, share.left, share.quota); }
      }
    }
  }

  lemma LogsBooked(c: State, d: State, e: Event)
    requires Booked(c) && !e.Handed? && !e.Finished? && !e.Epoch?
    requires d.h.trace == c.h.trace + [e] && d.limit == c.limit && d.quota == c.quota
    ensures Booked(d)
  {
    CounterAppend(c.h.trace, c.limit, e);
  }

  /** An operation ends; a QoS 1 or QoS 2 one gives a share back. */
  lemma SettlesBooked(c: State, d: State, op: Op, ending: Ending)
    requires Booked(c) && d.h.trace == c.h.trace + [Finished(op.id, ending, op.kind)] && d.limit == c.limit
    requires op.kind.Metered() && c.limit != MAX_LIMIT ==>
      d.quota == if c.quota == MAX_LIMIT then 0 else c.quota + 1
    requires !op.kind.Metered() ==> d.quota == c.quota
    ensures Booked(d)
  {
    CounterAppend(c.h.trace, c.limit, Finished(op.id, ending, op.kind));
  }

  lemma EpochBooked(c: State, e: Event, d: State)
    requires e.Epoch? && d.h.trace == c.h.trace + [e] && d.quota == d.limit
    ensures Booked(d)
  {
    CounterAppend(c.h.trace, d.limit, e);
  }

  // ----- what the books say

  /** The counter is the limit less what was lent, having wrapped `wraps` times. */
  lemma {:induction false} CounterIsLimitLessLent(t: seq<Event>, limit: nat) returns (wraps: nat)
    ensures Counter(t, limit) + QUOTA_MODULUS * wraps == limit - Lent(t)
  {
    if t == [] {
      wraps := 0;
    } else {
      var n := |t| - 1;
      wraps := CounterIsLimitLessLent(t[..n], limit);
      var e := t[n];
      if e.Epoch? {
        wraps := 0;
      } else if e.Finished? && e.kind.Metered() && Counter(t[..n], limit) == MAX_LIMIT {
        wraps := wraps + 1;
      }
    }
  }

  /** What was lent is what flies, but for the drift. */
  lemma {:induction false} LentIsFlying(t: seq<Event>)
    ensures |InFlight(t)| == Lent(t) + Drift(t)
  {
    if t != [] {
      var s, e := InFlight(t[..|t| - 1]), t[|t| - 1];
      LentIsFlying(t[..|t| - 1]);
      if e.Handed? && e.throttled {
        assert e.id in s ==> s + {e.id} == s;
      } else if e.Finished? {
        assert e.id in s ==> s == (s - {e.id}) + {e.id};
        assert e.id !in s ==> s - {e.id} == s;
      }
    }
  }
}
