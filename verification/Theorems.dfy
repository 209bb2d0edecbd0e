/**
 What holds of the client in every state of every run, stated over its events
 and its collections.
 */
module Theorems {
  import opened Requests
  import opened Client
  import opened Places
  import opened Runs
  import opened Ledger
  import opened Engine
  import opened Steps
  import Seqs

  ghost predicate Follows(c: State, s: Step, d: State) {
    WellShaped(c) && Enabled(c, s) && d == Next(c, s)
  }

  ghost predicate IsRun(states: seq<State>, steps: seq<Step>) {
    && |states| == |steps| + 1 && states[0] == Initial
    && forall i: nat :: i < |steps| ==> Follows(states[i], steps[i], states[i + 1])
  }

  ghost predicate Reachable(c: State) {
    exists states, steps :: IsRun(states, steps) && c == states[|steps|]
  }

  ghost predicate Sane(c: State) { Invariant(c) && WellShaped(c) }

  lemma RunKeeps(states: seq<State>, steps: seq<Step>, i: nat)
    requires IsRun(states, steps) && i <= |steps|
    ensures Sane(states[i])
  {
    InitialHolds();
    forall c, s, d | Sane(c) && Follows(c, s, d) ensures Sane(d) {
      StepKeeps(c, s);
    }
    Seqs.Throughout(c => Sane(c), (c, s, d) => Follows(c, s, d), states, steps, i);
  }

  lemma ReachableKeeps(c: State)
    requires Reachable(c)
    ensures Invariant(c) && WellShaped(c) && AllSound(c, true)
  {
    var states, steps :| IsRun(states, steps) && c == states[|steps|];
    RunKeeps(states, steps, |steps|);
    Unfold(c, true);
  }

  // ----- one place per operation

  /** Each operation that was started and has not ended is in exactly one of the
      client's collections, and nothing else is in any of them. */
  lemma OnePlace(c: State)
    requires Reachable(c)
    ensures Census(c) == multiset(Live(c.h.trace))
    ensures c.h.ops.Keys == Live(c.h.trace)
  {
    ReachableKeeps(c);
  }

  ghost predicate Bears(c: State, id: nat) {
    id in c.h.ops && c.h.ops[id].kind.Bearing()
  }

  /** The ids in use are those of the live operations that bear one, and no two
      operations share one. */
  lemma IdsAreDistinct(c: State)
    requires Reachable(c)
    ensures c.inUse == set id | id in c.h.ops && c.h.ops[id].kind.Bearing() :: c.h.ops[id].pid
    ensures forall a, b :: Bears(c, a) && Bears(c, b) && c.h.ops[a].pid == c.h.ops[b].pid ==> a == b
    ensures forall pid :: pid in c.inUse ==> 1 <= pid <= 65535
  {
    ReachableKeeps(c);
    var pids := set id | id in c.h.ops && c.h.ops[id].kind.Bearing() :: c.h.ops[id].pid;
    forall pid ensures pid in c.inUse <==> pid in pids {
      if pid in c.inUse {
        assert c.h.owner[pid] in c.h.ops;
      }
    }
  }

  /** When an operation with a packet id asks for its acknowledgement, nobody
      else is waiting for it: the branch that aborts an older waiter is for
      inbound QoS 2 deliveries only. */
  lemma NobodyElseWaits(c: State, held: multiset<nat>, item: Item)
    requires Placed(c, held + multiset{item.op.id}) && Tracked(c.h.ops, item)
    requires item.op.kind.Bearing() && !item.stage.Writes()
    ensures Evict(c, AwaitedCode(item.stage), item.op.pid) == c
  {
    var code, pid := AwaitedCode(item.stage), item.op.pid;
    var i := FindWaiter(c.table, code, pid);
    if i < |c.table| {
      var w := c.table[i];
      assert w in c.table;
      assert WaiterOk(c.h.ops, w);
      HeldIsNowhere(c, held + multiset{item.op.id}, item.op.id);
      assert w.item.op.kind.Bearing();
      assert false;
    }
  }

  /** The same for the handler that is told next in any reachable state. */
  lemma ToldAlone(c: State, stage: Stage)
    requires Reachable(c) && c.done != [] && c.done[0].item.op.kind.Bearing()
    requires !stage.Writes() && StageFits(c.done[0].item.op.kind, stage)
    ensures var d := c.(done := c.done[1..]);
            Evict(d, AwaitedCode(stage), c.done[0].item.op.pid) == d
  {
    ReachableKeeps(c);
    TakeTold(c);
    NobodyElseWaits(c.(done := c.done[1..]), multiset{}, c.done[0].item.(stage := stage));
  }

  lemma TakeTold(c: State)
    requires Placed(c, multiset{}) && c.done != []
    ensures Placed(c.(done := c.done[1..]), multiset{} + multiset{c.done[0].item.op.id})
    ensures Tracked(c.h.ops, c.done[0].item)
  {
    assert c.done[0] in c.done;
    assert RequestOk(c.h.ops, c.done[0]);
    HeadRequest(c.done);
    assert Census(c.(done := c.done[1..])) + multiset{c.done[0].item.op.id} == Census(c);
  }

  // ----- flow control

  lemma {:induction false} Pigeonhole(s: set<nat>, f: map<nat, nat>, n: nat)
    requires forall x :: x in s ==> x in f && 1 <= f[x] <= n
    requires forall x, y :: x in s && y in s && f[x] == f[y] ==> x == y
    ensures |s| <= n
  {
    if n == 0 {
      assert s == {};
    } else if x :| x in s && f[x] == n {
      Pigeonhole(s - {x}, f, n - 1);
    } else {
      Pigeonhole(s, f, n - 1);
    }
  }

  /** The law of the quota, in every reachable state: the quota and the operations
      in flight add up to the Receive Maximum and the drift, up to the wraps of the
      16-bit counter. */
  lemma QuotaLaw(c: State) returns (wraps: nat)
    requires Reachable(c) && c.limit < 65535
    ensures c.quota + QUOTA_MODULUS * wraps + |InFlight(c.h.trace)| == c.limit + Drift(c.h.trace)
    ensures c.quota < QUOTA_MODULUS
  {
    ReachableKeeps(c);
    wraps := CounterIsLimitLessLent(c.h.trace, c.limit);
    LentIsFlying(c.h.trace);
  }

  /** So Receive Maximum is exceeded by at most the drift, and quota and flying
      operations balance exactly when the drift is a number of full turns and the
      maximum is kept. */
  lemma BalanceExactly(c: State)
    requires Reachable(c) && c.limit < 65535
    ensures var flying, drift := |InFlight(c.h.trace)|, Drift(c.h.trace);
      && flying <= c.limit + drift
      && (c.quota + flying == c.limit <==> drift % QUOTA_MODULUS == 0 && flying <= c.limit)
      && (drift == 0 ==> c.quota + flying == c.limit)
  {
    var wraps := QuotaLaw(c);
    TurnsOf(c.quota, wraps, c.limit - |InFlight(c.h.trace)|, Drift(c.h.trace));
  }

  lemma TurnsOf(quota: nat, wraps: nat, room: int, drift: int)
    requires quota < QUOTA_MODULUS && room < QUOTA_MODULUS && quota + QUOTA_MODULUS * wraps == room + drift
    ensures quota == room <==> drift % QUOTA_MODULUS == 0 && room >= 0
    ensures drift == 0 ==> quota == room
  {
  }

  /** In a span without malformed acknowledgements and cancellations there is no
      drift: the quota and the operations in flight add up to the Receive Maximum,
      and giving a share back cannot wrap the counter. Whatever happens, no more
      operations are in flight than there are packet ids, which is the bound when
      nothing is counted. */
  lemma ReceiveMaximumIsKept(c: State)
    requires Reachable(c)
    ensures Tidy(c.h.trace) ==> Drift(c.h.trace) == 0
    ensures Tidy(c.h.trace) && c.limit < 65535 ==>
      && c.quota + |InFlight(c.h.trace)| == c.limit
      && |InFlight(c.h.trace)| <= c.limit
      && (InFlight(c.h.trace) != {} ==> c.quota + 1 <= c.limit < 65535)
    ensures |InFlight(c.h.trace)| <= 65535
    ensures forall id :: id in InFlight(c.h.trace) ==> id in c.h.ops && c.h.ops[id].kind.Metered()
  {
    ReachableKeeps(c);
    FlyingBound(c.h, c.inUse, InFlight(c.h.trace));
    if c.limit < 65535 { BalanceExactly(c); }
  }

  /** Operations with distinct packet ids are no more than there are packet ids. */
  lemma FlyingBound(h: History, inUse: set<nat>, flying: set<nat>)
    requires IdsOk(h, inUse)
    requires forall id :: id in flying ==> id in h.ops && h.ops[id].kind.Metered()
    ensures |flying| <= 65535
    ensures flying != {} ==> |flying| >= 1
  {
    var pids := map id | id in h.ops :: h.ops[id].pid;
    forall x, y | x in flying && y in flying && pids[x] == pids[y] ensures x == y {
      assert h.owner[pids[x]] == x;
    }
    Pigeonhole(flying, pids, 65535);
    if flying != {} {
      var x :| x in flying;
      assert flying == (flying - {x}) + {x};
    }
  }

  // ----- order

  /** No effective resend after this position. */
  ghost predicate InSpan(t: seq<Event>, i: nat) {
    forall k :: i < k < |t| ==> !t[k].Epoch?
  }

  /** A throttled packet since the last effective resend. */
  ghost predicate SentAt(t: seq<Event>, i: nat) {
    i < |t| && Throttled(t[i]) && InSpan(t, i)
  }

  /** Two throttled packets in the wrong order: PUBRELs go first, both kinds in the
      order of the publish calls, and each packet once. */
  ghost predicate OutOfTurn(t: seq<Event>, i: nat, j: nat) {
    i < j && SentAt(t, i) && SentAt(t, j) && !Before(RankOf(t[i]), RankOf(t[j]))
  }

  /** A throttled packet of an operation that was already in flight. */
  ghost predicate SentAgain(t: seq<Event>, j: nat) {
    SentAt(t, j) && t[j].id in InFlight(t[..j])
  }

  lemma SpanFront(t: seq<Event>, i: nat)
    requires t != [] && i < |t| - 1 && !t[|t| - 1].Epoch?
    ensures SentAt(t, i) <==> SentAt(t[..|t| - 1], i)
  {
    var front, n := t[..|t| - 1], |t| - 1;
    if InSpan(front, i) {
      forall k | i < k < |t| ensures !t[k].Epoch? {
        if k < n { assert front[k] == t[k]; }
      }
    }
    if InSpan(t, i) {
      forall k | i < k < n ensures !front[k].Epoch? { assert front[k] == t[k]; }
    }
  }

  lemma {:induction false} TransmittedAt(t: seq<Event>, i: nat)
    requires SentAt(t, i)
    ensures RankOf(t[i]) in Transmissions(t)
  {
    if i < |t| - 1 {
      SpanFront(t, i);
      TransmittedAt(t[..|t| - 1], i);
    }
  }

  lemma {:induction false} WhereTransmitted(t: seq<Event>, a: Rank) returns (i: nat)
    requires a in Transmissions(t)
    ensures SentAt(t, i) && RankOf(t[i]) == a
  {
    var front, n := t[..|t| - 1], |t| - 1;
    if a in Transmissions(front) {
      i := WhereTransmitted(front, a);
      SpanFront(t, i);
    } else {
      i := n;
    }
  }

  /** What `Orderly` says of the packets since the last effective resend. */
  lemma {:induction false} OrderlyMeans(t: seq<Event>)
    ensures Orderly(t) <==> forall i: nat, j: nat :: !OutOfTurn(t, i, j)
  {
    if t != [] {
      var front, n := t[..|t| - 1], |t| - 1;
      OrderlyMeans(front);
      if t[n].Epoch? {
        forall i: nat, j: nat ensures !OutOfTurn(t, i, j) {
          if i < j < |t| { assert !InSpan(t, i); }
        }
      } else {
        forall i: nat, j: nat | j < n ensures OutOfTurn(t, i, j) <==> OutOfTurn(front, i, j) {
          if i < j { SpanFront(t, i); SpanFront(t, j); }
        }
        LastInTurn(t);
      }
    }
  }

  lemma LastInTurn(t: seq<Event>)
    requires t != [] && !t[|t| - 1].Epoch?
    ensures var front, n := t[..|t| - 1], |t| - 1;
      (Throttled(t[n]) ==> AllBefore(Transmissions(front), RankOf(t[n]))) <==> forall i: nat :: !OutOfTurn(t, i, n)
  {
    var front, n := t[..|t| - 1], |t| - 1;
    if Throttled(t[n]) {
      forall a | a in Transmissions(front) && !Before(a, RankOf(t[n])) ensures exists i: nat :: OutOfTurn(t, i, n) {
        var i := WhereTransmitted(front, a);
        SpanFront(t, i);
        assert OutOfTurn(t, i, n);
      }
      forall i: nat | OutOfTurn(t, i, n) ensures !AllBefore(Transmissions(front), RankOf(t[n])) {
        SpanFront(t, i);
        TransmittedAt(front, i);
      }
    }
  }

  /** What `NoneRepeated` says. */
  lemma {:induction false} NoneRepeatedMeans(t: seq<Event>)
    ensures NoneRepeated(t) <==> forall j: nat :: !SentAgain(t, j)
  {
    if t != [] {
      var front, n := t[..|t| - 1], |t| - 1;
      NoneRepeatedMeans(front);
      if t[n].Epoch? {
        forall j: nat ensures !SentAgain(t, j) {
          if j < n { assert !InSpan(t, j); }
        }
      } else {
        forall j: nat | j < n ensures SentAgain(t, j) <==> SentAgain(front, j) {
          SpanFront(t, j);
          assert front[..j] == t[..j];
        }
        assert SentAgain(t, n) <==> Throttled(t[n]) && t[n].id in InFlight(front);
      }
    }
  }

  lemma {:induction false} FlyingWasSent(t: seq<Event>, id: nat) returns (i: nat)
    requires id in InFlight(t)
    ensures SentAt(t, i) && t[i].id == id
  {
    var front, n := t[..|t| - 1], |t| - 1;
    if Throttled(t[n]) && t[n].id == id {
      i := n;
    } else {
      i := FlyingWasSent(front, id);
      SpanFront(t, i);
    }
  }

  /** An operation in flight cannot be sent again in order. */
  lemma RepeatsOutOfTurn(t: seq<Event>, j: nat) returns (i: nat)
    requires ReleasesInTurn(t) && ReleasedForGood(t) && FewThrottled(t) && SentAgain(t, j)
    ensures OutOfTurn(t, i, j)
  {
    i := FlyingWasSent(t[..j], t[j].id);
    assert t[..j][i] == t[i];
    forall k | i < k < |t| ensures !t[k].Epoch? {
      if k < j { assert t[..j][k] == t[k]; }
    }
    assert t[..i] == t[..j][..i];
  }

  /** A packet that a malformed acknowledgement had put back. */
  ghost predicate PutBack(t: seq<Event>, j: nat) {
    SentAt(t, j) && t[j].id in Returns(t[..j])
  }

  lemma {:induction false} BackInTurnMeans(t: seq<Event>)
    ensures BackInTurn(t) <==> forall i: nat, j: nat :: !(OutOfTurn(t, i, j) && PutBack(t, j))
  {
    if t != [] {
      var front, n := t[..|t| - 1], |t| - 1;
      BackInTurnMeans(front);
      if t[n].Epoch? {
        forall i: nat, j: nat ensures !OutOfTurn(t, i, j) {
          if i < j < |t| { assert !InSpan(t, i); }
        }
      } else {
        forall i: nat, j: nat | j < n
          ensures OutOfTurn(t, i, j) && PutBack(t, j) <==> OutOfTurn(front, i, j) && PutBack(front, j)
        {
          if i < j {
            SpanFront(t, i);
            SpanFront(t, j);
            assert front[..j] == t[..j];
          }
        }
        LastInTurn(t);
        assert PutBack(t, n) <==> Throttled(t[n]) && t[n].id in Returns(front);
      }
    }
  }

  /** In a span that began with the serials in one window, the order is broken if and
      only if a packet that was put back comes behind one that it should precede. */
  lemma SentInOrder(c: State)
    requires Reachable(c) && Near(c.h.trace)
    ensures var t := c.h.trace;
      (exists i: nat, j: nat :: OutOfTurn(t, i, j)) <==> (exists i: nat, j: nat :: OutOfTurn(t, i, j) && PutBack(t, j))
  {
    ReachableKeeps(c);
    OrderlyMeans(c.h.trace);
    BackInTurnMeans(c.h.trace);
  }

  lemma {:induction false} NoneIsInTurn(t: seq<Event>)
    requires NoneReturned(t)
    ensures BackInTurn(t)
  {
    if t != [] && !t[|t| - 1].Epoch? { NoneIsInTurn(t[..|t| - 1]); }
  }

  /** The exact condition, if moreover no reply was posted to a QoS 1 or QoS 2
      operation when the span began: the order is broken if and only if something
      in flight was sent again. */
  lemma OrderExactly(c: State)
    requires Reachable(c) && Near(c.h.trace) && Unanswered(c.h.trace)
    ensures (exists i: nat, j: nat :: OutOfTurn(c.h.trace, i, j)) <==> (exists j: nat :: SentAgain(c.h.trace, j))
  {
    var t := c.h.trace;
    ReachableKeeps(c);
    OrderlyMeans(t);
    NoneRepeatedMeans(t);
    if NoneReturned(t) { NoneIsInTurn(t); }
    if j: nat :| SentAgain(t, j) {
      var i := RepeatsOutOfTurn(t, j);
    }
  }

  // ----- the properties of the run

  /** DUP, no PUBLISH after an accepted PUBREC and no PUBREL before it, no stale
      acknowledgement, one end, and no success of QoS 2 without an accepted PUBREC. */
  lemma RunsAreGood(c: State)
    requires Reachable(c)
    ensures DupIsHonest(c.h.trace)
    ensures ReleasedForGood(c.h.trace)
    ensures AnswersAreFresh(c.h.trace)
    ensures EndsOnce(c.h.trace)
    ensures SuccessIsEarned(c.h.trace)
    ensures ReleasesInTurn(c.h.trace)
  {
    ReachableKeeps(c);
  }
}
