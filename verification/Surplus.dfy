/**
 How the Receive Maximum can be exceeded. An operation that is cancelled while it
 waits gives back, during the resend after a reconnect, a share of a quota that
 was just reset; a run from the initial state shows it for every limit, and with
 a limit of one the client then has two messages in flight.
 */
module Surplus {
  import opened Requests
  import opened Client
  import opened Runs
  import opened Theorems
  import opened Scenes

  lemma ReachesNext(c: State, s: Step)
    requires Reachable(c) && WellShaped(c) && Enabled(c, s)
    ensures Reachable(Next(c, s)) && WellShaped(Next(c, s))
  {
    var states, steps :| IsRun(states, steps) && c == states[|steps|];
    assert Comes(steps, c);
    RunsOn(steps, c, s, Next(c, s));
  }

  lemma BeginsReachable()
    ensures Reachable(Initial) && WellShaped(Initial)
  {
    RunsFrom();
  }

  const A := Op(0, Qos1, 1, 1)

  function Waiting(): State { AfterTold(AfterPublish(Initial, A), A, false) }

  lemma Waits()
    ensures Reachable(Waiting()) && WellShaped(Waiting())
  {
    BeginsReachable();
    assert LeastFreeFrom({}, 1) == 1;
    Publishes(Initial, A);
    ReachesNext(Initial, PublishStep(Qos1, Valid));
    var c := AfterPublish(Initial, A);
    ReachesTold(c, A);
  }

  /** The write of one PUBLISH succeeds and its handler is told. */
  lemma ReachesTold(c: State, op: Op)
    requires Reachable(c) && WellShaped(c) && c.batch == [Sending(op, false)] && op.kind.Metered()
    requires c.queue == [] && c.done == [] && c.fast == []
    requires FindWaiter(c.table, Replied(op), op.pid) == |c.table|
    ensures Reachable(AfterTold(c, op, false)) && WellShaped(AfterTold(c, op, false))
  {
    IsTold(c, op, false);
    ReachesNext(c, WriteOkStep);
    ReachesNext(Next(c, WriteOkStep), TellNextStep);
  }

  function Cancelled(): State { Log(Waiting(), Dropped(0)).(cancelled := {0}) }

  ghost function AfterSurplus(limit: nat): State {
    Cancelled().(limit := limit, quota := limit + 1, table := [], inUse := {},
      h := History(map[], map[], 1, 1, Cancelled().h.trace + [EpochEvent(Cancelled()), Finished(0, Failed, Qos1)]))
  }

  /** An operation cancelled before a resend leaves the quota one above the limit. */
  lemma CancelledDuringResend(limit: nat)
    requires limit < MAX_LIMIT
    ensures WaitersFit(Cancelled().table) && RequestsFit(Cancelled().queue)
    ensures Resend(Cancelled(), limit) == AfterSurplus(limit)
  {
    var c := Cancelled();
    var c1 := Log(c, EpochEvent(c)).(writing := true, limit := limit, quota := limit,
                                     queue := [], table := []);
    var c2 := Complete(c1, A, Failed);
    assert c.table == [Expecting(A, false)] && c.table[1..] == [];
    assert OnResend(c1, c.table[0].item) == c2;
    assert ResendWaiters(c1, c.table) == ResendWaiters(c2, []) == c2;
    assert c2.h.ops == map[] && c2.h.owner == map[] && c2.inUse == {};
    assert c1.h.trace + [Finished(0, Failed, Qos1)] == AfterSurplus(limit).h.trace;
  }

  lemma SurplusEvents(limit: nat)
    ensures var t := AfterSurplus(limit).h.trace; InFlight(t) == {} && Drift(t) == 1
  {
    var t, e := Cancelled().h.trace, EpochEvent(Cancelled());
    LentAppend(t, e);
    LentAppend(t + [e], Finished(0, Failed, Qos1));
    assert t + [e] + [Finished(0, Failed, Qos1)] == AfterSurplus(limit).h.trace;
  }

  /** A run with that surplus, for every limit. */
  lemma QuotaBeyondLimit(limit: nat) returns (c: State)
    requires limit < MAX_LIMIT
    ensures Reachable(c) && c.limit == limit && c.quota == limit + 1
    ensures InFlight(c.h.trace) == {} && Drift(c.h.trace) == 1
    ensures c == AfterSurplus(limit) && WellShaped(c)
  {
    Waits();
    ReachesNext(Waiting(), CancelOneStep(0));
    assert {} + {0} == Cancelled().cancelled;
    CancelledDuringResend(limit);
    ReachesNext(Cancelled(), ReadAgainStep(true, limit));
    SurplusEvents(limit);
    c := AfterSurplus(limit);
  }

  // ----- two messages in flight at a Receive Maximum of one

  const B := Op(1, Qos1, 1, 2)
  const C := Op(2, Qos1, 2, 3)

  /** A throttled request that meets an idle sender is paid for and goes out alone. */
  lemma PaidAlone(c: State, r: Request)
    requires !c.writing && c.queue == [r] && !r.terminal && r.throttled && c.limit != MAX_LIMIT && c.quota > 0
    ensures Pump(c) == c.(writing := true, batch := [r], queue := [], fast := [], quota := c.quota - 1,
                          h := c.h.(trace := c.h.trace + [HandedEvent(r)]))
  {
    assert c.queue[1..] == [] && FirstTerminal(c.queue) == 1;
    assert Split(c.queue, c.quota) == Share([r], [], c.quota - 1);
    OneEvent(r);
  }

  ghost function FirstOut(): State { AfterPublish(AfterSurplus(1), B).(quota := 1) }

  lemma SendsFirst()
    ensures Reachable(FirstOut()) && WellShaped(FirstOut())
  {
    var c := QuotaBeyondLimit(1);
    assert LeastFreeFrom({}, 1) == 1;
    var r, c1 := Sending(B, false), NextSerial(c);
    var c2 := Admit(c1, Qos1, 1, 2).(queue := [r]);
    assert [] + [r] == [r];
    assert CallPublish(c, Qos1, Valid) == Pump(c2);
    PaidAlone(c2, r);
    assert c.h.trace + [Started(1)] + [HandedEvent(r)] == FirstOut().h.trace;
    ReachesNext(c, PublishStep(Qos1, Valid));
  }

  ghost function SecondQueued(): State {
    Admit(NextSerial(FirstOut()), Qos1, 2, 3).(queue := [Sending(C, false)])
  }

  lemma QueuesSecond()
    ensures Reachable(SecondQueued()) && WellShaped(SecondQueued())
  {
    SendsFirst();
    assert LeastFreeFrom({1}, 2) == 2 == LeastFreeFrom({1}, 1);
    assert {} + {1} == {1} == FirstOut().inUse;
    assert [] + [Sending(C, false)] == [Sending(C, false)];
    ReachesNext(FirstOut(), PublishStep(Qos1, Valid));
  }

  ghost function BothOut(): State {
    SecondQueued().(batch := [Sending(C, false)], queue := [], quota := 0, table := [Expecting(B, false)],
      h := SecondQueued().h.(trace := SecondQueued().h.trace + [Told(1, PublishPacket), Written(1), HandedEvent(Sending(C, false))]))
  }

  lemma SendsSecond()
    ensures Reachable(BothOut())
  {
    QueuesSecond();
    var c, r := SecondQueued(), Sending(C, false);
    var d := c.(done := c.batch, batch := [], writing := false);
    ReachesNext(c, WriteOkStep);
    assert d.done == [Sending(B, false)] && d.done[1..] == [];
    assert [] + [Expecting(B, false)] == [Expecting(B, false)];
    var e := c.(batch := [], writing := false, table := [Expecting(B, false)],
                h := c.h.(trace := c.h.trace + [Told(1, PublishPacket)] + [Written(1)]));
    assert TellNext(d) == Pump(e);
    PaidAlone(e, r);
    assert e.h.trace + [HandedEvent(r)] == BothOut().h.trace;
    ReachesNext(d, TellNextStep);
  }

  lemma BothFly()
    ensures InFlight(BothOut().h.trace) == {1, 2}
  {
    SurplusEvents(1);
    var t := AfterSurplus(1).h.trace;
    var e, f := HandedEvent(Sending(B, false)), HandedEvent(Sending(C, false));
    LentAppend(t, Started(1));
    LentAppend(t + [Started(1)], e);
    LentAppend(t + [Started(1)] + [e], Started(2));
    var told := Told(1, PublishPacket);
    LentAppend(t + [Started(1)] + [e] + [Started(2)], told);
    LentAppend(t + [Started(1)] + [e] + [Started(2)] + [told], Written(1));
    LentAppend(t + [Started(1)] + [e] + [Started(2)] + [told] + [Written(1)], f);
    assert BothOut().h.trace == t + [Started(1)] + [e] + [Started(2)] + [told] + [Written(1)] + [f];
  }

  /** So the Receive Maximum is not always kept. */
  lemma ReceiveMaximumExceeded() returns (c: State)
    ensures Reachable(c) && c.limit == 1 && |InFlight(c.h.trace)| == 2
  {
    c := BothOut();
    SendsSecond();
    BothFly();
  }
}
