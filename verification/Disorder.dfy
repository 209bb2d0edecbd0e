/**
 How the order of transmissions can be broken. A malformed PUBACK makes the client
 hand its PUBLISH to the transport again, behind a DISCONNECT and behind the PUBLISH
 of a later call, with no resend in between.
 */
module Disorder {
  import opened Requests
  import opened Client
  import opened Runs
  import opened Theorems
  import opened Scenes
  import opened Surplus

  const Second := Op(1, Qos1, 2, 2)

  /** Two messages have been sent, and neither has been acknowledged. */
  function Both(): State { AfterTold(AfterPublish(Waiting(), Second), Second, false) }

  lemma SendsOneMore(c: State)
    requires c == Waiting()
    ensures Reachable(AfterPublish(c, Second)) && WellShaped(AfterPublish(c, Second))
  {
    Waits();
    assert LeastFreeFrom({1}, 2) == 2 == LeastFreeFrom({1}, 1);
    assert {} + {1} == {1} == c.inUse;
    Publishes(c, Second);
    ReachesNext(c, PublishStep(Qos1, Valid));
  }

  lemma OneWaits(c: State)
    requires c == Waiting()
    ensures Idle(c) && c.h.next == 1 && c.table == [Expecting(A, false)] && FindWaiter(c.table, Puback, 2) == 1
  {
    assert c.table == [Expecting(A, false)] && c.table[1..] == [];
  }

  lemma SendsBoth()
    ensures Reachable(Both()) && WellShaped(Both()) && Idle(Both())
    ensures Both().table == [Expecting(A, false), Expecting(Second, false)] && Both().h.next == 2
  {
    var c := Waiting();
    SendsOneMore(c);
    OneWaits(c);
    ReachesTold(AfterPublish(c, Second), Second);
  }

  const Garbled := Reply(Puback, 1, Malformed, 0, 0, 0)
  const Parting := PlainRequest(Item(Op(2, Disconnect(false), 0, 0), OnDisconnect, false))

  /** What the client records when it has read a malformed PUBACK. */
  function Complaints(n: nat): seq<Event> {
    [Answered(0, n, Puback, Malformed), Returned(0), Started(2), HandedEvent(Parting)]
  }

  lemma Partings(c: State, d: State)
    requires !c.writing && c.queue == [Parting] && d == Pump(c)
    ensures d.writing && d.batch == [Parting] && d.queue == [] && d.limit == c.limit && d.done == c.done
    ensures d.cancelled == c.cancelled && d.h == c.h.(trace := c.h.trace + [HandedEvent(Parting)])
  {
    assert FirstTerminal(c.queue) == 0 && Without(c.queue, 0) == [];
    OneEvent(Parting);
  }

  lemma ReadsGarbled(c: State, d: State)
    requires Idle(c) && WaitersFit(c.table) && c.table == [Expecting(A, false), Expecting(Second, false)]
    requires c.cancelled == {} && c.h.next == 2 && d == ReadReply(c, Garbled)
    ensures d.batch == [Parting] && d.queue == [Sending(A, true)] && d.done == [] && d.limit == MAX_LIMIT
    ensures d.h.trace == c.h.trace + Complaints(|c.h.trace|)
  {
    assert FindWaiter(c.table, Puback, 1) == 0;
    var c1 := Log(c.(table := Without(c.table, 0)), Answered(0, |c.h.trace|, Puback, Malformed));
    var c2 := Admit(Log(c1, Returned(0)), Disconnect(false), 0, 0).(queue := [Parting]);
    assert [] + [Parting] == [Parting];
    assert Malform(c1, A) == Pump(c2);
    Partings(c2, Pump(c2));
    assert c2.h.trace + [HandedEvent(Parting)] == c.h.trace + Complaints(|c.h.trace|);
    assert [] + [Sending(A, true)] == [Sending(A, true)];
  }

  const SentAfterAll :=
    [Told(2, OtherPacket), Finished(2, Completed, Disconnect(false)), HandedEvent(Sending(A, true))]

  /** The DISCONNECT has been written, and the PUBLISH goes out again. */
  lemma SendsAgain(c: State, d: State)
    requires c.batch == [Parting] && c.queue == [Sending(A, true)] && c.done == [] && c.limit == MAX_LIMIT
    requires d == c.(done := c.batch, batch := [], writing := false)
    ensures TellNext(d).h.trace
         == c.h.trace + SentAfterAll
  {
    assert d.done[1..] == [];
    var e := Retire(Log(d.(done := []), Told(2, OtherPacket)), Parting.item.op, Completed);
    assert TellNext(d) == Pump(e);
    SentAlone(e, Sending(A, true));
    assert e.h.trace + [HandedEvent(Sending(A, true))] == c.h.trace + SentAfterAll;
  }

  lemma Events(t: seq<Event>, u: seq<Event>)
    requires t == Both().h.trace
    requires u == t + Complaints(|t|) + SentAfterAll
    ensures |u| == 15 && u[5] == HandedEvent(Sending(Second, false)) && u[14] == HandedEvent(Sending(A, true))
    ensures forall k :: 0 <= k < |u| ==> !u[k].Epoch?
  {
    assert t == [Started(0), HandedEvent(Sending(A, false)), Told(0, PublishPacket), Written(0),
                 Started(1), HandedEvent(Sending(Second, false)), Told(1, PublishPacket), Written(1)];
  }

  lemma {:induction false} FirstSpan(t: seq<Event>)
    requires forall k :: 0 <= k < |t| ==> !t[k].Epoch?
    ensures Near(t) && Unanswered(t)
  {
    if t != [] { FirstSpan(t[..|t| - 1]); }
  }

  lemma ReachesDisorder() returns (c: State)
    ensures Reachable(c)
    ensures var t := Both().h.trace;
      c.h.trace == t + Complaints(|t|) + SentAfterAll
  {
    SendsBoth();
    var b := Both();
    var d := ReadReply(b, Garbled);
    ReadsGarbled(b, d);
    ReachesNext(b, ReadReplyStep(Garbled));
    var e := d.(done := d.batch, batch := [], writing := false);
    ReachesNext(d, WriteOkStep);
    SendsAgain(d, e);
    ReachesNext(e, TellNextStep);
    c := TellNext(e);
  }

  /** A reachable state in which the first message was sent after the second. */
  lemma SentOutOfOrder() returns (c: State, i: nat, j: nat)
    ensures Reachable(c) && Near(c.h.trace) && Unanswered(c.h.trace) && OutOfTurn(c.h.trace, i, j)
  {
    c := ReachesDisorder();
    i, j := 5, 14;
    Events(Both().h.trace, c.h.trace);
    FirstSpan(c.h.trace);
  }
}
