/**
 A run from the beginning that breaks the promise of exactly once. The broker
 refuses a PUBLISH, and the connection breaks with the refusal already buffered
 by the reader, or the reader notices an earlier reconnect late; either way the
 PUBLISH is sent again before the refusal is read. The client then acts on the
 refusal while the second copy is on its way.
 */
module LateRefusal {
  import opened Requests
  import opened Client
  import opened SerialOrder
  import opened Broker
  import opened Exchange
  import opened ExactlyOnce
  import opened Scenes
  import opened Reuse

  ghost predicate Safe(w: World) { Healthy(w) && Way(Beginning, w) }

  lemma Safely(w: World, s: WorldStep, v: World)
    requires Safe(w) && Feasible(w, s) && !s.Read? && s != Act(PostedStep) && v == After(w, s)
    ensures Safe(v)
  {
    WorldStepKeeps(w, s, v);
    OnwardAny(Beginning, w, s, v);
  }

  const A := Op(0, Qos2, 1, 1)

  lemma FirstId()
    ensures LeastFreeFrom({}, 1) == 1
  {
  }

  /** The message has been sent. */
  ghost function Sent(): State { AfterTold(AfterPublish(Initial, A), A, false) }

  lemma TellsSafely(w: World, dup: bool)
    requires Safe(w) && w.c.queue == [] && w.c.done == [] && w.c.fast == [] && w.c.table == []
    requires w.c.batch == [Sending(A, dup)]
    ensures Safe(w.(c := AfterTold(w.c, A, dup)))
  {
    IsTold(w.c, A, dup);
    var u := w.(c := Next(w.c, WriteOkStep));
    Safely(w, Act(WriteOkStep), u);
    Safely(u, Act(TellNextStep), w.(c := AfterTold(w.c, A, dup)));
  }

  lemma SendsFirst()
    ensures Safe(World(Sent(), Beginning.n))
  {
    NoWay(Beginning);
    BeginningHolds(Beginning);
    FirstId();
    Publishes(Initial, A);
    var w := World(AfterPublish(Initial, A), Beginning.n);
    Safely(Beginning, Act(PublishStep(Qos2, Valid)), w);
    TellsSafely(w, false);
  }

  const First := HandedEvent(Sending(A, false))

  /** The broker has refused it. */
  ghost const Refusing :=
    Net([Started(0), First], [Reply(Pubrec, 1, Failure, 0, 1, 0)], Session({}, []), map[], Everything)

  lemma RefusesFirst()
    ensures Safe(World(Sent(), Refusing))
  {
    SendsFirst();
    var c, n := Sent(), Beginning.n;
    assert c.h.trace == [Started(0), First, Told(0, PublishPacket), Written(0)];
    var m := n.(past := [Started(0)]);
    assert Served(n, Started(0), false) == m;
    Safely(World(c, n), Serve(false), World(c, m));
    assert Served(m, First, false) == Refusing;
    Safely(World(c, m), Serve(false), World(c, Refusing));
  }

  ghost function AfterResend(c: State, op: Op): State {
    c.(writing := true, batch := [Sending(op, true)], table := [], quota := MAX_LIMIT, fast := [],
       h := c.h.(trace := c.h.trace + [EpochEvent(c), HandedEvent(Sending(op, true))]))
  }

  lemma Resends(c: State, op: Op)
    requires Idle(c) && c.table == [Expecting(op, false)] && op.kind.Qos2? && op.id !in c.cancelled
    ensures WaitersFit(c.table) && RequestsFit(c.queue) && Resend(c, MAX_LIMIT) == AfterResend(c, op)
  {
    var r := Sending(op, true);
    var c1 := Log(c, EpochEvent(c)).(writing := true, limit := MAX_LIMIT, quota := MAX_LIMIT,
                                     queue := [], table := []);
    var c2 := c1.(queue := [r]);
    assert c.table[1..] == [] && c.queue == [];
    assert OnResend(c1, c.table[0].item) == c2;
    assert ResendWaiters(c1, c.table) == ResendWaiters(c2, []) == c2;
    assert [r][..0] == [];
    assert StableSort([r]) == [r];
    var c3 := c2.(writing := false);
    SentAlone(c3, r);
    assert c3.h.trace + [HandedEvent(r)] == AfterResend(c, op).h.trace;
  }

  /** It has been sent again, and the reply to the first copy has not been read. */
  ghost function SentTwice(): State { AfterTold(AfterResend(Sent(), A), A, true) }

  lemma SendsAgain()
    ensures Safe(World(SentTwice(), Refusing))
  {
    RefusesFirst();
    var c := Sent();
    assert [] + [Expecting(A, false)] == c.table;
    Resends(c, A);
    var w := World(AfterResend(c, A), Refusing);
    Safely(World(c, Refusing), Act(ReadAgainStep(true, MAX_LIMIT)), w);
    TellsSafely(w, true);
  }

  lemma SecondCopy()
    ensures var t := SentTwice().h.trace; |t| > 5 && t[5] == HandedEvent(Sending(A, true))
    ensures SentTwice().table == [Expecting(A, true)] && SentTwice().done == []
  {
    assert Sent().h.trace == [Started(0), First, Told(0, PublishPacket), Written(0)];
  }

  /** So exactly once is false without the care taken in `ExactlyOnce.Possible`: a
      message is accepted, and the broker, which has already dealt with its
      PUBLISH, never forwarded it. */
  lemma AcceptedButNeverForwarded() returns (w: World, id: nat)
    ensures Way(Beginning, w) && Stranded(w, id)
  {
    SendsAgain();
    SecondCopy();
    var u := World(SentTwice(), Refusing);
    assert FindWaiter(u.c.table, Pubrec, 1) == 0;
    assert !ReadsLast(u);
    OnwardAny(Beginning, u, Read, After(u, Read));
    var p;
    w, id, p := CareIsNeeded(u, Read);
    var steps :| Leading(After(u, Read), steps, w) && AllLenient(steps);
    Joined(Beginning, After(u, Read), steps, w);
  }
}
