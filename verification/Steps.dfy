/**
 Every step keeps the invariant, so it holds in every reachable state.
 */
module Steps {
  import opened Requests
  import opened Client
  import opened Places
  import opened Runs
  import opened Soundness
  import opened Traffic
  import opened FlowControl
  import opened Flight
  import opened Ledger
  import opened Engine
  import opened Resending

  ghost predicate Invariant(c: State) {
    InPlace(c) && Sound(c, true)
  }

  // ----- a write in progress has a batch

  predicate Busy(c: State) {
    c.writing ==> c.batch != []
  }

  lemma BusyPump(c: State)
    ensures Busy(c) || !c.writing ==> Busy(Pump(c))
  {
  }

  lemma BusyComplete(c: State, op: Op, ending: Ending)
    requires Busy(c)
    ensures Busy(Complete(c, op, ending))
  {
    var c1 := Retire(c, op, ending);
    BusyPump(c1.(quota := if c1.quota == MAX_LIMIT then 0 else c1.quota + 1));
  }

  lemma BusySend(c: State, r: Request)
    requires Busy(c)
    ensures Busy(Send(c, r))
  {
    BusyPump(c.(queue := c.queue + [r]));
  }

  lemma BusyWritten(c: State, item: Item)
    requires Busy(c) && item.stage.Writes() && Fits(item)
    ensures Busy(OnWritten(c, item))
  {
    BusyComplete(c, item.op, Completed);
  }

  lemma BusyStartOver(c: State, item: Item)
    requires Busy(c) && !item.stage.Writes() && Fits(item)
    ensures Busy(OnResend(c, item))
  {
    BusyComplete(c, item.op, Failed);
  }

  lemma BusyAnswer(c: State, item: Item, reply: Reply)
    requires Busy(c) && !item.stage.Writes() && Fits(item)
    ensures Busy(OnAnswer(c, item, reply))
  {
    AnswerCases(c, item, reply);
    var c1 := Log(c, Answered(item.op.id, reply.readAt, reply.code, reply.verdict));
    if reply.verdict.Malformed? {
      BusyStartOver(Malform(c1, item.op), item);
    } else {
      BusyComplete(c1, item.op, EndingOf(reply.verdict));
    }
  }

  // ----- calls

  lemma {:induction false} LeastFree(taken: set<nat>, n: nat)
    ensures var x := LeastFreeFrom(taken, n);
      x == 0 || (n <= x <= MAX_PACKET_ID && x !in taken)
    decreases MAX_PACKET_ID + 1 - n
  {
    if n <= MAX_PACKET_ID && n in taken { LeastFree(taken, n + 1); }
  }

  lemma SerialTaken(c: State, d: State)
    requires Placed(c, multiset{}) && Sound(c, true) && d == NextSerial(c)
    ensures Placed(d, multiset{}) && Sound(d, true) && Newest(d.h, d.h.published)
  {
    Frame(c, d, multiset{});
    Unfold(c, true);
    SerialCounts(c.h, d.h, c.lastSerial, d.lastSerial);
    SerialChronicle(c, d);
    SerialFlow(c, d);
    SerialPhase(c.h, d.h);
    Fold(d, true);
  }

  lemma SerialCounts(h: History, k: History, last: nat, next: nat)
    requires Serials(h, last) && k == h.(published := h.published + 1) && next == (last + 1) % SERIAL_MODULUS
    ensures Serials(k, next) && Newest(k, k.published)
  {
    SerialWraps(h.published);
  }

  lemma SerialChronicle(c: State, d: State)
    requires Chronicle(c) && d == NextSerial(c)
    ensures Chronicle(d)
  {
  }

  lemma SerialFlow(c: State, d: State)
    requires Flow(c) && Booked(c) && Flying(c) && Ordering(c) && d == NextSerial(c)
    ensures Flow(d) && Booked(d) && Flying(d) && Ordering(d)
  {
  }

  lemma SerialPhase(h: History, k: History)
    requires InPhase(h) && k == h.(published := k.published)
    ensures InPhase(k)
  {
  }

  lemma SerialWraps(n: nat)
    ensures (n % SERIAL_MODULUS + 1) % SERIAL_MODULUS == (n + 1) % SERIAL_MODULUS
  {
  }

  /** A packet of a call just made comes after everything handed over or queued. */
  lemma LatestInTurn(c: State, d: State, r: Request)
    requires Known(c.h.trace, c.h) && Shaped(c) && IdsOk(c.h, c.inUse)
    requires d.queue == c.queue && Transmissions(d.h.trace) == Transmissions(c.h.trace)
    requires r.item.op.id == c.h.next && !r.item.stage.OnPubrel?
    ensures InTurn(d, r)
  {
    EarlierRanks(c);
  }

  /** An operation is admitted and its first packet joins the queue. */
  lemma CallStep(c: State, d: State, kind: Kind, pid: nat, seqno: nat, r: Request, stage: Stage)
    requires Placed(c, multiset{}) && Sound(c, true) && Busy(c)
    requires stage.Writes() && !Progressed(stage) && StageFits(kind, stage)
    requires kind.Bearing() ==> 1 <= pid <= MAX_PACKET_ID && pid !in c.inUse
    requires kind.Publishes() ==> Newest(c.h, seqno)
    requires r.item == Item(Op(c.h.next, kind, pid, seqno), stage, false)
    requires r == if stage.OnPublish? then PublishRequest(r.item) else PlainRequest(r.item)
    requires d == Send(Admit(c, kind, pid, seqno), r)
    ensures Invariant(d)
  {
    Unfold(c, true);
    var c1 := Admit(c, kind, pid, seqno);
    AdmitStep(c, c1, multiset{}, kind, pid, seqno, stage, true);
    LatestInTurn(c, c1, r);
    SendStep(c1, d, multiset{}, r, true);
    Sends(c1, multiset{}, r);
    BusySend(c1, r);
  }

  lemma PublishCallStep(c: State, d: State, kind: Kind, check: Check)
    requires Invariant(c) && kind.Publishes() && d == CallPublish(c, kind, check)
    ensures Invariant(d)
  {
    var pid := if kind.Qos0? then 0 else LeastFreeFrom(c.inUse, 1);
    LeastFree(c.inUse, 1);
    if !((!kind.Qos0? && pid == 0) || check.Invalid?) {
      var c1 := NextSerial(c);
      SerialTaken(c, c1);
      if !check.TooLarge? {
        var item := Item(Op(c.h.next, kind, pid, c1.h.published), OnPublish, false);
        CallStep(c1, d, kind, pid, c1.h.published, PublishRequest(item), OnPublish);
      }
    }
  }

  lemma OtherCallStep(c: State, d: State, kind: Kind, pid: nat, stage: Stage)
    requires Invariant(c) && stage.Writes() && !Progressed(stage) && StageFits(kind, stage)
    requires !stage.OnPublish?
    requires kind.Bearing() ==> 1 <= pid <= MAX_PACKET_ID && pid !in c.inUse
    requires d == Send(Admit(c, kind, pid, 0), PlainRequest(Item(Op(c.h.next, kind, pid, 0), stage, false)))
    ensures Invariant(d)
  {
    CallStep(c, d, kind, pid, 0, PlainRequest(Item(Op(c.h.next, kind, pid, 0), stage, false)), stage);
  }

  lemma SubscribeCallStep(c: State, d: State, check: Check)
    requires Invariant(c) && d == CallSubscribe(c, check)
    ensures Invariant(d)
  {
    var pid := LeastFreeFrom(c.inUse, 1);
    LeastFree(c.inUse, 1);
    if pid != 0 && check.Valid? { OtherCallStep(c, d, Subscribe, pid, OnSubscribe); }
  }

  lemma CallingStep(c: State, s: Step)
    requires Invariant(c) && WellShaped(c) && Enabled(c, s)
    requires s.PublishStep? || s.SubscribeStep? || s.OtherStep? || s.ReceiveStep?
    ensures Invariant(Next(c, s))
  {
    var d := Next(c, s);
    match s
    case PublishStep(kind, check) => PublishCallStep(c, d, kind, check);
    case SubscribeStep(check) => SubscribeCallStep(c, d, check);
    case OtherStep(kind) => OtherCallStep(c, d, kind, 0, if kind.OneShot? then OnOneShot else OnDisconnect);
    case ReceiveStep(kind, pid) => OtherCallStep(c, d, kind, pid, if kind.qos2 then OnRecPubrec else OnRecPuback);
  }

  // ----- writes

  lemma WriteOkKeeps(c: State, d: State)
    requires Invariant(c) && c.done == [] && d == c.(done := c.batch, batch := [], writing := false)
    ensures Invariant(d)
  {
    Unfold(c, true);
    assert RequestIds([]) == [];
    assert Census(d) == Census(c);
  }

  lemma TellNextKeeps(c: State, d: State)
    requires Invariant(c) && c.done != [] && RequestsFit(c.done) && d == TellNext(c)
    ensures Invariant(d)
  {
    var r := c.done[0];
    assert r in c.done;
    assert RequestOk(c.h.ops, r);
    var c0 := Telling(c);
    TellingOne(c, c0, r);
    var c1 := OnWritten(c0, r.item);
    assert multiset{} + multiset{r.item.op.id} == multiset{r.item.op.id};
    Writes(c0, c1, multiset{}, r.item);
    WrittenStep(c0, c1, multiset{}, r.item, true);
    BusyWritten(c0, r.item);
    Pumps(c1, multiset{});
    PumpStep(c1, Pump(c1), multiset{}, true);
    BusyPump(c1);
  }

  lemma TellingOne(c: State, d: State, r: Request)
    requires Sound(c, true) && Placed(c, multiset{}) && c.done != [] && r == c.done[0] && d == Telling(c)
    ensures Sound(d, true) && Placed(d, multiset{} + multiset{r.item.op.id})
    ensures Facts(d.h.trace, r.item) && WasSent(d.h.trace, r.item.op.id) && Away(d, r.item)
  {
    var b, e := c.(done := c.done[1..]), Told(r.item.op.id, PacketOf(r.item.stage));
    assert r in c.done && RequestOk(c.h.ops, r);
    HeadRequest(c.done);
    assert Census(b) + multiset{r.item.op.id} == Census(c);
    TakenOut(c, b, r);
    LogStep(b, d, multiset{} + multiset{r.item.op.id}, e, true);
    GrowFacts(b.h.trace, e, r.item);
    GrowSent(b.h.trace, e, r.item.op.id);
  }

  lemma TakenOut(c: State, b: State, r: Request)
    requires Sound(c, true) && c.done != [] && r == c.done[0] && b == c.(done := c.done[1..])
    ensures Sound(b, true) && Facts(b.h.trace, r.item) && WasSent(b.h.trace, r.item.op.id) && Away(b, r.item)
  {
    Unfold(c, true);
    assert r in c.done;
    Fold(b, true);
  }

  lemma TidyThroughComplete(c: State, op: Op, ending: Ending)
    ensures Tidy(Complete(c, op, ending).h.trace) == Tidy(c.h.trace)
  {
    CompleteIsSettledPump(c, op, ending);
    var c1 := Settled(c, op, ending);
    Append(c.h.trace, Finished(op.id, ending, op.kind));
    assert c1.h.trace == c.h.trace + [Finished(op.id, ending, op.kind)];
    var d := Pump(c1);
    if d.h.trace != c1.h.trace {
      HandInFlight(c1.h.trace, d.batch);
    }
  }

  lemma {:induction false} AbortAllStep(c: State, s: seq<Request>)
    requires Holding(c, [], s)
    requires Sound(c, true) && !Tidy(c.h.trace) && Busy(c)
    ensures var d := AbortAll(c, s); Placed(d, multiset{}) && Sound(d, true) && Busy(d)
    decreases |s|
  {
    NoWaiters();
    if s != [] {
      var r := s[0];
      assert r in s;
      assert RequestOk(c.h.ops, r);
      HeadRequest(s);
      var d := OnAbort(c, r.item);
      NextRequest(c, d, s);
      CompleteStep(c, d, multiset(RequestIds(s[1..])), r.item.op, Failed, true);
      TidyThroughComplete(c, r.item.op, Failed);
      BusyComplete(c, r.item.op, Failed);
      AbortAllStep(d, s[1..]);
    }
  }

  /** The batch is taken back from the transport. */
  lemma TakenBack(c: State, d: State)
    requires Placed(c, multiset{}) && Sound(c, true)
    requires d == c.(writing := false, batch := [])
    ensures Placed(d, multiset(RequestIds(c.batch))) && Sound(d, true) && KeptOk(d.h, c.batch)
  {
    assert RequestIds([]) == [];
    assert Census(d) + multiset(RequestIds(c.batch)) == Census(c);
    Unfold(c, true);
    EmptyBatch(c, d);
    Fold(d, true);
  }

  lemma EmptyBatch(c: State, d: State)
    requires Chronicle(c) && Flow(c) && Flying(c) && d == c.(writing := false, batch := [])
    ensures Chronicle(d) && Flow(d) && Flying(d)
  {
  }

  lemma WriteAbortKeeps(c: State, d: State)
    requires Invariant(c) && d == AbortAll(Log(c, Stopped).(writing := false, batch := []), c.batch)
    ensures Invariant(d)
  {
    var c1 := Log(c, Stopped);
    LogStep(c, c1, multiset{}, Stopped, true);
    var c2 := c1.(writing := false, batch := []);
    TakenBack(c1, c2);
    NoWaiters();
    AbortAllStep(c2, c.batch);
  }

  // ----- a new connection

  ghost predicate AllAway(t: seq<Event>, s: seq<Waiter>) {
    Tidy(t) || Unanswered(t) ==> AwayWaiters(t, s)
  }

  /** Waiters in the hands of the running code, with their facts. */
  ghost predicate HeldOk(h: History, s: seq<Waiter>) {
    AllWaiters(h.ops, s) && WaiterFacts(h.trace, s) && AllAway(h.trace, s)
  }

  ghost predicate KeptOk(h: History, s: seq<Request>) {
    AllRequests(h.ops, s) && RequestFacts(h.trace, s)
  }

  lemma KeepWaiter(b: State, w: Waiter)
    requires Sound(b, true) && Facts(b.h.trace, w.item) && Away(b, w.item)
    ensures Sound(b.(table := b.table + [w]), true)
  {
    Unfold(b, true);
  }

  lemma ClearedOthers(b: State, e: State, held: multiset<nat>, op: Op, s: seq<Waiter>, reqs: seq<Request>)
    requires Placed(b, held) && HeldOk(b.h, s) && KeptOk(b.h, reqs)
    requires held == multiset(WaiterIds(s)) + multiset(RequestIds(reqs)) + multiset{op.id}
    requires e == Retire(b, op, Failed)
    requires op.id in b.h.ops && b.h.ops[op.id] == op && !op.kind.Metered()
    ensures HeldOk(e.h, s) && KeptOk(e.h, reqs)
  {
    HeldWaiters(b, e, held, op.id, s);
    HeldRequests(b, e, held, op.id, reqs);
    GrowWaiters(b.h.trace, Finished(op.id, Failed, op.kind), s);
    GrowRequests(b.h.trace, Finished(op.id, Failed, op.kind), reqs);
    Append(b.h.trace, Finished(op.id, Failed, op.kind));
    ReturnsAppend(b.h.trace, Finished(op.id, Failed, op.kind));
    forall w | w in s && w.item.op.kind.Metered() ensures w.item.op.id != op.id {
      assert WaiterOk(b.h.ops, w);
    }
  }

  lemma ClearOne(b: State, e: State, rest: multiset<nat>, w: Waiter)
    requires Placed(b, rest + multiset{w.item.op.id}) && Sound(b, true) && WaiterOk(b.h.ops, w)
    requires w.code.Pubrel? && e == Retire(b, w.item.op, Failed)
    ensures Placed(e, rest) && Sound(e, true)
  {
    Retires(b, rest, w.item.op, Failed);
    RetireStep(b, e, rest, w.item.op, Failed, true);
  }

  lemma KeepOne(b: State, rest: multiset<nat>, w: Waiter)
    requires Placed(b, rest + multiset{w.item.op.id}) && Sound(b, true)
    requires WaiterOk(b.h.ops, w) && Facts(b.h.trace, w.item) && Away(b, w.item)
    ensures var e := b.(table := b.table + [w]); Placed(e, rest) && Sound(e, true)
  {
    Registers(b, rest, w);
    KeepWaiter(b, w);
  }

  lemma {:induction false} ClearStep(c: State, b: State, s: seq<Waiter>, kept: seq<Waiter>, reqs: seq<Request>)
    requires b == c.(table := kept)
    requires Placed(b, multiset(WaiterIds(s)) + multiset(RequestIds(reqs))) && Sound(b, true)
    requires HeldOk(c.h, s) && KeptOk(c.h, reqs)
    ensures var d := ClearPubrels(c, s, kept);
            Placed(d, multiset(RequestIds(reqs))) && Sound(d, true) && KeptOk(d.h, reqs)
    decreases |s|
  {
    if s == [] {
      assert WaiterIds(s) == [];
    } else {
      var w, id := s[0], s[0].item.op.id;
      assert w in s;
      HeadWaiter(s);
      var rest := multiset(WaiterIds(s[1..])) + multiset(RequestIds(reqs));
      assert multiset(WaiterIds(s)) + multiset(RequestIds(reqs)) == rest + multiset{id};
      if w.code.Pubrel? {
        var d, e := Retire(c, w.item.op, Failed), Retire(b, w.item.op, Failed);
        assert WaiterOk(b.h.ops, w);
        ClearOne(b, e, rest, w);
        ClearedOthers(b, e, rest + multiset{id}, w.item.op, s[1..], reqs);
        ClearStep(d, e, s[1..], kept, reqs);
      } else {
        KeepOne(b, rest, w);
        ClearStep(c, b.(table := kept + [w]), s[1..], kept + [w], reqs);
      }
    }
  }

  /** The table is emptied into the hands of the code that walks it. */
  lemma Emptied(c: State, b: State)
    requires Sound(c, true) && AllWaiters(c.h.ops, c.table) && b == c.(table := [])
    ensures Sound(b, true) && HeldOk(c.h, c.table)
  {
    Unfold(c, true);
    FewerTable(c, b);
    Fold(b, true);
  }

  lemma SessionStep(c: State, d: State, present: bool, reqs: seq<Request>)
    requires Placed(c, multiset(RequestIds(reqs))) && Sound(c, true) && KeptOk(c.h, reqs)
    requires d == UpdateSession(c, present)
    ensures Placed(d, multiset(RequestIds(reqs))) && Sound(d, true) && KeptOk(d.h, reqs)
  {
    if !present {
      var b := c.(table := []);
      assert WaiterIds([]) == [];
      assert Census(b) + multiset(WaiterIds(c.table)) == Census(c);
      Emptied(c, b);
      ClearStep(c, b, c.table, [], reqs);
    }
  }

  lemma PutInPlace(c: State, d: State, reqs: seq<Request>)
    requires Placed(c, multiset(RequestIds(reqs))) && KeptOk(c.h, reqs)
    requires d == c.(queue := reqs + c.queue)
    ensures Placed(d, multiset{})
  {
    RequestIdsConcat(reqs, c.queue);
    assert Census(d) == Census(c) + multiset(RequestIds(reqs));
  }

  lemma PutBack(c: State, d: State, reqs: seq<Request>)
    requires Placed(c, multiset(RequestIds(reqs))) && Chronicle(c) && KeptOk(c.h, reqs)
    requires d == c.(queue := reqs + c.queue)
    ensures Placed(d, multiset{}) && Chronicle(d)
  {
    PutInPlace(c, d, reqs);
  }

  lemma WriteAgainKeeps(c: State, present: bool, limit: nat)
    requires Invariant(c) && WellShaped(c) && Enabled(c, WriteAgainStep(present, limit))
    ensures Invariant(Next(c, WriteAgainStep(present, limit)))
  {
    var c0 := c.(writing := false, batch := []);
    TakenBack(c, c0);
    var c1 := UpdateSession(c0, present);
    SessionStep(c0, c1, present, c.batch);
    ShapeAfterSession(c0, present);
    var c2 := c1.(queue := c.batch + c1.queue);
    Unfold(c1, true);
    PutBack(c1, c2, c.batch);
    ResendStep(c2, limit);
  }

  lemma ReadAgainKeeps(c: State, present: bool, limit: nat)
    requires Invariant(c) && WellShaped(c) && Enabled(c, ReadAgainStep(present, limit))
    ensures Invariant(Next(c, ReadAgainStep(present, limit)))
  {
    var c1 := UpdateSession(c, present);
    assert RequestIds([]) == [];
    assert multiset(RequestIds([])) == multiset{};
    SessionStep(c, c1, present, []);
    ShapeAfterSession(c, present);
    if c1.writing {
      assert Resend(c1, limit) == c1;
    } else {
      Unfold(c1, true);
      ResendStep(c1, limit);
    }
  }

  // ----- replies

  lemma TakeWaiter(c: State, d: State, i: nat)
    requires Placed(c, multiset{}) && i < |c.table| && d == c.(table := Without(c.table, i))
    ensures Placed(d, multiset{} + multiset{c.table[i].item.op.id}) && Tracked(d.h.ops, c.table[i].item)
  {
    var w := c.table[i];
    assert w in c.table;
    assert WaiterOk(c.h.ops, w);
    WaiterIdsWithout(c.table, i);
    assert Census(d) + multiset{w.item.op.id} == Census(c);
  }

  lemma TakeWaiterSound(c: State, d: State, i: nat)
    requires Sound(c, true) && i < |c.table| && !c.table[i].item.stage.Writes()
    requires Fits(c.table[i].item) && d == c.(table := Without(c.table, i))
    ensures var item := c.table[i].item;
      && Sound(d, true) && Facts(d.h.trace, item) && Away(d, item)
      && SentBefore(d.h.trace, item.op.id, |d.h.trace|)
  {
    Unfold(c, true);
    var w := c.table[i];
    assert w in c.table;
    WaiterIdsWithout(c.table, i);
    SentInTime(c.h.trace, w.item.op.id, |c.h.trace|);
    FewerTable(c, d);
    Fold(d, true);
  }

  lemma FewerTable(c: State, d: State)
    requires Chronicle(c) && Flow(c) && Flying(c) && d == c.(table := d.table)
    requires forall w :: w in d.table ==> w in c.table
    ensures Chronicle(d) && Flow(d) && Flying(d)
  {
  }

  lemma ReadReplyKeeps(c: State, d: State, reply: Reply)
    requires Invariant(c) && WellShaped(c) && d == ReadReply(c, reply)
    ensures Invariant(d)
  {
    Unfold(c, true);
    var r := reply.(readAt := |c.h.trace|);
    var i := FindWaiter(c.table, r.code, r.pid);
    if i == |c.table| {
      assert d == c.(fast := c.fast + [r]);
      Frame(c, d, multiset{});
    } else {
      var item := c.table[i].item;
      var c1 := c.(table := Without(c.table, i));
      assert c.table[i] in c.table;
      TakeWaiter(c, c1, i);
      TakeWaiterSound(c, c1, i);
      Answers(c1, d, multiset{}, item, r);
      AnswerStep(c1, d, multiset{}, item, r, true);
      BusyAnswer(c1, item, r);
    }
  }

  lemma TakePosted(c: State, d: State)
    requires Placed(c, multiset{}) && c.posted != [] && d == c.(posted := c.posted[1..])
    ensures Placed(d, multiset{} + multiset{c.posted[0].item.op.id}) && Tracked(d.h.ops, c.posted[0].item)
  {
    var p := c.posted[0];
    assert p in c.posted;
    assert PostedOk(c.h.ops, p);
    assert PostedIds(c.posted) == [p.item.op.id] + PostedIds(c.posted[1..]);
    assert Census(d) + multiset{p.item.op.id} == Census(c);
  }

  lemma TakePostedSound(c: State, d: State)
    requires Sound(c, true) && c.posted != [] && d == c.(posted := c.posted[1..])
    ensures var p := c.posted[0];
      && Sound(d, true) && Facts(d.h.trace, p.item) && Over(d, p.item.op)
      && (p.outcome.Got? ==> Away(d, p.item))
      && (p.outcome.Got? ==> SentBefore(d.h.trace, p.item.op.id, p.outcome.reply.readAt))
  {
    Unfold(c, true);
    assert c.posted[0] in c.posted;
  }

  lemma RunPostedKeeps(c: State, d: State)
    requires Invariant(c) && WellShaped(c) && c.posted != [] && d == RunPosted(c)
    ensures Invariant(d)
  {
    var p := c.posted[0];
    assert p in c.posted;
    var c1 := c.(posted := c.posted[1..]);
    TakePosted(c, c1);
    TakePostedSound(c, c1);
    if p.outcome.Got? {
      Answers(c1, d, multiset{}, p.item, p.outcome.reply);
      AnswerStep(c1, d, multiset{}, p.item, p.outcome.reply, true);
      BusyAnswer(c1, p.item, p.outcome.reply);
    } else {
      CompletesOnly(c1, d, multiset{}, p.item.op, Failed);
      CompleteStep(c1, d, multiset{}, p.item.op, Failed, true);
      BusyComplete(c1, p.item.op, Failed);
    }
  }

  // ----- cancellation

  lemma CancelCensus(c: State, d: State)
    requires d == CancelAll(c)
    ensures Census(d) == Census(c)
  {
    assert RequestIds([]) == [] && WaiterIds([]) == [];
    assert PostedIds(d.posted)
        == PostedIds(c.posted) + WaiterIds(c.table) + RequestIds(c.queue);
  }

  lemma CancelShape(c: State, d: State)
    requires Shaped(c) && d == CancelAll(c)
    ensures Shaped(d)
  {
    forall p | p in d.posted ensures PostedOk(d.h.ops, p) {
      PostedFrom(c, p);
    }
  }

  /** Where the completions posted by a cancellation come from. */
  lemma PostedFrom(c: State, p: Posted)
    requires p in CancelAll(c).posted
    ensures p in c.posted
      || (p.outcome.Aborted? && ((exists w :: w in c.table && w.item == p.item)
                                 || (exists r :: r in c.queue && r.item == p.item)))
  {
    var a, b := AbortedWaiters(c.table), AbortedRequests(c.queue);
    if p in a {
      var i :| 0 <= i < |a| && a[i] == p;
      assert c.table[i] in c.table;
    } else if p in b {
      var i :| 0 <= i < |b| && b[i] == p;
      assert c.queue[i] in c.queue;
    }
  }

  lemma CancelSound(c: State, d: State)
    requires Placed(c, multiset{}) && Sound(c, true) && d == CancelAll(c)
    ensures Sound(d, true)
  {
    var c1 := Log(c, Stopped);
    LogStep(c, c1, multiset{}, Stopped, true);
    Unfold(c1, true);
    forall p | p in d.posted
      ensures Facts(d.h.trace, p.item) && (p.outcome.Got? ==> p in c.posted)
        && (p.outcome.Got? ==> SentBefore(d.h.trace, p.item.op.id, p.outcome.reply.readAt))
    {
      PostedFrom(c, p);
    }
    CancelledSound(c1, d);
    Fold(d, true);
  }

  lemma CancelledSound(c: State, d: State)
    requires AllSound(c, true) && !Tidy(c.h.trace) && PostedFacts(c.h.trace, d.posted)
    requires forall p :: p in d.posted && p.outcome.Got? ==> p in c.posted
    requires d == c.(table := [], queue := [], posted := d.posted)
    ensures AllSound(d, true)
  {
    assert Ranks([]) == [];
  }

  // ----- all steps

  lemma CancelAllKeeps(c: State, d: State)
    requires Invariant(c) && d == CancelAll(c)
    ensures Invariant(d)
  {
    CancelCensus(c, d);
    CancelShape(c, d);
    CancelSound(c, d);
  }

  lemma WellFormed(c: State)
    requires Invariant(c)
    ensures WellShaped(c)
  {
    ShapeFits(c);
  }

  /** The main lemma: every step of the client keeps the invariant. */
  lemma StepKeeps(c: State, s: Step)
    requires Invariant(c) && WellShaped(c) && Enabled(c, s)
    ensures Invariant(Next(c, s)) && WellShaped(Next(c, s))
  {
    var d := Next(c, s);
    match s {
      case PublishStep(kind, check) => CallingStep(c, s);
      case SubscribeStep(check) => CallingStep(c, s);
      case OtherStep(kind) => CallingStep(c, s);
      case ReceiveStep(kind, pid) => CallingStep(c, s);
      case ReceiveQos0Step(msg) => Noticed(c, d, Arrived(msg));
      case WriteOkStep => WriteOkKeeps(c, d);
      case TellNextStep => TellNextKeeps(c, d);
      case WriteAgainStep(present, limit) => WriteAgainKeeps(c, present, limit);
      case WriteAbortStep => WriteAbortKeeps(c, d);
      case ReadReplyStep(reply) => ReadReplyKeeps(c, d, reply);
      case ReadAgainStep(present, limit) => ReadAgainKeeps(c, present, limit);
      case PostedStep => RunPostedKeeps(c, d);
      case CancelOneStep(id) => Noticed(c, d, Dropped(id));
      case CancelAllStep => CancelAllKeeps(c, d);
    }
    WellFormed(d);
  }

  lemma Noticed(c: State, d: State, e: Event)
    requires Invariant(c) && (e.Arrived? || e.Dropped?)
    requires d == Log(c, e).(channel := d.channel, cancelled := d.cancelled)
    ensures Invariant(d)
  {
    LogStep(c, Log(c, e), multiset{}, e, true);
    Untouched(Log(c, e), d);
  }

  lemma Untouched(c: State, d: State)
    requires Invariant(c)
    requires d == c.(channel := d.channel, cancelled := d.cancelled)
    ensures Invariant(d)
  {
    Unfold(c, true);
    Frame(c, d, multiset{});
    SameChronicle(c, d);
  }

  lemma InitialHolds()
    ensures Invariant(Initial) && WellShaped(Initial)
  {
    assert RequestIds([]) == [] && WaiterIds([]) == [] && PostedIds([]) == [];
  }
}
