/**
 Nothing lies idle. In every run, when no write is in progress and none is being
 told, whatever is still in the write queue waits for quota: either the queue is
 empty, or the broker has set a limit, the quota is spent, and every queued request
 is throttled. The one exception is after a write that failed for good, until the
 next write begins.
 */
module Progress {
  import opened Requests
  import opened Client
  import opened SerialOrder
  import opened Engine
  import opened Theorems
  import Seqs

  /** Nothing has been handed over since everything was cancelled. */
  predicate Paused(t: seq<Event>) {
    if t == [] then false else PausedAfter(Paused(t[..|t| - 1]), t[|t| - 1])
  }

  predicate PausedAfter(before: bool, e: Event) {
    if e.Stopped? then true else if e.Handed? then false else before
  }

  lemma PausedAppend(t: seq<Event>, e: Event)
    ensures Paused(t + [e]) == PausedAfter(Paused(t), e)
  {
    assert (t + [e])[..|t|] == t;
  }

  /** A write is in progress, or there is nothing to write. */
  predicate Drained(c: State) { c.writing || Pump(c) == c }

  predicate Going(c: State) { Paused(c.h.trace) || Drained(c) }

  /** What can be written is being written. */
  predicate Flowing(c: State) { c.done == [] ==> Going(c) }

  lemma PumpDrains(c: State)
    ensures Drained(Pump(c))
  {
  }

  lemma SendGoes(c: State, r: Request)
    ensures Drained(Send(c, r))
  {
    PumpDrains(c.(queue := c.queue + [r]));
  }

  /** The parts that decide what can be written. */
  predicate SameWork(c: State, d: State) {
    d.writing == c.writing && d.queue == c.queue && d.quota == c.quota && d.limit == c.limit
  }

  lemma WorkGoes(c: State, d: State)
    requires SameWork(c, d) && Drained(c)
    ensures Drained(d)
  {
    if !c.writing && c.queue != [] { assert Pump(c) == c; }
  }

  lemma LogGoes(c: State, d: State, e: Event)
    requires Going(c) && SameWork(c, d) && d.h.trace == c.h.trace + [e] && !e.Handed?
    ensures Going(d)
  {
    PausedAppend(c.h.trace, e);
    if Drained(c) { WorkGoes(c, d); }
  }

  lemma CompleteGoes(c: State, d: State, op: Op, ending: Ending)
    requires Going(c) && d == Complete(c, op, ending)
    ensures Going(d)
  {
    var c1 := Retire(c, op, ending);
    LogGoes(c, c1, Finished(op.id, ending, op.kind));
    PumpDrains(c1.(quota := if c1.quota == MAX_LIMIT then 0 else c1.quota + 1));
  }

  lemma AwaitGoes(c: State, d: State, item: Item)
    requires Going(c) && !item.stage.Writes() && d == AwaitReply(c, item)
    ensures Going(d)
  {
    assert SameWork(c, d) && d.h.trace == c.h.trace;
    if Drained(c) { WorkGoes(c, d); }
  }

  lemma StartOverGoes(c: State, d: State, item: Item)
    requires Going(c) && !item.stage.Writes() && Fits(item) && d == OnResend(c, item)
    ensures Going(d)
  {
    if item.stage.OnRecPubrel? {
      AwaitGoes(c, d, item);
    } else if item.op.id in c.cancelled && !item.stage.OnPubcomp? {
      CompleteGoes(c, d, item.op, Failed);
    } else {
      SendGoes(c, PublishRequest(item.(dup := true, stage := OnPublish)));
      SendGoes(c, PubrelRequest(item.(stage := OnPubrel), true));
      SendGoes(c, PlainRequest(item.(stage := OnSubscribe)));
    }
  }

  lemma AnswerGoes(c: State, d: State, item: Item, reply: Reply)
    requires Going(c) && !item.stage.Writes() && Fits(item) && d == OnAnswer(c, item, reply)
    ensures Going(d)
  {
    var e := Answered(item.op.id, reply.readAt, reply.code, reply.verdict);
    var c1 := Log(c, e);
    LogGoes(c, c1, e);
    AnswerCases(c, item, reply);
    if reply.verdict.Malformed? {
      var c2 := Admit(Log(c1, Complaint(item.op)), Disconnect(false), 0, 0);
      SendGoes(c2, PlainRequest(Item(c2.h.ops[c1.h.next], OnDisconnect, false)));
      StartOverGoes(Malform(c1, item.op), d, item);
    } else {
      CompleteGoes(c1, Complete(c1, item.op, EndingOf(reply.verdict)), item.op, EndingOf(reply.verdict));
      SendGoes(Log(c1, Accepted(item.op.id)), PubrelRequest(item.(stage := OnPubrel), false));
      SendGoes(c1, PlainRequest(item.(stage := OnRecPubcomp)));
    }
  }

  lemma {:induction false} AbortGoes(c: State, s: seq<Request>)
    requires Going(c)
    ensures Going(AbortAll(c, s))
    decreases |s|
  {
    if s != [] {
      CompleteGoes(c, OnAbort(c, s[0].item), s[0].item.op, Failed);
      AbortGoes(OnAbort(c, s[0].item), s[1..]);
    }
  }

  lemma {:induction false} ClearGoes(c: State, s: seq<Waiter>, kept: seq<Waiter>)
    requires Going(c)
    ensures Going(ClearPubrels(c, s, kept))
    decreases |s|
  {
    if s == [] {
      if Drained(c) { WorkGoes(c, c.(table := kept)); }
    } else if s[0].code.Pubrel? {
      var d := Retire(c, s[0].item.op, Failed);
      LogGoes(c, d, Finished(s[0].item.op.id, Failed, s[0].item.op.kind));
      ClearGoes(d, s[1..], kept);
    } else {
      ClearGoes(c, s[1..], kept + [s[0]]);
    }
  }

  lemma ResendGoes(c: State, d: State, limit: nat)
    requires WaitersFit(c.table) && RequestsFit(c.queue) && d == Resend(c, limit) && Going(c)
    ensures Going(d)
  {
    if !c.writing {
      var c1 := Log(c, EpochEvent(c)).(writing := true, limit := limit, quota := limit,
                                       queue := [], table := []);
      var c2 := RetryRequests(ResendWaiters(c1, c.table), c.queue);
      PumpDrains(c2.(queue := StableSort(c2.queue), writing := false));
    }
  }

  lemma ReconnectGoes(c: State, s: Step, d: State)
    requires WellShaped(c) && Enabled(c, s) && Flowing(c) && d == Next(c, s)
    requires s.WriteAgainStep? || s.ReadAgainStep?
    ensures Going(d)
  {
    if s.ReadAgainStep? {
      ShapeAfterSession(c, s.present);
      if !s.present { ClearGoes(c, c.table, []); }
      ResendGoes(UpdateSession(c, s.present), d, s.limit);
    } else {
      var c0 := c.(writing := false, batch := []);
      ShapeAfterSession(c0, s.present);
      var c1 := UpdateSession(c0, s.present);
      var c2 := c1.(queue := c.batch + c1.queue);
      var c3 := Log(c2, EpochEvent(c2)).(writing := true, limit := s.limit, quota := s.limit, queue := [], table := []);
      var c4 := RetryRequests(ResendWaiters(c3, c2.table), c2.queue);
      PumpDrains(c4.(queue := StableSort(c4.queue), writing := false));
    }
  }

  lemma StopGoes(c: State, s: Step, d: State)
    requires WellShaped(c) && Enabled(c, s) && d == Next(c, s) && (s.WriteAbortStep? || s.CancelAllStep?)
    ensures Going(d)
  {
    PausedAppend(c.h.trace, Stopped);
    if s.WriteAbortStep? { AbortGoes(Log(c, Stopped).(writing := false, batch := []), c.batch); }
  }

  lemma ReplyGoes(c: State, s: Step, d: State)
    requires WellShaped(c) && Enabled(c, s) && Flowing(c) && d == Next(c, s) && (s.ReadReplyStep? || s.PostedStep?)
    ensures Going(d)
  {
    if s.ReadReplyStep? {
      var r := s.reply.(readAt := |c.h.trace|);
      var i := FindWaiter(c.table, r.code, r.pid);
      if i < |c.table| {
        assert c.table[i] in c.table;
        var c1 := c.(table := Without(c.table, i));
        if Drained(c) { WorkGoes(c, c1); }
        AnswerGoes(c1, d, c.table[i].item, r);
      } else if Drained(c) {
        WorkGoes(c, d);
      }
    } else {
      var p, c1 := c.posted[0], c.(posted := c.posted[1..]);
      assert p in c.posted;
      if Drained(c) { WorkGoes(c, c1); }
      if p.outcome.Got? {
        AnswerGoes(c1, d, p.item, p.outcome.reply);
      } else {
        CompleteGoes(c1, d, p.item.op, Failed);
      }
    }
  }

  lemma PublishGoes(c: State, d: State, kind: Kind, check: Check)
    requires kind.Publishes() && d == CallPublish(c, kind, check)
    ensures Going(c) ==> Going(d)
    ensures d.done == c.done
  {
    var pid, c1 := if kind.Qos0? then 0 else LeastFreeFrom(c.inUse, 1), NextSerial(c);
    var c2 := Admit(c1, kind, pid, c1.h.published);
    SendGoes(c2, PublishRequest(Item(c2.h.ops[c.h.next], OnPublish, false)));
    if Drained(c) { WorkGoes(c, c1); }
  }

  lemma CallGoes(c: State, s: Step, d: State)
    requires WellShaped(c) && Enabled(c, s) && Flowing(c) && d == Next(c, s)
    requires s.PublishStep? || s.SubscribeStep? || s.OtherStep? || s.ReceiveStep?
    ensures c.done == [] ==> Going(d)
    ensures d.done == c.done
  {
    match s
    case PublishStep(kind, check) => PublishGoes(c, d, kind, check);
    case SubscribeStep(check) =>
      var c1 := Admit(c, Subscribe, LeastFreeFrom(c.inUse, 1), 0);
      SendGoes(c1, PlainRequest(Item(c1.h.ops[c.h.next], OnSubscribe, false)));
    case OtherStep(kind) =>
      var c1 := Admit(c, kind, 0, 0);
      SendGoes(c1, PlainRequest(Item(c1.h.ops[c.h.next], if kind.OneShot? then OnOneShot else OnDisconnect, false)));
    case ReceiveStep(kind, pid) =>
      var c1 := Admit(c, kind, pid, 0);
      SendGoes(c1, PlainRequest(Item(c1.h.ops[c.h.next], if kind.qos2 then OnRecPubrec else OnRecPuback, false)));
  }

  lemma StepFlows(c: State, s: Step, d: State)
    requires Follows(c, s, d) && Flowing(c)
    ensures Flowing(d)
  {
    match s
    case PublishStep(kind, check) => CallGoes(c, s, d);
    case SubscribeStep(check) => CallGoes(c, s, d);
    case OtherStep(kind) => CallGoes(c, s, d);
    case ReceiveStep(kind, pid) => CallGoes(c, s, d);
    case ReceiveQos0Step(msg) => LogGoes(c, d, Arrived(msg));
    case WriteOkStep =>
    case TellNextStep => PumpDrains(OnWritten(Telling(c), c.done[0].item));
    case WriteAgainStep(present, limit) => ReconnectGoes(c, s, d);
    case WriteAbortStep => StopGoes(c, s, d);
    case ReadReplyStep(reply) => ReplyGoes(c, s, d);
    case ReadAgainStep(present, limit) => ReconnectGoes(c, s, d);
    case PostedStep => ReplyGoes(c, s, d);
    case CancelOneStep(id) => if c.done == [] { LogGoes(c, d, Dropped(id)); }
    case CancelAllStep => StopGoes(c, s, d);
  }

  lemma {:induction false} NothingTaken(s: seq<Request>, quota: nat)
    requires Split(s, quota).taken == [] && s != []
    ensures quota == 0 && forall r :: r in s ==> r.throttled
  {
    if |s| > 1 { NothingTaken(s[1..], quota); }
  }

  /** In every run, what is left in the queue of an idle sender waits for quota. */
  lemma NothingLiesIdle(c: State)
    requires Reachable(c) && !c.writing && c.done == [] && !Paused(c.h.trace)
    ensures c.queue == []
      || (c.limit != 65535 && c.quota == 0 && forall r :: r in c.queue ==> r.throttled && !r.terminal)
  {
    var states, steps :| IsRun(states, steps) && c == states[|steps|];
    forall a, s, b | Flowing(a) && Follows(a, s, b) ensures Flowing(b) {
      StepFlows(a, s, b);
    }
    Seqs.Throughout(a => Flowing(a), (a, s, b) => Follows(a, s, b), states, steps, |steps|);
    if c.queue != [] { Stays(c); }
  }

  lemma Stays(c: State)
    requires !c.writing && Pump(c) == c && c.queue != []
    ensures c.limit != 65535 && c.quota == 0 && forall r :: r in c.queue ==> r.throttled && !r.terminal
  {
    var t := FirstTerminal(c.queue);
    assert t == |c.queue|;
    NothingTaken(c.queue, c.quota);
  }
}
