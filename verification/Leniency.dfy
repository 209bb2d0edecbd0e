/**
 What a refusal acted on in time leaves behind: nothing. Once the packet id of a
 refused PUBLISH is free and drained, no message on it can be accepted without being
 forwarded as long as the broker refuses nothing more, whatever else happens, and
 however the refusals on other packet ids are dealt with. With the converse in
 `Reuse` this says exactly when a refusal may be acted on.
 */
module Leniency {
  import opened Requests
  import opened Client
  import opened SerialOrder
  import opened Places
  import opened Soundness
  import opened Traffic
  import opened Engine
  import opened Exchange
  import opened ExactlyOnce
  import opened Reuse

  // ----- refusals on one packet id, on the side of the client

  /** No refusal on this packet id is posted, and those read early are for operations
      that have ended. */
  ghost predicate Quelled(c: State, p: nat) {
    && (forall q :: q in c.posted && q.outcome.Got? && Refuses(q.outcome.reply) ==> q.outcome.reply.pid != p)
    && (forall r :: r in c.fast && Refuses(r) && r.pid == p ==> r.source !in c.h.ops && r.source < c.h.next)
  }

  /** The client has no more refusals than before, and no ended operation returns. */
  ghost predicate Tame(c: State, d: State) {
    && (forall r :: r in d.fast ==> r in c.fast)
    && (forall q :: q in d.posted && q.outcome.Got? && Refuses(q.outcome.reply) ==> q in c.posted)
    && c.h.next <= d.h.next && (forall x :: x in d.h.ops ==> x in c.h.ops || x >= c.h.next)
  }

  lemma TameQuelled(c: State, d: State, p: nat)
    requires Quelled(c, p) && Tame(c, d)
    ensures Quelled(d, p)
  {
  }

  lemma TameTwice(c: State, d: State, e: State)
    requires Tame(c, d) && Tame(d, e)
    ensures Tame(c, e)
  {
  }

  lemma SendTame(c: State, r: Request)
    ensures Tame(c, Send(c, r))
  {
  }

  lemma CompleteTame(c: State, op: Op, ending: Ending)
    ensures Tame(c, Complete(c, op, ending))
  {
  }

  lemma AwaitTame(c: State, item: Item)
    requires !item.stage.Writes() && !item.stage.OnPubrec? && Fits(item)
    ensures Tame(c, AwaitReply(c, item))
  {
    var code, pid := AwaitedCode(item.stage), item.op.pid;
    assert !code.Pubrec?;
  }

  lemma MalformTame(c: State, op: Op)
    ensures Tame(c, Malform(c, op))
  {
  }

  lemma StartOverTame(c: State, d: State, item: Item)
    requires !item.stage.Writes() && Fits(item) && d == OnResend(c, item)
    ensures Tame(c, d)
  {
    if item.stage.OnRecPubrel? {
      AwaitTame(c, item);
    } else if item.op.id in c.cancelled && !item.stage.OnPubcomp? {
      CompleteTame(c, item.op, Failed);
    }
  }

  lemma TryAgainTame(c: State, d: State, item: Item)
    requires item.stage.Writes() && Fits(item) && d == OnTryAgain(c, item)
    ensures Tame(c, d)
  {
    if item.stage.OnRecPubcomp? {
      AwaitTame(c, item.(stage := OnRecPubrel));
    } else {
      CompleteTame(c, item.op, Failed);
      CompleteTame(c, item.op, Completed);
    }
  }

  lemma AnswerTame(c: State, d: State, item: Item, r: Reply)
    requires !item.stage.Writes() && Fits(item) && d == OnAnswer(c, item, r)
    ensures Tame(c, d)
  {
    var c1 := Log(c, Answered(item.op.id, r.readAt, r.code, r.verdict));
    AnswerCases(c, item, r);
    if r.verdict.Malformed? {
      var c2 := Malform(c1, item.op);
      MalformTame(c1, item.op);
      StartOverTame(c2, d, item);
      TameTwice(c1, c2, d);
    } else {
      AcknowledgeTame(c1, d, item, r.verdict);
    }
    TameTwice(c, c1, d);
  }

  lemma AcknowledgeTame(c: State, d: State, item: Item, v: Verdict)
    requires !item.stage.Writes() && !v.Malformed? && d == Acknowledge(c, item, v)
    ensures Tame(c, d)
  {
    CompleteTame(c, item.op, EndingOf(v));
  }

  lemma {:induction false} WaitersTame(c: State, s: seq<Waiter>)
    requires WaitersFit(s)
    ensures Tame(c, ResendWaiters(c, s))
    decreases |s|
  {
    if s != [] {
      assert s[0] in s;
      var d := OnResend(c, s[0].item);
      StartOverTame(c, d, s[0].item);
      WaitersTame(d, s[1..]);
      TameTwice(c, d, ResendWaiters(d, s[1..]));
    }
  }

  lemma {:induction false} RequestsTame(c: State, s: seq<Request>)
    requires RequestsFit(s)
    ensures Tame(c, RetryRequests(c, s))
    decreases |s|
  {
    if s != [] {
      assert s[0] in s;
      var d := OnTryAgain(c, s[0].item);
      TryAgainTame(c, d, s[0].item);
      RequestsTame(d, s[1..]);
      TameTwice(c, d, RetryRequests(d, s[1..]));
    }
  }

  lemma ResendTame(c: State, limit: nat)
    requires WaitersFit(c.table) && RequestsFit(c.queue)
    ensures Tame(c, Resend(c, limit))
  {
    if !c.writing {
      var c1 := Log(c, EpochEvent(c)).(writing := true, limit := limit, quota := limit, queue := [], table := []);
      WaitersTame(c1, c.table);
      var c2 := ResendWaiters(c1, c.table);
      RequestsTame(c2, c.queue);
      var c3 := RetryRequests(c2, c.queue);
      TameTwice(c1, c2, c3);
      TameTwice(c, c1, c3);
      var c4 := Pump(c3.(queue := StableSort(c3.queue), writing := false));
      assert Tame(c3, c4);
      TameTwice(c, c3, c4);
    }
  }

  // ----- the one handler that may be given an early PUBREC

  /** A reply read early for a sent PUBLISH is its own, so it is no old refusal. */
  lemma PubrecQuelled(c: State, d: State, item: Item, p: nat, ids: iset<nat>)
    requires Quelled(c, p) && p in ids && Tracked(c.h.ops, item) && Genuine(item, c.fast, ids)
    requires item.stage.OnPubrec? && d == AwaitReply(c, item)
    ensures Quelled(d, p)
  {
    var c1 := Evict(c, Pubrec, item.op.pid);
    assert Tame(c, c1);
    TameQuelled(c, c1, p);
    var f := FindReply(c1.fast, Pubrec, item.op.pid);
    if f < |c1.fast| {
      assert c1.fast[f] in c.fast;
    }
  }

  lemma WrittenQuelled(c: State, d: State, item: Item, p: nat, ids: iset<nat>)
    requires Quelled(c, p) && p in ids && Tracked(c.h.ops, item) && Genuine(item, c.fast, ids)
    requires item.stage.Writes() && d == OnWritten(c, item)
    ensures Quelled(d, p)
  {
    if item.stage.OnPublish? && item.op.kind.Qos2? {
      PubrecQuelled(Log(c, Written(item.op.id)), d, item.(stage := OnPubrec), p, ids);
    } else {
      WrittenTame(c, d, item);
      TameQuelled(c, d, p);
    }
  }

  lemma WrittenTame(c: State, d: State, item: Item)
    requires item.stage.Writes() && Fits(item) && !(item.stage.OnPublish? && item.op.kind.Qos2?) && d == OnWritten(c, item)
    ensures Tame(c, d)
  {
    match item.stage
    case OnPublish =>
      if item.op.kind.Qos0? {
        CompleteTame(c, item.op, Completed);
      } else {
        AwaitTame(Log(c, Written(item.op.id)), item.(stage := OnPuback));
      }
    case OnPubrel => AwaitTame(c, item.(stage := OnPubcomp));
    case OnSubscribe => AwaitTame(c, item.(stage := OnSuback));
    case OnRecPubrec => AwaitTame(c, item.(stage := OnRecPubrel));
    case _ => CompleteTame(c, item.op, Completed);
  }

  // ----- steps of the client

  lemma BeginTame(c: State, kind: Kind, pid: nat, seqno: nat, r: Request)
    ensures Tame(c, Send(Admit(c, kind, pid, seqno), r))
  {
    SendTame(Admit(c, kind, pid, seqno), r);
  }

  lemma PublishTame(c: State, kind: Kind, check: Check)
    requires kind.Publishes()
    ensures Tame(c, CallPublish(c, kind, check))
  {
    var pid := if kind.Qos0? then 0 else LeastFreeFrom(c.inUse, 1);
    var c1 := NextSerial(c);
    BeginTame(c1, kind, pid, c1.h.published, PublishRequest(Item(Op(c.h.next, kind, pid, c1.h.published), OnPublish, false)));
  }

  lemma CallTame(c: State, s: Step)
    requires WellShaped(c) && Enabled(c, s)
    requires s.PublishStep? || s.SubscribeStep? || s.OtherStep? || s.ReceiveStep? || s.ReceiveQos0Step?
    ensures Tame(c, Next(c, s))
  {
    match s
    case PublishStep(kind, check) => PublishTame(c, kind, check);
    case SubscribeStep(check) =>
      var pid := LeastFreeFrom(c.inUse, 1);
      BeginTame(c, Subscribe, pid, 0, PlainRequest(Item(Op(c.h.next, Subscribe, pid, 0), OnSubscribe, false)));
    case OtherStep(kind) =>
      var stage := if kind.OneShot? then OnOneShot else OnDisconnect;
      BeginTame(c, kind, 0, 0, PlainRequest(Item(Op(c.h.next, kind, 0, 0), stage, false)));
    case ReceiveStep(kind, pid) =>
      var stage := if kind.qos2 then OnRecPubrec else OnRecPuback;
      BeginTame(c, kind, pid, 0, PlainRequest(Item(Op(c.h.next, kind, pid, 0), stage, false)));
    case ReceiveQos0Step(_) =>
  }

  lemma ReconnectTame(c: State, s: Step)
    requires WellShaped(c) && Enabled(c, s) && Uncancelled(s) && (s.WriteAgainStep? || s.ReadAgainStep?)
    ensures Tame(c, Next(c, s))
  {
    if s.WriteAgainStep? {
      var c1 := c.(writing := false, batch := [], queue := c.batch + c.queue);
      ResendTame(c1, s.limit);
      assert c.(writing := false, batch := []).(queue := c.batch + c.queue) == c1;
      TameTwice(c, c1, Resend(c1, s.limit));
    } else {
      ResendTame(c, s.limit);
    }
  }

  lemma PostedTame(c: State, d: State)
    requires c.posted != [] && PostedFit(c.posted) && d == RunPosted(c)
    ensures Tame(c, d)
  {
    var q, c1 := c.posted[0], c.(posted := c.posted[1..]);
    assert q in c.posted;
    if q.outcome.Got? {
      AnswerTame(c1, d, q.item, q.outcome.reply);
    } else {
      CompleteTame(c1, q.item.op, Failed);
    }
    TameTwice(c, c1, d);
  }

  lemma TellQuelled(c: State, d: State, p: nat, ids: iset<nat>)
    requires Shaped(c) && c.done != [] && RequestsFit(c.done) && GenuineRequests(c.done, c.fast, ids)
    requires Quelled(c, p) && p in ids && d == TellNext(c)
    ensures Quelled(d, p)
  {
    var r, c0 := c.done[0], Telling(c);
    assert r in c.done && RequestOk(c.h.ops, r);
    var c1 := OnWritten(c0, r.item);
    WrittenQuelled(c0, c1, r.item, p, ids);
    assert Tame(c1, d);
    TameQuelled(c1, d, p);
  }

  lemma ActQuelled(w: World, s: Step, d: State, p: nat)
    requires Healthy(w) && Enabled(w.c, s) && Uncancelled(s) && Quelled(w.c, p) && p in w.n.watched
    requires d == Next(w.c, s)
    ensures Quelled(d, p)
  {
    if s.TellNextStep? {
      TellQuelled(w.c, d, p, w.n.watched);
    } else {
      if s.WriteAgainStep? || s.ReadAgainStep? {
        ReconnectTame(w.c, s);
      } else if s.PostedStep? {
        PostedTame(w.c, d);
      } else if !s.WriteOkStep? {
        CallTame(w.c, s);
      }
      TameQuelled(w.c, d, p);
    }
  }

  lemma ReadQuelled(c: State, r: Reply, p: nat)
    requires WaitersFit(c.table) && Quelled(c, p) && (Refuses(r) ==> r.pid != p)
    ensures Quelled(ReadReply(c, r), p)
  {
    var x := r.(readAt := |c.h.trace|);
    var i := FindWaiter(c.table, r.code, r.pid);
    if i < |c.table| {
      assert c.table[i] in c.table;
      var c1 := c.(table := Without(c.table, i));
      AnswerTame(c1, ReadReply(c, r), c.table[i].item, x);
      TameQuelled(c1, ReadReply(c, r), p);
    }
  }

  // ----- steps of the world

  ghost predicate NoRefusal(w: World, p: nat) {
    Quelled(w.c, p) && forall r :: r in w.n.down && Refuses(r) ==> r.pid != p
  }

  /** Without a refusal on the packet id nothing has to be taken care of. */
  lemma CareIsTaken(w: World, s: WorldStep, p: nat)
    requires Healthy(w) && w.n.watched == iset{p} && NoRefusal(w, p) && Feasible(w, s)
    ensures Possible(w, s)
  {
    if s == Act(PostedStep) {
      PostedKnown(w.c);
      assert w.c.posted[0] in w.c.posted;
    } else if s.Read? {
      var r := w.n.down[0];
      var i := FindWaiter(w.c.table, r.code, r.pid);
      assert r in w.n.down;
      if i < |w.c.table| { WaiterKnown(w.c, i); }
    }
  }

  lemma NetUnrefused(w: World, s: WorldStep, v: World, p: nat)
    requires NoRefusal(w, p) && Feasible(w, s) && Lenient(s) && !s.Act? && !s.Read? && v == After(w, s)
    ensures NoRefusal(v, p)
  {
  }

  lemma StaysUnrefused(w: World, s: WorldStep, v: World, p: nat)
    requires Healthy(w) && p in w.n.watched && NoRefusal(w, p) && Feasible(w, s) && Lenient(s) && v == After(w, s)
    ensures NoRefusal(v, p)
  {
    if s.Act? {
      ActQuelled(w, s.step, v.c, p);
    } else if s.Read? {
      assert w.n.down[0] in w.n.down;
      ReadQuelled(w.c, w.n.down[0], p);
    } else {
      NetUnrefused(w, s, v, p);
    }
  }

  // ----- one packet id watched

  ghost function Only(w: World, p: nat): World { w.(n := w.n.(watched := iset{p})) }

  lemma OnlyNet(h: History, n: Net, m: Net, p: nat)
    requires NetOk(h, n) && p in n.watched && m == n.(watched := iset{p})
    ensures NetOk(h, m)
  {
    assert forall id :: SentElsewhere(h.trace, id, n.watched) ==> SentElsewhere(h.trace, id, m.watched);
    assert forall r :: Honest(n, r) ==> Honest(m, r);
  }

  lemma OnlyHealthy(w: World, p: nat)
    requires Healthy(w) && p in w.n.watched
    ensures Healthy(Only(w, p))
  {
    var n, m := w.n, Only(w, p).n;
    OnlyNet(w.c.h, n, m, p);
    assert forall r :: Honest(n, r) ==> Honest(m, r);
    OnlyLink(w.c, n, m, p);
  }

  lemma OnlyLink(c: State, n: Net, m: Net, p: nat)
    requires Link(c, n) && p in n.watched && m == n.(watched := iset{p}) && NetOk(c.h, m)
    requires forall r :: Honest(n, r) ==> Honest(m, r)
    ensures Link(c, m)
  {
    assert forall r :: ReadOk(n, r) ==> ReadOk(m, r);
    assert forall item, r :: Answerable(n, item, r) ==> Answerable(m, item, r);
    assert forall item :: Genuine(item, c.fast, n.watched) ==> Genuine(item, c.fast, m.watched);
  }

  /** What can happen does not depend on what is watched. */
  lemma OnlyStep(w: World, s: WorldStep, p: nat)
    requires Feasible(w, s)
    ensures Feasible(Only(w, p), s) && After(Only(w, p), s) == Only(After(w, s), p)
  {
  }

  ghost predicate Guarded(w: World, p: nat) {
    Healthy(Only(w, p)) && NoRefusal(w, p)
  }

  lemma StaysGuarded(w: World, s: WorldStep, v: World, p: nat)
    requires Guarded(w, p) && Feasible(w, s) && Lenient(s) && v == After(w, s)
    ensures Guarded(v, p)
  {
    var x := Only(w, p);
    OnlyStep(w, s, p);
    assert NoRefusal(x, p);
    CareIsTaken(x, s, p);
    WorldStepKeeps(x, s, Only(v, p));
    StaysUnrefused(x, s, Only(v, p), p);
  }

  lemma {:induction false} WayStaysGuarded(w: World, steps: seq<WorldStep>, v: World, p: nat)
    requires Guarded(w, p) && Leading(w, steps, v) && AllLenient(steps)
    ensures Guarded(v, p)
    decreases |steps|
  {
    if steps != [] {
      var n := |steps| - 1;
      var u :| Leading(w, steps[..n], u) && Feasible(u, steps[n]) && v == After(u, steps[n]);
      assert AllLenient(steps[..n]) && steps[n] in steps;
      WayStaysGuarded(w, steps[..n], u, p);
      StaysGuarded(u, steps[n], v, p);
    }
  }

  lemma {:induction false} OnePid(t: seq<Event>, i: nat, j: nat)
    requires PhasesRise(t) && i < j < |t| && OfQos2(t[i]) && OfQos2(t[j]) && t[i].id == t[j].id
    ensures t[i].pid == t[j].pid
  {
    PhasesBefore(t, j);
    assert t[i] in t[..j];
  }

  /** In a guarded world every message accepted on the packet id was forwarded. */
  lemma GuardedForwards(v: World, b: nat, p: nat)
    requires Guarded(v, p) && SentOn(v.c.h.trace, b, p)
    ensures !Stranded(v, b)
  {
    var t := v.c.h.trace;
    Unfold(v.c, true);
    if SentElsewhere(t, b, iset{p}) {
      var e :| e in t && OfQos2(e) && !e.packet.PubrelPacket? && e.id == b && e.pid == p;
      var f :| f in t && OfQos2(f) && f.id == b && f.pid !in iset{p};
      NotElsewhere(t, e, f);
    }
  }

  lemma NotElsewhere(t: seq<Event>, e: Event, f: Event)
    requires PhasesRise(t) && e in t && f in t && OfQos2(e) && OfQos2(f) && e.id == f.id
    ensures e.pid == f.pid
  {
    var i :| 0 <= i < |t| && t[i] == e;
    var j :| 0 <= j < |t| && t[j] == f;
    if i < j {
      OnePid(t, i, j);
    } else if j < i {
      OnePid(t, j, i);
    }
  }

  // ----- exactly when a refusal may be acted on

  /** On a packet id that is free, no refusal can be mistaken for a new one. */
  lemma FreeUnrefused(v: World, p: nat)
    requires Healthy(v) && p !in v.c.inUse && (forall r :: r in v.n.down && r.code.Pubrec? ==> r.pid != p)
    ensures NoRefusal(v, p)
  {
    var c := v.c;
    Unfold(c, true);
    forall q | q in c.posted && q.outcome.Got? && Refuses(q.outcome.reply) ensures q.outcome.reply.pid != p {
      assert PostedOk(c.h.ops, q);
    }
    forall r | r in c.fast && Refuses(r) && r.pid == p ensures r.source !in c.h.ops && r.source < c.h.next {
      assert ReadOk(v.n, r);
      EndedSource(c.h, c.inUse, v.n, r);
    }
  }

  lemma EndedSource(h: History, inUse: set<nat>, n: Net, r: Reply)
    requires n.past <= h.trace && Receipt(n.past, r) && Labelled(h) && Known(h.trace, h) && IdsOk(h, inUse)
    requires r.pid !in inUse
    ensures r.source !in h.ops && r.source < h.next
  {
    var e := n.past[r.answers];
    assert h.trace[r.answers] == e && e in h.trace && HasId(e);
  }

  lemma PostedGuarded(w: World, v: World, p: nat)
    requires Healthy(w) && Possible(w, Act(PostedStep)) && ActsOn(w, Act(PostedStep), p) && p in w.n.watched
    requires v == After(w, Act(PostedStep))
    ensures p !in v.c.inUse && (forall r :: r in v.n.down && r.code.Pubrec? ==> r.pid != p)
  {
    var q := w.c.posted[0];
    PostedKnown(w.c);
    RefusalFrees(w.c.(posted := w.c.posted[1..]), q.item, q.outcome.reply, v.c);
  }

  lemma ReadGuarded(w: World, v: World, p: nat)
    requires Healthy(w) && Possible(w, Read) && ActsOn(w, Read, p) && p in w.n.watched && v == After(w, Read)
    ensures p !in v.c.inUse && (forall r :: r in v.n.down && r.code.Pubrec? ==> r.pid != p)
  {
    var r := w.n.down[0].(readAt := |w.c.h.trace|);
    var i := FindWaiter(w.c.table, r.code, r.pid);
    WaiterKnown(w.c, i);
    RefusalFrees(w.c.(table := Without(w.c.table, i)), w.c.table[i].item, r, v.c);
  }

  lemma ActedInTime(w: World, s: WorldStep, v: World, p: nat)
    requires Healthy(w) && Possible(w, s) && ActsOn(w, s, p) && p in w.n.watched && v == After(w, s)
    ensures Guarded(v, p)
  {
    WorldStepKeeps(w, s, v);
    if s.Read? {
      ReadGuarded(w, v, p);
    } else {
      PostedGuarded(w, v, p);
    }
    FreeUnrefused(v, p);
    OnlyHealthy(v, p);
  }

  /** With the broker refusing nothing any more, a message on this packet id can be
      accepted without ever being forwarded. */
  ghost predicate MayStrand(u: World, p: nat) {
    exists v, b :: Leniently(u, v) && Stranded(v, b) && SentOn(v.c.h.trace, b, p)
  }

  lemma NothingStrands(u: World, p: nat)
    requires Guarded(u, p)
    ensures !MayStrand(u, p)
  {
    forall v, b | Leniently(u, v) && SentOn(v.c.h.trace, b, p) ensures !Stranded(v, b) {
      var steps :| Leading(u, steps, v) && AllLenient(steps);
      WayStaysGuarded(u, steps, v, p);
      GuardedForwards(v, b, p);
    }
  }

  /** A refusal may be acted on, that is, its packet id freed, if and only if nothing
      else about a PUBLISH is outstanding on that packet id. */
  lemma CareExactly(w: World, s: WorldStep, p: nat)
    requires Whole(w) && Feasible(w, s) && ActsOn(w, s, p)
    ensures Possible(w, s) <==> !MayStrand(After(w, s), p)
  {
    if Possible(w, s) {
      ActedInTime(w, s, After(w, s), p);
      NothingStrands(After(w, s), p);
    } else {
      var v, b, q := CareIsNeeded(w, s);
    }
  }

  /** Every other step is possible. */
  lemma OtherwisePossible(w: World, s: WorldStep)
    requires Feasible(w, s) && forall p :: !ActsOn(w, s, p)
    ensures Possible(w, s)
  {
    if s == Act(PostedStep) {
      assert !ActsOn(w, s, w.c.posted[0].item.op.pid);
    } else if s.Read? {
      var i := FindWaiter(w.c.table, w.n.down[0].code, w.n.down[0].pid);
      assert i < |w.c.table| ==> !ActsOn(w, s, w.c.table[i].item.op.pid);
    }
  }
}
