/**
 Receiving once, exactly. Suppose a PUBREL is read while two operations of one
 message are open on its packet id. Then the run can go on, with nothing new read
 but the PUBREL repeated, writes completed and posted completions run, until both
 operations have delivered the message. The PUBREL is repeated while each write is
 in progress, so that everyone on the packet id finds an early one and nobody is
 displaced. If only one operation of the message is open, no such continuation
 delivers it twice.
 */
module Duplicates {
  import opened Requests
  import opened Client
  import opened Places
  import opened Steps
  import opened Theorems
  import opened Scenes
  import opened Receiving
  import opened Owing
  import Seqs

  datatype Point = Point(steps: seq<Step>, c: State)

  /** Where a continuation begins, the PUBREL that it repeats, and the two
      operations of the message that it is about. */
  datatype Goal = Goal(base: seq<Step>, pk: Receiving.Packet, pair: Pair, m: nat)

  function Release(pk: Receiving.Packet): Reply { Reply(Pubrel, pk.pid, Success, pk.msg, 0, 0) }

  /** A point of the continuation: the PUBREL can be read once more. */
  ghost predicate On(g: Goal, q: Point) {
    && g.base <= q.steps && Comes(q.steps, q.c) && Sane(q.c)
    && g.pk.release && NeverBack(PacketsRead(q.steps) + [g.pk])
    && forall i :: |g.base| <= i < |q.steps| ==> Continues(g.pk, q.steps[i])
  }

  ghost predicate Due(g: Goal, c: State) { Owed(c, g.pair, g.pk.pid, g.m) }

  ghost predicate Good(g: Goal, c: State) { Poised(c, g.pair, g.pk.pid, g.m) }

  /** A write is completed, a handler told, a posted completion run, a PINGREQ sent,
      or the PUBREL read once more. */
  predicate Continues(pk: Receiving.Packet, s: Step) {
    s == OtherStep(OneShot) || s.WriteOkStep? || s.TellNextStep? || s.PostedStep? || s == ReadReplyStep(Release(pk))
  }

  /** Any step that reads no QoS 2 packet but the PUBREL. */
  predicate Repeating(pk: Receiving.Packet, s: Step) {
    PacketOfStep(s) == [] || PacketOfStep(s) == [pk]
  }

  lemma NeverBackTwice(s: seq<Receiving.Packet>, x: Receiving.Packet)
    requires NeverBack(s + [x])
    ensures NeverBack(s + [x] + [x])
  {
    var t, u := s + [x], s + [x] + [x];
    assert forall i :: 0 <= i < |t| ==> u[i] == t[i];
    assert u[|t|] == x == t[|s|];
  }

  lemma Goes(g: Goal, q: Point, s: Step) returns (v: Point)
    requires On(g, q) && Enabled(q.c, s) && Continues(g.pk, s)
    ensures On(g, v) && v.c == Next(q.c, s)
  {
    v := Point(q.steps + [s], Next(q.c, s));
    StepKeeps(q.c, s);
    RunsOn(q.steps, q.c, s, v.c);
    ReadsOn(g, q.steps, s);
  }

  lemma ReadsOn(g: Goal, steps: seq<Step>, s: Step)
    requires Continues(g.pk, s) && g.pk.release && NeverBack(PacketsRead(steps) + [g.pk])
    ensures NeverBack(PacketsRead(steps + [s]) + [g.pk])
  {
    Seqs.Front(steps, s);
    assert PacketsRead(steps + [s]) == PacketsRead(steps) + PacketOfStep(s);
    if s.ReadReplyStep? {
      NeverBackTwice(PacketsRead(steps), g.pk);
    } else {
      assert PacketsRead(steps) + [] == PacketsRead(steps);
    }
  }

  // ----- reading the PUBREL

  /** Whoever waits on the packet id is served. */
  lemma {:induction false} Serves(g: Goal, q: Point) returns (v: Point)
    requires On(g, q) && Due(g, q.c) && q.c.writing && q.c.done == []
    ensures On(g, v) && Good(g, v.c) && v.c.writing && v.c.done == []
    ensures v.c.batch == q.c.batch && v.c.posted == q.c.posted && v.c.fast == q.c.fast
    decreases |q.c.table|
  {
    var i := FindWaiter(q.c.table, Pubrel, g.pk.pid);
    if i == |q.c.table| {
      v := q;
    } else {
      v := Goes(g, q, ReadReplyStep(Release(g.pk)));
      ReadTaken(q.c, v.c, Release(g.pk), i, g.pair, g.pk.pid, g.m);
      v := Serves(g, v);
    }
  }

  /** Early PUBRELs are read until there are enough of them. */
  lemma {:induction false} Feeds(g: Goal, q: Point, n: nat) returns (v: Point)
    requires On(g, q) && Good(g, q.c) && q.c.done == []
    ensures On(g, v) && Good(g, v.c) && v.c == q.c.(fast := v.c.fast) && Ready(v.c.fast, g.pk.pid) >= n
    ensures Clear(q.c.fast, g.pk.pid) ==> Clear(v.c.fast, g.pk.pid)
    decreases n - Ready(q.c.fast, g.pk.pid)
  {
    v := q;
    if Ready(q.c.fast, g.pk.pid) < n {
      v := Goes(g, q, ReadReplyStep(Release(g.pk)));
      ReadKept(q.c, v.c, Release(g.pk), g.pair, g.pk.pid, g.m);
      v := Feeds(g, v, n);
    }
  }

  // ----- a write

  ghost predicate Telling(g: Goal, c: State) {
    Good(g, c) && !c.writing && c.done != [] && Ready(c.fast, g.pk.pid) >= |c.done|
  }

  lemma {:induction false} Tells(g: Goal, q: Point) returns (v: Point)
    requires On(g, q) && Telling(g, q.c)
    ensures On(g, v) && Good(g, v.c) && v.c.done == [] && Flushed(v.c)
    ensures (Urgent(q.c.queue) ==> v.c.writing) && (v.c.writing ==> v.c.fast == [])
    ensures Clear(q.c.fast, g.pk.pid) ==> Clear(v.c.fast, g.pk.pid) && Toil(v.c) < Toil(q.c)
    ensures Clear(q.c.fast, g.pk.pid) && ClearPosted(q.c.posted) ==> ClearPosted(v.c.posted)
    decreases |q.c.done|
  {
    v := Goes(g, q, TellNextStep);
    TellOwed(q.c, v.c, g.pair, g.pk.pid, g.m);
    if v.c.done != [] {
      v := Tells(g, v);
    }
  }

  /** The write in progress ends, with a PUBREL at hand for everyone it concerns. */
  lemma Completes(g: Goal, q: Point) returns (v: Point)
    requires On(g, q) && Good(g, q.c) && q.c.writing && q.c.done == []
    ensures On(g, v) && Good(g, v.c) && v.c.done == [] && Flushed(v.c)
    ensures (Urgent(q.c.queue) ==> v.c.writing) && (v.c.writing ==> v.c.fast == [])
    ensures Clear(q.c.fast, g.pk.pid) ==> Clear(v.c.fast, g.pk.pid) && Toil(v.c) < Toil(q.c)
    ensures Clear(q.c.fast, g.pk.pid) && ClearPosted(q.c.posted) ==> ClearPosted(v.c.posted)
  {
    v := Feeds(g, q, |q.c.batch|);
    var u := v;
    v := Goes(g, v, WriteOkStep);
    HarmlessOwed(u.c, v.c, g.pair, g.pk.pid, g.m);
    v := Tells(g, v);
  }

  // ----- posted completions

  lemma {:induction false} RunsAll(g: Goal, q: Point) returns (v: Point)
    requires On(g, q) && Good(g, q.c) && q.c.writing && q.c.done == [] && q.c.fast == []
    ensures On(g, v) && Good(g, v.c) && v.c.writing && v.c.done == [] && v.c.fast == [] && v.c.posted == []
    decreases Gots(q.c.posted), |q.c.posted|
  {
    v := q;
    if q.c.posted != [] {
      v := Goes(g, q, PostedStep);
      PostedOwed(q.c, v.c, g.pair, g.pk.pid, g.m);
      v := Serves(g, v);
      v := RunsAll(g, v);
    }
  }

  ghost predicate Steady(g: Goal, c: State) {
    Good(g, c) && Clear(c.fast, g.pk.pid) && Flushed(c) && ClearPosted(c.posted) && c.done == []
  }

  lemma {:induction false} RunsClear(g: Goal, q: Point) returns (v: Point)
    requires On(g, q) && Steady(g, q.c)
    ensures On(g, v) && Steady(g, v.c) && v.c.posted == [] && Toil(v.c) <= Toil(q.c)
    decreases |q.c.posted|
  {
    v := q;
    if q.c.posted != [] {
      v := Goes(g, q, PostedStep);
      PostedClear(q.c, v.c, g.pair, g.pk.pid, g.m);
      v := RunsClear(g, v);
    }
  }

  // ----- from the PUBREL to the second delivery

  /** A write is made to begin, everyone on the packet id is served, and what was
      posted before is run. */
  lemma Starts(g: Goal, q: Point) returns (v: Point)
    requires On(g, q) && Due(g, q.c) && q.c.done == []
    ensures On(g, v) && Steady(g, v.c) && v.c.posted == []
  {
    v := Goes(g, q, OtherStep(OneShot));
    KickOwed(q.c, v.c, g.pair, g.pk.pid, g.m);
    v := Serves(g, v);
    var u := v;
    v := Goes(g, u, OtherStep(OneShot));
    KickOwed(u.c, v.c, g.pair, g.pk.pid, g.m);
    v := Completes(g, v);
    v := RunsAll(g, v);
  }

  /** Write after write until nothing is left that may be written. */
  lemma {:induction false} Rounds(g: Goal, q: Point) returns (v: Point)
    requires On(g, q) && Steady(g, q.c) && q.c.posted == []
    ensures On(g, v) && Steady(g, v.c) && v.c.posted == [] && !v.c.writing
    decreases Toil(q.c)
  {
    v := q;
    if q.c.writing {
      v := Completes(g, v);
      v := RunsClear(g, v);
      v := Rounds(g, v);
    }
  }

  /** By then both operations have ended. */
  lemma Gone(g: Goal, c: State, x: Op)
    requires Placed(c, multiset{}) && Steady(g, c) && c.posted == [] && !c.writing
    requires x == g.pair.a || x == g.pair.b
    ensures x.id !in c.h.ops
  {
    forall r | r in c.queue ensures r.item.op.id in c.h.ops && c.h.ops[r.item.op.id] == r.item.op != x {
      assert RequestOk(c.h.ops, r);
    }
    forall w | w in c.table ensures w.item.op.id in c.h.ops && c.h.ops[w.item.op.id] == w.item.op != x {
      assert WaiterOk(c.h.ops, w);
    }
    if x.id in c.h.ops { Somewhere(c, x.id); }
  }

  /** Both deliver. */
  lemma Delivers(g: Goal, q: Point) returns (v: Point)
    requires On(g, q) && Due(g, q.c) && q.c.done == []
    ensures On(g, v) && Copies(v.c.channel, g.m) >= 2
  {
    v := Starts(g, q);
    v := Rounds(g, v);
    Gone(g, v.c, g.pair.a);
    Gone(g, v.c, g.pair.b);
  }

  // ----- exactly when

  /** The run with these steps can go on, reading nothing new but perhaps the PUBREL
      again, to a state in which the message has been delivered twice. */
  ghost predicate MayRepeat(steps: seq<Step>, pk: Receiving.Packet, m: nat) {
    exists more, v :: RepeatsAfter(steps, pk, more, v, m)
  }

  ghost predicate RepeatsAfter(steps: seq<Step>, pk: Receiving.Packet, more: seq<Step>, v: State, m: nat) {
    Comes(steps + more, v) && (forall s :: s in more ==> Repeating(pk, s)) && Copies(v.channel, m) >= 2
  }

  function PubrelOf(r: Reply): Receiving.Packet { Receiving.Packet(true, r.pid, r.source) }

  lemma LastRead(steps: seq<Step>, r: Reply)
    requires r.code.Pubrel? && NeverBack(PacketsRead(steps + [ReadReplyStep(r)]))
    ensures NeverBack(PacketsRead(steps + [ReadReplyStep(r)]) + [PubrelOf(r)])
  {
    Seqs.Front(steps, ReadReplyStep(r));
    NeverBackTwice(PacketsRead(steps), PubrelOf(r));
  }

  /** The two are owed their deliveries once the PUBREL has been read. */
  lemma OpenThenOwed(c: State, d: State, e: Inbox, r: Reply, m: nat) returns (pair: Pair)
    requires Sane(c) && Inboxed(c, e) && r.code.Pubrel? && TwoOpen(c, r.pid, m) && d == ReadReply(c, r)
    ensures Owed(d, pair, r.pid, m) && d.done == c.done
  {
    var a, b :| OpenFor(c, r.pid, m, a) && OpenFor(c, r.pid, m, b) && a.op != b.op;
    pair := Pair(a.op, b.op);
    OpenOwed(c, r.pid, a, b);
    ReadOwed(c, d, r, pair, r.pid, m);
  }

  lemma Reached(g: Goal, v: Point) returns (more: seq<Step>)
    requires On(g, v) && Copies(v.c.channel, g.m) >= 2
    ensures RepeatsAfter(g.base, g.pk, more, v.c, g.m) && forall s :: s in more ==> Continues(g.pk, s)
  {
    more := v.steps[|g.base|..];
    Remainder(g.base, v.steps, g.pk);
  }

  lemma Remainder(base: seq<Step>, steps: seq<Step>, pk: Receiving.Packet)
    requires base <= steps && pk.release
    requires forall i :: |base| <= i < |steps| ==> Continues(pk, steps[i])
    ensures base + steps[|base|..] == steps
    ensures forall s :: s in steps[|base|..] ==> Continues(pk, s) && Repeating(pk, s)
  {
    var more := steps[|base|..];
    forall s | s in more ensures Continues(pk, s) && Repeating(pk, s) {
      var i :| 0 <= i < |more| && more[i] == s;
      assert steps[|base| + i] == s;
    }
  }

  lemma Departs(steps: seq<Step>, c: State, r: Reply, g: Goal, q: Point)
    requires Comes(steps, c) && Sane(c) && Enabled(c, ReadReplyStep(r)) && r.code.Pubrel?
    requires NeverBack(PacketsRead(steps + [ReadReplyStep(r)]))
    requires g.base == steps + [ReadReplyStep(r)] && g.pk == PubrelOf(r)
    requires q == Point(g.base, ReadReply(c, r))
    ensures On(g, q)
  {
    StepKeeps(c, ReadReplyStep(r));
    RunsOn(steps, c, ReadReplyStep(r), q.c);
    LastRead(steps, r);
  }

  /** A PUBREL is read while two operations of a message are open on its packet id:
      with that PUBREL repeated the message is delivered twice. */
  lemma TwoOpenRepeat(steps: seq<Step>, c: State, e: Inbox, r: Reply, m: nat) returns (more: seq<Step>, v: State)
    requires Comes(steps, c) && Sane(c) && Inboxed(c, e) && Enabled(c, ReadReplyStep(r)) && r.code.Pubrel?
    requires TwoOpen(c, r.pid, m) && NeverBack(PacketsRead(steps + [ReadReplyStep(r)]))
    ensures RepeatsAfter(steps + [ReadReplyStep(r)], PubrelOf(r), more, v, m)
    ensures forall s :: s in more ==> Continues(PubrelOf(r), s)
  {
    var base, d := steps + [ReadReplyStep(r)], ReadReply(c, r);
    var pair := OpenThenOwed(c, d, e, r, m);
    var g := Goal(base, PubrelOf(r), pair, m);
    Departs(steps, c, r, g, Point(base, d));
    var q := Delivers(g, Point(base, d));
    v := q.c;
    more := Reached(g, q);
  }

  // ----- no repetition otherwise

  /** Only this message is watched, and the latest packet read on the packet id is
      the PUBREL. */
  ghost predicate Watching(c: State, e: Inbox, pk: Receiving.Packet, m: nat) {
    && Inboxed(c, e) && e.watched == iset{m} && pk.release
    && pk.pid in e.key && pk.pid in e.released && e.key[pk.pid] == e.released[pk.pid] == PhaseOf(pk)
  }

  /** Then one operation at most has the right to deliver it. */
  lemma OneLeft(c: State, e: Inbox, pk: Receiving.Packet, m: nat)
    requires Placed(c, multiset{}) && Watching(c, e, pk, m)
    ensures !TwoOpen(c, pk.pid, m)
  {
    forall a, b | OpenFor(c, pk.pid, m, a) && OpenFor(c, pk.pid, m, b) ensures a.op == b.op {
      OpenSafe(c, pk.pid, a);
      OpenSafe(c, pk.pid, b);
      OpenEntitled(c, e, pk.pid, a);
      OpenEntitled(c, e, pk.pid, b);
    }
  }

  lemma StaysWatching(c: State, s: Step, d: State, e: Inbox, pk: Receiving.Packet, m: nat) returns (f: Inbox)
    requires Sane(c) && Follows(c, s, d) && Watching(c, e, pk, m) && Repeating(pk, s)
    ensures Watching(d, f, pk, m)
  {
    OneLeft(c, e, pk, m);
    f := Noted(c, e, s);
    if PacketOfStep(s) == [pk] { assert PacketOfStep(s)[0] == pk; }
    FollowsInbox(c, s, d, e);
  }

  ghost predicate Guarded(c: State, pk: Receiving.Packet, m: nat) {
    Sane(c) && exists e :: Watching(c, e, pk, m)
  }

  ghost predicate RepeatsOnly(c: State, s: Step, d: State, pk: Receiving.Packet) {
    Follows(c, s, d) && Repeating(pk, s)
  }

  lemma StaysGuarded(c: State, s: Step, d: State, pk: Receiving.Packet, m: nat)
    requires Guarded(c, pk, m) && RepeatsOnly(c, s, d, pk)
    ensures Guarded(d, pk, m)
  {
    var e :| Watching(c, e, pk, m);
    var f := StaysWatching(c, s, d, e, pk, m);
    StepKeeps(c, s);
  }

  lemma RunStaysGuarded(states: seq<State>, steps: seq<Step>, pk: Receiving.Packet, m: nat)
    requires |states| == |steps| + 1 && Guarded(states[0], pk, m)
    requires forall j: nat :: j < |steps| ==> RepeatsOnly(states[j], steps[j], states[j + 1], pk)
    ensures Guarded(states[|steps|], pk, m)
  {
    forall c, s, d | Guarded(c, pk, m) && RepeatsOnly(c, s, d, pk) ensures Guarded(d, pk, m) {
      StaysGuarded(c, s, d, pk, m);
    }
    Seqs.Throughout(c => Guarded(c, pk, m), (c, s, d) => RepeatsOnly(c, s, d, pk), states, steps, |steps|);
  }

  lemma GuardedOnce(c: State, pk: Receiving.Packet, m: nat)
    requires Guarded(c, pk, m)
    ensures Copies(c.channel, m) <= 1
  {
    OneCopy(c.channel, m);
  }

  lemma {:induction false} OneCopy(s: seq<Delivery>, m: nat)
    requires forall i, j :: 0 <= i < j < |s| && s[i].qos == 2 && s[i].msg == m ==> s[i] != s[j]
    ensures Copies(s, m) <= 1
  {
    if s != [] {
      var front, x := s[..|s| - 1], s[|s| - 1];
      OneCopy(front, m);
      assert s == front + [x];
      if x == Delivery(2, m) { assert x !in front; }
    }
  }

  /** What is watched may be fewer messages. */
  lemma WatchOne(c: State, e: Inbox, m: nat)
    requires Inboxed(c, e) && m in e.watched
    ensures Inboxed(c, e.(watched := iset{m}))
  {
    var f := e.(watched := iset{m});
    assert forall item :: Watched(f, item) ==> Watched(e, item);
    assert forall item :: Entitled(e, c.channel, item) ==> Entitled(f, c.channel, item);
    assert forall item :: Unmistaken(e, c.fast, item) ==> Unmistaken(f, c.fast, item);
    assert forall item :: Committed(e, item) ==> Committed(f, item);
  }

  /** The PUBREL is read, and the message has no two operations open. */
  lemma BeginsGuarded(c: State, e: Inbox, s: seq<Receiving.Packet>, r: Reply, m: nat, d: State)
    requires Sane(c) && Inboxed(c, e) && m in e.watched && Reflects(e, s) && r.code.Pubrel?
    requires NeverBack(s + [PubrelOf(r)]) && !TwoOpen(c, r.pid, m) && Follows(c, ReadReplyStep(r), d)
    ensures Guarded(d, PubrelOf(r), m)
  {
    var f := e.(watched := iset{m});
    WatchOne(c, e, m);
    NextConforms(c, f, ReadReplyStep(r), s);
    FollowsInbox(c, ReadReplyStep(r), d, f);
    WatchingNow(d, Noted(c, f, ReadReplyStep(r)), c, f, r, m);
    KeepsSane(c, ReadReplyStep(r), d);
  }

  lemma WatchingNow(d: State, g: Inbox, c: State, f: Inbox, r: Reply, m: nat)
    requires Inboxed(d, g) && f.watched == iset{m} && r.code.Pubrel? && g == Noted(c, f, ReadReplyStep(r))
    ensures Watching(d, g, PubrelOf(r), m)
  {
  }

  lemma KeepsSane(c: State, s: Step, d: State)
    requires Sane(c) && Follows(c, s, d)
    ensures Sane(d)
  {
    StepKeeps(c, s);
  }

  // ----- the steps of a run determine its states

  lemma {:induction false} SameRun(a: seq<State>, b: seq<State>, s: seq<Step>, t: seq<Step>, i: nat)
    requires IsRun(a, s) && IsRun(b, t) && i <= |s| && s <= t
    ensures a[i] == b[i]
  {
    if i > 0 {
      SameRun(a, b, s, t, i - 1);
      SameNext(a[i - 1], s[i - 1], a[i - 1 + 1], b[i - 1 + 1]);
    }
  }

  lemma SameNext(c: State, s: Step, d: State, e: State)
    requires Follows(c, s, d) && Follows(c, s, e)
    ensures d == e
  {
  }

  /** Without two open operations no such continuation repeats the message. */
  lemma OneOpenOnce(states: seq<State>, steps: seq<Step>, r: Reply, m: nat)
    requires IsRun(states, steps) && InTime(states, steps) && Enabled(states[|steps|], ReadReplyStep(r))
    requires r.code.Pubrel? && NeverBack(PacketsRead(steps + [ReadReplyStep(r)])) && !TwoOpen(states[|steps|], r.pid, m)
    ensures !MayRepeat(steps + [ReadReplyStep(r)], PubrelOf(r), m)
  {
    forall more, v | RepeatsAfter(steps + [ReadReplyStep(r)], PubrelOf(r), more, v, m) ensures false {
      OneOpenEver(states, steps, r, m, more, v);
    }
  }

  lemma OneOpenEver(states: seq<State>, steps: seq<Step>, r: Reply, m: nat, more: seq<Step>, v: State)
    requires IsRun(states, steps) && InTime(states, steps) && Enabled(states[|steps|], ReadReplyStep(r))
    requires r.code.Pubrel? && NeverBack(PacketsRead(steps + [ReadReplyStep(r)])) && !TwoOpen(states[|steps|], r.pid, m)
    requires Comes(steps + [ReadReplyStep(r)] + more, v) && forall s :: s in more ==> Repeating(PubrelOf(r), s)
    ensures Copies(v.channel, m) <= 1
  {
    var n, all := |steps|, steps + [ReadReplyStep(r)] + more;
    var run := RunOf(all, v);
    Pieces(steps, ReadReplyStep(r), more, all);
    SameRun(states, run, steps, all, n);
    GuardedThere(states, steps, r, m, run[n + 1], all, run);
    RestGuarded(run, all, n + 1, more, PubrelOf(r), m);
    GuardedOnce(v, PubrelOf(r), m);
  }

  lemma Pieces(steps: seq<Step>, s: Step, more: seq<Step>, all: seq<Step>)
    requires all == steps + [s] + more
    ensures steps <= all && |steps| < |all| && all[|steps|] == s && all[|steps| + 1..] == more
  {
  }

  lemma RestGuarded(run: seq<State>, all: seq<Step>, k: nat, more: seq<Step>, pk: Receiving.Packet, m: nat)
    requires IsRun(run, all) && k <= |all| && more == all[k..] && forall s :: s in more ==> Repeating(pk, s)
    requires Guarded(run[k], pk, m)
    ensures Guarded(run[|all|], pk, m)
  {
    RestRepeats(run, all, k, more, pk);
    RunStaysGuarded(run[k..], more, pk, m);
  }

  lemma GuardedThere(states: seq<State>, steps: seq<Step>, r: Reply, m: nat, d: State, all: seq<Step>, run: seq<State>)
    requires IsRun(states, steps) && InTime(states, steps) && r.code.Pubrel?
    requires NeverBack(PacketsRead(steps + [ReadReplyStep(r)])) && !TwoOpen(states[|steps|], r.pid, m)
    requires IsRun(run, all) && |steps| < |all| && all[|steps|] == ReadReplyStep(r)
    requires run[|steps|] == states[|steps|] && d == run[|steps| + 1]
    ensures Guarded(d, PubrelOf(r), m)
  {
    var n, c := |steps|, states[|steps|];
    Seqs.Front(steps, ReadReplyStep(r));
    FewerPackets(PacketsRead(steps), PubrelOf(r));
    InboxHolds(states, steps, n);
    InboxReflects(states, steps, n);
    assert steps[..n] == steps;
    RunKeeps(states, steps, n);
    assert Follows(run[n], all[n], run[n + 1]);
    BeginsGuarded(c, InboxAfter(states, steps, n), PacketsRead(steps), r, m, d);
  }

  lemma FewerPackets(s: seq<Receiving.Packet>, x: Receiving.Packet)
    requires NeverBack(s + [x])
    ensures NeverBack(s)
  {
    FewerGoBack(s + [x], |s|);
    assert (s + [x])[..|s|] == s;
  }

  lemma RestRepeats(run: seq<State>, all: seq<Step>, k: nat, more: seq<Step>, pk: Receiving.Packet)
    requires IsRun(run, all) && k <= |all| && more == all[k..] && forall s :: s in more ==> Repeating(pk, s)
    ensures forall j: nat :: j < |more| ==> RepeatsOnly(run[k..][j], more[j], run[k..][j + 1], pk)
  {
    forall j: nat | j < |more| ensures RepeatsOnly(run[k..][j], more[j], run[k..][j + 1], pk) {
      assert Follows(run[k + j], all[k + j], run[k + j + 1]);
      assert more[j] in more;
    }
  }

  /** Receiving once, exactly, PUBREL by PUBREL: the message can be delivered twice
      without anything new being read if and only if two of its operations were open
      on the packet id when the PUBREL was read. */
  lemma RepeatsExactly(states: seq<State>, steps: seq<Step>, r: Reply, m: nat)
    requires IsRun(states, steps) && InTime(states, steps) && Enabled(states[|steps|], ReadReplyStep(r))
    requires r.code.Pubrel? && NeverBack(PacketsRead(steps + [ReadReplyStep(r)]))
    ensures MayRepeat(steps + [ReadReplyStep(r)], PubrelOf(r), m) <==> TwoOpen(states[|steps|], r.pid, m)
  {
    var n, c := |steps|, states[|steps|];
    if TwoOpen(c, r.pid, m) {
      Seqs.Front(steps, ReadReplyStep(r));
      FewerPackets(PacketsRead(steps), PubrelOf(r));
      InboxHolds(states, steps, n);
      RunKeeps(states, steps, n);
      assert Comes(steps, c);
      var more, v := TwoOpenRepeat(steps, c, InboxAfter(states, steps, n), r, m);
    } else {
      OneOpenOnce(states, steps, r, m);
    }
  }

  // ----- whole runs

  lemma RunPrefix(states: seq<State>, steps: seq<Step>, i: nat)
    requires IsRun(states, steps) && i < |steps|
    ensures IsRun(states[..i + 1], steps[..i]) && Follows(states[i], steps[i], states[i + 1])
  {
  }

  /** The first PUBREL that is not in time. */
  lemma FirstLate(states: seq<State>, steps: seq<Step>) returns (i: nat)
    requires |states| == |steps| + 1 && !InTime(states, steps)
    ensures i < |steps| && steps[i].ReadReplyStep? && steps[i].reply.code.Pubrel?
    ensures !OneOpen(states[i], steps[i].reply.pid) && InTime(states[..i + 1], steps[..i])
  {
    i := 0;
    while !(steps[i].ReadReplyStep? && steps[i].reply.code.Pubrel? && !OneOpen(states[i], steps[i].reply.pid))
      invariant i < |steps| && InTime(states[..i + 1], steps[..i])
      invariant exists j :: i <= j < |steps| && steps[j].ReadReplyStep? && steps[j].reply.code.Pubrel?
                  && !OneOpen(states[j], steps[j].reply.pid)
      decreases |steps| - i
    {
      i := i + 1;
    }
  }

  /** At this point of the run a PUBREL finds two operations of the message open, and
      with it repeated the message can be delivered twice. */
  ghost predicate Breaks(states: seq<State>, steps: seq<Step>, i: nat, m: nat) {
    && |states| == |steps| + 1 && i < |steps| && steps[i].ReadReplyStep? && steps[i].reply.code.Pubrel?
    && TwoOpen(states[i], steps[i].reply.pid, m) && MayRepeat(steps[..i + 1], PubrelOf(steps[i].reply), m)
  }

  /** Over packets that never go back: if every PUBREL finds at most one operation of
      each message open on its packet id, no message is delivered twice at any point
      of the run; otherwise the first PUBREL that does not breaks the promise. */
  lemma OnceExactly(states: seq<State>, steps: seq<Step>)
    requires IsRun(states, steps) && NeverBack(PacketsRead(steps))
    ensures InTime(states, steps) ==>
      forall i: nat, m: nat :: i <= |steps| ==> Copies(states[i].channel, m) <= 1
    ensures !InTime(states, steps) ==> exists i, m :: Breaks(states, steps, i, m)
  {
    if InTime(states, steps) {
      forall i: nat, m: nat | i <= |steps| ensures Copies(states[i].channel, m) <= 1 {
        InboxHolds(states, steps, i);
        OneCopy(states[i].channel, m);
      }
    } else {
      var i := FirstLate(states, steps);
      var m :| TwoOpen(states[i], steps[i].reply.pid, m);
      LateRepeats(states, steps, i, m);
    }
  }

  lemma LateRepeats(states: seq<State>, steps: seq<Step>, i: nat, m: nat)
    requires IsRun(states, steps) && NeverBack(PacketsRead(steps)) && i < |steps|
    requires steps[i].ReadReplyStep? && steps[i].reply.code.Pubrel?
    requires TwoOpen(states[i], steps[i].reply.pid, m) && InTime(states[..i + 1], steps[..i])
    ensures Breaks(states, steps, i, m)
  {
    RunPrefix(states, steps, i);
    PacketsPrefix(steps, i + 1);
    NextPrefix(steps, i);
    RepeatsExactly(states[..i + 1], steps[..i], steps[i].reply, m);
  }

  lemma NextPrefix(steps: seq<Step>, i: nat)
    requires i < |steps|
    ensures steps[..i + 1] == steps[..i] + [steps[i]]
  {
  }

  lemma PacketsPrefix(steps: seq<Step>, i: nat)
    requires NeverBack(PacketsRead(steps)) && i <= |steps|
    ensures NeverBack(PacketsRead(steps[..i]))
  {
    ReadsPrefix(steps, i);
    FewerGoBack(PacketsRead(steps), |PacketsRead(steps[..i])|);
  }
}
