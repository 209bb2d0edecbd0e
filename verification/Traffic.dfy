/**
 The QoS 2 packets of one packet id, over a whole run. An operation's PUBLISH
 and PUBREL are its two phases; on each packet id the phases are handed to the
 transport in order, however often the id changes hands, writes fail, replies
 are malformed or operations are cancelled.
 */
module Traffic {
  import opened Requests
  import opened Client
  import opened Places
  import opened Soundness

  predicate OfQos2(e: Event) { e.Handed? && e.kind.Qos2? }

  /** Position of a packet on its packet id: operations by their calls, PUBLISH
      before PUBREL. */
  function Phase(e: Event): nat
    requires e.Handed?
  {
    2 * e.id + (if e.packet.PubrelPacket? then 1 else 0)
  }

  /** Earlier packets on the same id are not of a later phase, and an operation
      never changes its packet id. */
  ghost predicate NoneAbove(t: seq<Event>, e: Event)
    requires e.Handed?
  {
    forall f :: f in t && OfQos2(f) ==>
      (f.pid == e.pid ==> Phase(f) <= Phase(e)) && (f.id == e.id ==> f.pid == e.pid)
  }

  ghost predicate PhasesRise(t: seq<Event>) {
    if t == [] then true
    else
      var front, e := t[..|t| - 1], t[|t| - 1];
      PhasesRise(front) && (OfQos2(e) ==> NoneAbove(front, e))
  }

  /** Packets on an id in use are those of its owner or older ones, and a PUBREL
      was preceded by the acceptance of its PUBREC. */
  ghost predicate Latest(h: History) {
    forall e :: e in h.trace && OfQos2(e) ==>
      && (e.pid in h.owner ==> e.id <= h.owner[e.pid])
      && (e.packet.PubrelPacket? ==> Accepted(e.id) in h.trace)
      && (e.id in h.ops ==> h.ops[e.id].pid == e.pid)
  }

  /** The packets of a live operation are of its kind and on its packet id. */
  ghost predicate Labelled(h: History) {
    forall e :: e in h.trace && e.Handed? && e.id in h.ops ==>
      h.ops[e.id].kind == e.kind && h.ops[e.id].pid == e.pid
  }

  ghost predicate InPhase(h: History) {
    PhasesRise(h.trace) && Latest(h) && Labelled(h)
  }

  lemma PhasesAppend(t: seq<Event>, e: Event)
    ensures PhasesRise(t + [e]) <==> PhasesRise(t) && (OfQos2(e) ==> NoneAbove(t, e))
  {
    assert (t + [e])[..|t|] == t;
  }

  lemma LogsInPhase(h: History, e: Event, k: History)
    requires InPhase(h) && !e.Handed? && k == h.(trace := h.trace + [e])
    ensures InPhase(k)
  {
    PhasesAppend(h.trace, e);
  }

  lemma RetiresInPhase(h: History, k: History, e: Event)
    requires InPhase(h) && !e.Handed? && k.trace == h.trace + [e]
    requires forall pid :: pid in k.owner ==> pid in h.owner && k.owner[pid] == h.owner[pid]
    requires forall id :: id in k.ops ==> id in h.ops && k.ops[id] == h.ops[id]
    ensures InPhase(k)
  {
    PhasesAppend(h.trace, e);
  }

  lemma AdmitsInPhase(h: History, k: History, e: Event, pid: nat)
    requires InPhase(h) && Known(h.trace, h) && !e.Handed? && k.trace == h.trace + [e]
    requires k.owner == h.owner || k.owner == h.owner[pid := h.next]
    requires forall id :: id in k.ops && id != h.next ==> id in h.ops && k.ops[id] == h.ops[id]
    ensures InPhase(k)
  {
    PhasesAppend(h.trace, e);
  }

  /** A request of the owner of its packet id, in the phase the run shows. */
  ghost predicate Current(h: History, r: Request) {
    && r.item.op.id in h.ops && h.ops[r.item.op.id] == r.item.op
    && (r.item.op.kind.Qos2? ==>
         && r.item.op.pid in h.owner && h.owner[r.item.op.pid] == r.item.op.id
         && (r.item.stage.OnPublish? ==> Accepted(r.item.op.id) !in h.trace)
         && (r.item.stage.OnPubrel? ==> Accepted(r.item.op.id) in h.trace)
         && (r.item.stage.OnPublish? || r.item.stage.OnPubrel?))
  }

  lemma HandOnePhase(h: History, r: Request, k: History)
    requires InPhase(h) && Current(h, r) && k == h.(trace := h.trace + [HandedEvent(r)])
    ensures InPhase(k)
  {
    PhasesAppend(h.trace, HandedEvent(r));
  }

  lemma {:induction false} HandInPhase(h: History, s: seq<Request>, k: History)
    requires InPhase(h) && (forall r :: r in s ==> Current(h, r))
    requires k == h.(trace := h.trace + HandedEvents(s))
    ensures InPhase(k)
  {
    if s == [] {
      assert k.trace == h.trace;
    } else {
      var front, r := s[..|s| - 1], s[|s| - 1];
      var m := h.(trace := h.trace + HandedEvents(front));
      HandInPhase(h, front, m);
      HandedMembers(front);
      assert r in s && Current(m, r);
      HandOnePhase(m, r, k);
    }
  }

  lemma QueueIsCurrent(c: State, r: Request)
    requires Shaped(c) && IdsOk(c.h, c.inUse) && RequestFacts(c.h.trace, c.queue) && r in c.queue
    ensures Current(c.h, r)
  {
    assert RequestOk(c.h.ops, r);
    assert Facts(c.h.trace, r.item);
  }

  lemma PumpsInPhase(c: State, d: State, held: multiset<nat>)
    requires Placed(c, held) && RequestFacts(c.h.trace, c.queue) && InPhase(c.h) && d == Pump(c)
    ensures InPhase(d.h)
  {
    if d != c {
      assert d.h == c.h.(trace := c.h.trace + HandedEvents(d.batch));
      SplitKeeps(c.queue, c.quota);
      forall r | r in d.batch ensures Current(c.h, r) {
        QueueIsCurrent(c, r);
      }
      HandInPhase(c.h, d.batch, d.h);
    }
  }

  // ----- by position

  lemma {:induction false} PhasesAt(t: seq<Event>, i: nat, j: nat)
    requires PhasesRise(t) && i < j < |t| && OfQos2(t[i]) && OfQos2(t[j]) && t[i].pid == t[j].pid
    ensures Phase(t[i]) <= Phase(t[j])
  {
    var front := t[..|t| - 1];
    if j == |t| - 1 {
      assert t[i] in front;
    } else {
      PhasesAt(front, i, j);
    }
  }

  lemma {:induction false} PhasesBefore(t: seq<Event>, i: nat)
    requires PhasesRise(t) && i < |t|
    ensures OfQos2(t[i]) ==> NoneAbove(t[..i], t[i])
  {
    if i < |t| - 1 {
      PhasesBefore(t[..|t| - 1], i);
      assert t[..|t| - 1][..i] == t[..i];
    }
  }
}
