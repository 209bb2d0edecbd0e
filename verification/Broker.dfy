/**
 A broker that follows section 4.3.3 of MQTT 5.0 for QoS 2 and keeps its
 session: it remembers the packet ids whose PUBLISH it has taken over, and a
 PUBLISH on such an id is a duplicate. Against it every run of the client
 forwards each message at most once, whatever packets are lost on the way and
 whatever the broker or anyone else replies.
 */
module Broker {
  import opened Client
  import opened Traffic
  import opened Theorems

  datatype Message = Message(op: nat, pid: nat)

  datatype Session = Session(received: set<nat>, forwarded: seq<Message>)

  /** What becomes of a packet on its way. */
  datatype Fate = Lost | Arrives(accept: bool)

  function Arrive(b: Session, e: Event, accept: bool): Session {
    if !OfQos2(e) then b
    else if e.packet.PubrelPacket? then b.(received := b.received - {e.pid})
    else if e.pid in b.received || !accept then b
    else Session(b.received + {e.pid}, b.forwarded + [Message(e.id, e.pid)])
  }

  /** The broker's session after a run, with a fate for each of its events. */
  function Meets(t: seq<Event>, fates: seq<Fate>): Session
    requires |fates| == |t|
  {
    if t == [] then Session({}, [])
    else
      var b := Meets(t[..|t| - 1], fates[..|t| - 1]);
      if fates[|t| - 1].Lost? then b else Arrive(b, t[|t| - 1], fates[|t| - 1].accept)
  }

  /** The phase of the last packet on each id that made a difference. */
  function LastPhase(b: Session, last: map<nat, nat>, e: Event, accept: bool): map<nat, nat> {
    if !OfQos2(e) then last
    else if e.packet.PubrelPacket? || e.pid in b.received || accept then last[e.pid := Phase(e)]
    else last
  }

  function Lasts(t: seq<Event>, fates: seq<Fate>): map<nat, nat>
    requires |fates| == |t|
  {
    if t == [] then map[]
    else
      var n := |t| - 1;
      var b, last := Meets(t[..n], fates[..n]), Lasts(t[..n], fates[..n]);
      if fates[n].Lost? then last else LastPhase(b, last, t[n], fates[n].accept)
  }

  ghost predicate SomePacket(t: seq<Event>, pid: nat, phase: nat) {
    exists f :: f in t && OfQos2(f) && f.pid == pid && Phase(f) == phase
  }

  ghost predicate SomePublish(t: seq<Event>, m: Message) {
    exists f :: f in t && OfQos2(f) && f.pid == m.pid && f.id == m.op
  }

  ghost predicate NoRepeats(s: seq<Message>) {
    forall i, j :: 0 <= i < j < |s| ==> s[i].op != s[j].op
  }

  /** The session, read against the last phases. */
  ghost predicate Agrees(t: seq<Event>, b: Session, last: map<nat, nat>) {
    && (forall p :: p in b.received <==> p in last && last[p] % 2 == 0)
    && (forall p :: p in last ==> SomePacket(t, p, last[p]))
    && (forall m :: m in b.forwarded ==> m.pid in last && 2 * m.op <= last[m.pid] && SomePublish(t, m))
    && NoRepeats(b.forwarded)
  }

  lemma Lengthen(t: seq<Event>, e: Event, b: Session, last: map<nat, nat>)
    requires Agrees(t, b, last)
    ensures Agrees(t + [e], b, last)
  {
    forall p | p in last ensures SomePacket(t + [e], p, last[p]) {
      var f :| f in t && OfQos2(f) && f.pid == p && Phase(f) == last[p];
      assert f in t + [e];
    }
    forall m | m in b.forwarded ensures SomePublish(t + [e], m) {
      var f :| f in t && OfQos2(f) && f.pid == m.pid && f.id == m.op;
      assert f in t + [e];
    }
  }

  lemma NewMessage(t: seq<Event>, e: Event, b: Session, last: map<nat, nat>)
    requires Agrees(t, b, last) && OfQos2(e) && NoneAbove(t, e)
    requires !e.packet.PubrelPacket? && e.pid !in b.received
    ensures forall m :: m in b.forwarded ==> m.op != e.id
  {
  }

  lemma ArriveAgrees(t: seq<Event>, e: Event, b: Session, last: map<nat, nat>, accept: bool)
    requires Agrees(t, b, last) && (OfQos2(e) ==> NoneAbove(t, e))
    ensures Agrees(t + [e], Arrive(b, e, accept), LastPhase(b, last, e, accept))
  {
    Lengthen(t, e, b, last);
    if OfQos2(e) {
      assert e in t + [e];
      assert SomePacket(t + [e], e.pid, Phase(e));
      if e.pid in last {
        var g :| g in t && OfQos2(g) && g.pid == e.pid && Phase(g) == last[e.pid];
        assert last[e.pid] <= Phase(e);
      }
      if !e.packet.PubrelPacket? && e.pid !in b.received && accept {
        NewMessage(t, e, b, last);
        assert SomePublish(t + [e], Message(e.id, e.pid));
      }
    }
  }

  lemma {:induction false} MeetsAgrees(t: seq<Event>, fates: seq<Fate>)
    requires PhasesRise(t) && |fates| == |t|
    ensures Agrees(t, Meets(t, fates), Lasts(t, fates))
  {
    if t != [] {
      var n := |t| - 1;
      MeetsAgrees(t[..n], fates[..n]);
      assert t == t[..n] + [t[n]];
      var b, last := Meets(t[..n], fates[..n]), Lasts(t[..n], fates[..n]);
      if fates[n].Lost? {
        Lengthen(t[..n], t[n], b, last);
      } else {
        ArriveAgrees(t[..n], t[n], b, last, fates[n].accept);
      }
    }
  }

  /** QoS 2 at most once, in every run. */
  lemma AtMostOnce(c: State, fates: seq<Fate>)
    requires Reachable(c) && |fates| == |c.h.trace|
    ensures NoRepeats(Meets(c.h.trace, fates).forwarded)
  {
    ReachableKeeps(c);
    MeetsAgrees(c.h.trace, fates);
  }
}
