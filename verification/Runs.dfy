/**
 Runs of the client, read off their events alone: which operations are in
 flight, whether the span since the last resend was undisturbed, and the
 properties of a run that the client is proved to have.
 */
module Runs {
  import opened Requests
  import opened Client

  /** Since the last effective resend no acknowledgement was malformed and
      nothing was cancelled; nor was anything cancelled or half answered then. */
  predicate Tidy(t: seq<Event>) {
    if t == [] then true
    else match t[|t| - 1]
      case Epoch(tidy, _, _) => tidy
      case Returned(_) => false
      case Disturbed => false
      case Stopped => false
      case _ => Tidy(t[..|t| - 1])
  }

  /** At the last effective resend no QoS 1 or QoS 2 operation had a reply posted
      to it. */
  predicate Unanswered(t: seq<Event>) {
    if t == [] then true
    else match t[|t| - 1]
      case Epoch(_, _, unanswered) => unanswered
      case _ => Unanswered(t[..|t| - 1])
  }

  /** Operations whose packet a malformed acknowledgement has put back in the queue
      since the last effective resend, and that have not ended. */
  function Returns(t: seq<Event>): set<nat> {
    if t == [] then {} else ReturnsAfter(Returns(t[..|t| - 1]), t[|t| - 1])
  }

  function ReturnsAfter(s: set<nat>, e: Event): set<nat> {
    if e.Epoch? then {}
    else if e.Returned? then s + {e.id}
    else if e.Finished? then s - {e.id}
    else s
  }

  /** None of the packets put back has been handed over yet. */
  predicate NoneReturned(t: seq<Event>) {
    if t == [] then true
    else
      var front, e := t[..|t| - 1], t[|t| - 1];
      e.Epoch? || (NoneReturned(front) && (e.Handed? && e.throttled ==> e.id !in Returns(front)))
  }

  /** The packets put back that have been handed over came behind none that they
      should precede. */
  predicate BackInTurn(t: seq<Event>) {
    if t == [] then true
    else
      var front, e := t[..|t| - 1], t[|t| - 1];
      e.Epoch? || (BackInTurn(front) &&
        (e.Handed? && e.throttled && e.id in Returns(front) ==> AllBefore(Transmissions(front), RankOf(e))))
  }

  /** Since the last effective resend no throttled packet was handed over of an
      operation that was already in flight. */
  predicate NoneRepeated(t: seq<Event>) {
    if t == [] then true
    else
      var front, e := t[..|t| - 1], t[|t| - 1];
      e.Epoch? || (NoneRepeated(front) && (e.Handed? && e.throttled ==> e.id !in InFlight(front)))
  }

  /** At the last effective resend the serial numbers were in one window. */
  predicate Near(t: seq<Event>) {
    if t == [] then true
    else match t[|t| - 1]
      case Epoch(_, near, _) => near
      case _ => Near(t[..|t| - 1])
  }

  /** Operations whose throttled packet was handed to the transport since the
      last effective resend and that have not ended. */
  function InFlight(t: seq<Event>): set<nat> {
    if t == [] then {} else InFlightAfter(InFlight(t[..|t| - 1]), t[|t| - 1])
  }

  function InFlightAfter(s: set<nat>, e: Event): set<nat> {
    if e.Epoch? then {}
    else if e.Handed? && e.throttled then s + {e.id}
    else if e.Finished? then s - {e.id}
    else s
  }

  /** Shares of the quota lent since the last effective resend: one for every
      throttled packet handed over, less one for every QoS 1 or QoS 2 operation
      that ended. */
  function Lent(t: seq<Event>): int {
    if t == [] then 0 else LentAfter(Lent(t[..|t| - 1]), t[|t| - 1])
  }

  function LentAfter(n: int, e: Event): int {
    if e.Epoch? then 0
    else if e.Handed? && e.throttled then n + 1
    else if e.Finished? && e.kind.Metered() then n - 1
    else n
  }

  /** How far lending and flying have come apart: one up when an operation ends
      that is not in flight, one down when one in flight is sent again. */
  function Drift(t: seq<Event>): int {
    if t == [] then 0
    else DriftAfter(Drift(t[..|t| - 1]), InFlight(t[..|t| - 1]), t[|t| - 1])
  }

  function DriftAfter(n: int, flying: set<nat>, e: Event): int {
    if e.Epoch? then 0
    else if e.Handed? && e.throttled then (if e.id in flying then n - 1 else n)
    else if e.Finished? then
      n + (if e.kind.Metered() then 1 else 0) - (if e.id in flying then 1 else 0)
    else n
  }

  /** The 16-bit counter that the run leaves when it starts from `limit`. */
  function Counter(t: seq<Event>, limit: nat): int {
    if t == [] then limit else CounterAfter(Counter(t[..|t| - 1], limit), limit, t[|t| - 1])
  }

  function CounterAfter(n: int, limit: nat, e: Event): int {
    if e.Epoch? then limit
    else if e.Handed? && e.throttled then n - 1
    else if e.Finished? && e.kind.Metered() then (if n == 65535 then 0 else n + 1)
    else n
  }

  lemma CounterAppend(t: seq<Event>, limit: nat, e: Event)
    ensures Counter(t + [e], limit) == CounterAfter(Counter(t, limit), limit, e)
  {
    assert (t + [e])[..|t|] == t;
  }

  lemma LentAppend(t: seq<Event>, e: Event)
    ensures Lent(t + [e]) == LentAfter(Lent(t), e)
    ensures Drift(t + [e]) == DriftAfter(Drift(t), InFlight(t), e)
    ensures InFlight(t + [e]) == InFlightAfter(InFlight(t), e)
  {
    assert (t + [e])[..|t|] == t;
  }

  lemma ReturnsAppend(t: seq<Event>, e: Event)
    ensures Returns(t + [e]) == ReturnsAfter(Returns(t), e)
    ensures Unanswered(t + [e]) == if e.Epoch? then e.unanswered else Unanswered(t)
    ensures NoneReturned(t + [e]) == (e.Epoch? || (NoneReturned(t) &&
              (e.Handed? && e.throttled ==> e.id !in Returns(t))))
    ensures BackInTurn(t + [e]) == (e.Epoch? || (BackInTurn(t) &&
              (e.Handed? && e.throttled && e.id in Returns(t) ==> AllBefore(Transmissions(t), RankOf(e)))))
    ensures NoneRepeated(t + [e]) == (e.Epoch? || (NoneRepeated(t) &&
              (e.Handed? && e.throttled ==> e.id !in InFlight(t))))
  {
    assert (t + [e])[..|t|] == t;
  }

  /** Operations that were started and have not ended. */
  function Live(t: seq<Event>): set<nat> {
    if t == [] then {} else LiveAfter(Live(t[..|t| - 1]), t[|t| - 1])
  }

  function LiveAfter(s: set<nat>, e: Event): set<nat> {
    if e.Started? then s + {e.id} else if e.Finished? then s - {e.id} else s
  }

  lemma LiveAppend(t: seq<Event>, e: Event)
    ensures Live(t + [e]) == LiveAfter(Live(t), e)
  {
    assert (t + [e])[..|t|] == t;
  }

  /** A throttled transmission: of a PUBREL or of a PUBLISH, of which call. */
  datatype Rank = Rank(release: bool, id: nat)

  predicate Before(a: Rank, b: Rank) {
    if a.release != b.release then a.release else a.id < b.id
  }

  /** The throttled transmissions since the last effective resend. */
  function Transmissions(t: seq<Event>): set<Rank> {
    if t == [] then {} else TransmissionsAfter(Transmissions(t[..|t| - 1]), t[|t| - 1])
  }

  function TransmissionsAfter(s: set<Rank>, e: Event): set<Rank> {
    if e.Epoch? then {}
    else if e.Handed? && e.throttled then s + {RankOf(e)}
    else s
  }

  /** They were made in order, so each at most once: PUBRELs first, then
      PUBLISHes in the order of the publish calls. */
  predicate Orderly(t: seq<Event>) {
    if t == [] then true
    else
      var front, e := t[..|t| - 1], t[|t| - 1];
      e.Epoch? || (Orderly(front) && (e.Handed? && e.throttled ==> AllBefore(Transmissions(front), RankOf(e))))
  }

  function RankOf(e: Event): Rank
    requires e.Handed?
  {
    Rank(e.packet.PubrelPacket?, e.id)
  }

  predicate AllBefore(s: set<Rank>, b: Rank) {
    forall a :: a in s ==> Before(a, b)
  }

  /** Extending a run by one event. */
  lemma Append(t: seq<Event>, e: Event)
    ensures (t + [e])[..|t|] == t && (t + [e])[|t|] == e
    ensures Tidy(t + [e]) == if e.Epoch? then e.tidy else !e.Disturbed? && !e.Stopped? && !e.Returned? && Tidy(t)
    ensures Near(t + [e]) == if e.Epoch? then e.near else Near(t)
    ensures InFlight(t + [e]) == InFlightAfter(InFlight(t), e)
    ensures Transmissions(t + [e]) == TransmissionsAfter(Transmissions(t), e)
    ensures Orderly(t + [e]) == (e.Epoch? || (Orderly(t) &&
              (e.Handed? && e.throttled ==> AllBefore(Transmissions(t), RankOf(e)))))
  {
    assert (t + [e])[..|t|] == t;
  }

  // ----- properties of a whole run, in terms of positions

  predicate OfPublish(e: Event) { e.Handed? && e.packet.PublishPacket? }

  /** A PUBLISH carries DUP exactly when an earlier transmission of the same
      operation was reported written. */
  ghost predicate DupIsHonest(t: seq<Event>) {
    forall i :: 0 <= i < |t| && OfPublish(t[i]) ==>
      (t[i].dup <==> Written(t[i].id) in t[..i])
  }

  /** A PUBLISH is never sent again once its PUBREC was accepted. */
  ghost predicate ReleasedForGood(t: seq<Event>) {
    forall i :: 0 <= i < |t| && OfPublish(t[i]) ==> Accepted(t[i].id) !in t[..i]
  }

  /** The packets of `id` were handed over before position `k`, at least one of them. */
  ghost predicate SentBefore(t: seq<Event>, id: nat, k: nat) {
    && k <= |t|
    && (exists j :: 0 <= j < k && t[j].Handed? && t[j].id == id)
    && (forall j :: k <= j < |t| && t[j].Handed? ==> t[j].id != id)
  }

  /** A reply given to an operation was read after the write that carried the
      operation's latest packet had begun. */
  ghost predicate AnswersAreFresh(t: seq<Event>) {
    forall i :: 0 <= i < |t| && t[i].Answered? ==> SentBefore(t[..i], t[i].id, t[i].readAt)
  }

  /** No operation ends twice, so no packet id is freed twice for it. */
  ghost predicate EndsOnce(t: seq<Event>) {
    forall i :: 0 <= i < |t| && t[i].Finished? ==> !Ended(t[..i], t[i].id)
  }

  ghost predicate Ended(t: seq<Event>, id: nat) {
    exists e :: e in t && e.Finished? && e.id == id
  }

  /** A QoS 2 operation ends in success only after its PUBREC was accepted. */
  ghost predicate SuccessIsEarned(t: seq<Event>) {
    forall i :: 0 <= i < |t| && Succeeds(t[i]) ==> Accepted(t[i].id) in t[..i]
  }

  predicate OfPubrel(e: Event) { e.Handed? && e.packet.PubrelPacket? }

  /** A PUBREL is sent only after its PUBREC was accepted. */
  ghost predicate ReleasesInTurn(t: seq<Event>) {
    forall i :: 0 <= i < |t| && OfPubrel(t[i]) ==> Accepted(t[i].id) in t[..i]
  }

  /** Only PUBLISHes and PUBRELs are throttled. */
  ghost predicate FewThrottled(t: seq<Event>) {
    forall i :: 0 <= i < |t| && Throttled(t[i]) ==> t[i].packet.PublishPacket? || t[i].packet.PubrelPacket?
  }

  predicate Throttled(e: Event) { e.Handed? && e.throttled }

  predicate Succeeds(e: Event) { e.Finished? && e.kind.Qos2? && e.ending.Completed? }

  ghost predicate Good(t: seq<Event>) {
    DupIsHonest(t) && ReleasedForGood(t) && AnswersAreFresh(t) && EndsOnce(t) && SuccessIsEarned(t)
    && ReleasesInTurn(t) && FewThrottled(t)
  }

  /** What an event must satisfy to extend a good run. */
  ghost predicate Fitting(t: seq<Event>, e: Event) {
    && (OfPublish(e) ==> (e.dup <==> Written(e.id) in t) && Accepted(e.id) !in t)
    && (e.Answered? ==> SentBefore(t, e.id, e.readAt))
    && (e.Finished? ==> !Ended(t, e.id))
    && (Succeeds(e) ==> Accepted(e.id) in t)
    && (OfPubrel(e) ==> Accepted(e.id) in t)
    && (Throttled(e) ==> e.packet.PublishPacket? || e.packet.PubrelPacket?)
  }

  lemma GoodAppend(t: seq<Event>, e: Event)
    requires Good(t) && Fitting(t, e)
    ensures Good(t + [e])
  {
    var u := t + [e];
    assert forall i :: 0 <= i < |t| ==> u[..i] == t[..i] && u[i] == t[i];
    assert u[..|t|] == t;
  }
}
