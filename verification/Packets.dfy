/**
 The packets that both ends must agree on. The encoders are combinator
 expressions, the decoders parsers written apart from them; for each packet the
 decoder returns every field that was encoded.
 */
module Packets {
  import opened Varint
  import opened Properties
  import opened Encoders
  import Seqs

  datatype Option<T> = None | Some(value: T)

  // ----- property lists

  const UserProperty := Field(0x26, TPair, true)
  const ReasonString := Field(0x1f, TString, false)
  const SubscriptionIdentifier := Field(0x0b, TVarint, true)

  const ConnectFields: seq<Field> := [
    Field(0x11, TDword, false), Field(0x21, TWord, false), Field(0x27, TDword, false),
    Field(0x22, TWord, false), Field(0x19, TByte, false), Field(0x17, TByte, false),
    UserProperty, Field(0x15, TString, false), Field(0x16, TString, false)]

  const WillFields: seq<Field> := [
    Field(0x18, TDword, false), Field(0x01, TByte, false), Field(0x02, TDword, false),
    Field(0x03, TString, false), Field(0x08, TString, false), Field(0x09, TString, false),
    UserProperty]

  const PublishFields: seq<Field> := [
    Field(0x01, TByte, false), Field(0x02, TDword, false), Field(0x03, TString, false),
    Field(0x08, TString, false), Field(0x09, TString, false), SubscriptionIdentifier,
    Field(0x23, TWord, false), UserProperty]

  const AckFields: seq<Field> := [ReasonString, UserProperty]

  const SubscribeFields: seq<Field> := [SubscriptionIdentifier, UserProperty]

  lemma FieldsDistinct()
    ensures Distinct(ConnectFields) && Distinct(WillFields) && Distinct(PublishFields)
    ensures Distinct(AckFields) && Distinct(SubscribeFields)
  {
  }

  predicate PropsOk(fields: seq<Field>, r: Record) {
    RecordOk(fields, r) && |EncodeFields(fields, r)| <= MAX_VARINT
  }

  predicate Short(s: seq<byte>) { |s| < 0x1_0000 }

  function Bit(b: bool): nat { if b then 1 else 0 }

  /** A bit of a flag byte, counted from the least significant one. */
  predicate HasBit(flags: nat, weight: nat)
    requires weight > 0
  {
    flags / weight % 2 == 1
  }

  /** `conditional_parser` */
  function ParseIf<T>(c: bool, p: seq<byte> -> Parse<T>, s: seq<byte>): Parse<Option<T>> {
    if !c then Done(None, s)
    else
      var (x, rest) :- p(s);
      Done(Some(x), rest)
  }

  function Utf8(s: seq<byte>): Term { Array(s, true) }

  function Utf8If(s: Option<seq<byte>>): Term {
    if s.None? then Absent else Array(s.value, true)
  }

  lemma Utf8Back(s: seq<byte>, suffix: seq<byte>)
    requires Short(s)
    ensures ParsePrefixed(Encode(Utf8(s)) + suffix) == Done(s, suffix)
  {
    PrefixedRoundTrip(s, suffix);
  }

  lemma Utf8IfBack(s: Option<seq<byte>>, suffix: seq<byte>)
    requires s.Some? ==> Short(s.value)
    ensures ParseIf(s.Some?, ParsePrefixed, Encode(Utf8If(s)) + suffix) == Done(s, suffix)
  {
    if s.Some? {
      PrefixedRoundTrip(s.value, suffix);
    } else {
      assert Encode(Utf8If(s)) + suffix == suffix;
    }
  }

  lemma PropsBack(fields: seq<Field>, r: Record, suffix: seq<byte>)
    requires Distinct(fields) && PropsOk(fields, r)
    ensures ParseProps(fields, Encode(Props(fields, r, false)) + suffix) == Done(r, suffix)
  {
    PropsRoundTrip(fields, r, false, suffix);
  }

  // ----- PUBLISH

  datatype Publish = Publish(
    pid: nat, topic: seq<byte>, payload: seq<byte>, qos: nat, retain: bool, dup: bool, props: Record)

  predicate PublishOk(m: Publish) {
    && m.pid < 0x1_0000 && Short(m.topic) && m.qos <= 2 && PropsOk(PublishFields, m.props)
    && Size(PublishBody(m)) <= MAX_VARINT
  }

  function PublishFlags(m: Publish): nat
    requires m.qos <= 3
  {
    Bit(m.dup) * 8 + m.qos * 2 + Bit(m.retain)
  }

  function PublishControl(m: Publish): (b: byte)
    requires m.qos <= 3
    ensures b % 16 == PublishFlags(m) && b / 16 == 3
  {
    0x30 + PublishFlags(m)
  }

  function PublishId(m: Publish): Term { if m.qos == 0 then Absent else Int16(m.pid) }

  function PublishTail(m: Publish): Term {
    Both(Props(PublishFields, m.props, false), Array(m.payload, false))
  }

  function PublishBody(m: Publish): Term {
    Both(Utf8(m.topic), Both(PublishId(m), PublishTail(m)))
  }

  lemma PublishBytes(m: Publish)
    ensures Encode(PublishBody(m))
         == Encode(Utf8(m.topic)) + (Encode(PublishId(m)) + Encode(PublishTail(m)))
    ensures Encode(PublishTail(m)) == Encode(Props(PublishFields, m.props, false)) + m.payload
  {
    EncodeBoth(Utf8(m.topic), Both(PublishId(m), PublishTail(m)));
    EncodeBoth(PublishId(m), PublishTail(m));
  }

  /** `encode_publish` */
  function EncodePublish(m: Publish): seq<byte>
    requires m.qos <= 3
  {
    Encode(Packet(PublishControl(m), PublishBody(m)))
  }

  datatype PublishMessage = PublishMessage(
    topic: seq<byte>, pid: Option<nat>, flags: nat, props: Record, payload: seq<byte>)

  /** `decode_publish`, on the bytes that the Remaining Length delimits. */
  function DecodePublish(control: byte, s: seq<byte>): Parse<PublishMessage> {
    DecodeWith(control % 16, s)
  }

  function DecodeWith(flags: nat, s: seq<byte>): Parse<PublishMessage> {
    var qos := flags / 2 % 4;
    var (topic, s1) :- ParsePrefixed(s);
    var (pid, s2) :- ParseIf(qos != 0, ParseWord, s1);
    var (props, s3) :- ParseProps(PublishFields, s2);
    Done(PublishMessage(topic, pid, flags, props, s3), [])
  }

  lemma PublishRoundTrip(m: Publish, suffix: seq<byte>)
    requires PublishOk(m)
    ensures var body := Encode(PublishBody(m));
      && ParseHeader(EncodePublish(m) + suffix) == Done(Header(PublishControl(m), |body|), body + suffix)
      && DecodePublish(PublishControl(m), body)
         == Done(PublishMessage(m.topic, if m.qos == 0 then None else Some(m.pid), PublishFlags(m),
                                m.props, m.payload), [])
  {
    RemainingLength(PublishControl(m), PublishBody(m), suffix);
    PublishBack(m);
  }

  lemma PublishBack(m: Publish)
    requires PublishOk(m)
    ensures DecodeWith(PublishFlags(m), Encode(PublishBody(m)))
         == Done(PublishMessage(m.topic, if m.qos == 0 then None else Some(m.pid), PublishFlags(m),
                                m.props, m.payload), [])
  {
    PublishBytes(m);
    PublishFlagsBack(m);
    FieldsDistinct();
    var tail := Encode(PublishTail(m));
    Utf8Back(m.topic, Encode(PublishId(m)) + tail);
    PublishIdBack(m, tail);
    PropsBack(PublishFields, m.props, m.payload);
  }

  lemma PublishIdBack(m: Publish, suffix: seq<byte>)
    requires m.pid < 0x1_0000
    ensures ParseIf(m.qos != 0, ParseWord, Encode(PublishId(m)) + suffix)
         == Done(if m.qos == 0 then None else Some(m.pid), suffix)
  {
    if m.qos == 0 {
      assert Encode(PublishId(m)) + suffix == suffix;
    } else {
      WordRoundTrip(m.pid, suffix);
    }
  }

  /** The flag bits of the control byte give back DUP, QoS and RETAIN. */
  lemma PublishFlagsBack(m: Publish)
    requires m.qos <= 3
    ensures var f := PublishFlags(m);
      f < 16 && (HasBit(f, 8) <==> m.dup) && f / 2 % 4 == m.qos && (HasBit(f, 1) <==> m.retain)
  {
  }

  /** `control_packet::set_dup`: bit 3 of the first byte is set. */
  function SetDup(packet: seq<byte>): seq<byte>
    requires packet != []
  {
    packet[0 := if HasBit(packet[0], 8) then packet[0] else packet[0] + 8]
  }

  /** Setting the bit gives byte for byte the packet encoded with DUP, and once
      set it stays. */
  lemma SetDupIsEncoding(m: Publish)
    requires m.qos <= 3
    ensures EncodePublish(m) != []
    ensures SetDup(EncodePublish(m)) == EncodePublish(m.(dup := true))
  {
    PublishFlagsBack(m);
    var d := m.(dup := true);
    assert PublishBody(d) == PublishBody(m);
    PacketBytes(PublishControl(m), PublishBody(m));
    PacketBytes(PublishControl(d), PublishBody(m));
  }

  // ----- PUBACK, PUBREC, PUBREL, PUBCOMP

  datatype Ack = Ack(pid: nat, reason: byte, props: Record)

  predicate AckOk(a: Ack) {
    a.pid < 0x1_0000 && PropsOk(AckFields, a.props) && Size(AckBody(a)) <= MAX_VARINT
  }

  function AckBody(a: Ack): Term {
    Both(Int16(a.pid), Both(Byte(a.reason), Props(AckFields, a.props, true)))
  }

  datatype AckType = Puback | Pubrec | Pubrel | Pubcomp

  function AckControl(t: AckType): byte {
    match t
    case Puback => 0x40
    case Pubrec => 0x50
    case Pubrel => 0x62
    case Pubcomp => 0x70
  }

  /** `encode_puback` and its three siblings, told apart by the control byte. */
  function EncodeAck(t: AckType, a: Ack): seq<byte> {
    Encode(Packet(AckControl(t), AckBody(a)))
  }

  /** `decode_puback` and its siblings, on the bytes after the packet id; an
      empty rest means success without properties. */
  function DecodeAck(s: seq<byte>): Parse<(nat, Record)> {
    if s == [] then Done((0, Nothing(AckFields)), [])
    else
      var (reason, s1) :- ParseByte(s);
      var (props, s2) :- ParseProps(AckFields, s1);
      Done((reason, props), s2)
  }

  lemma AckRoundTrip(t: AckType, a: Ack, suffix: seq<byte>)
    requires AckOk(a)
    ensures var body := Encode(AckBody(a));
      && ParseHeader(EncodeAck(t, a) + suffix) == Done(Header(AckControl(t), |body|), body + suffix)
      && ParseWord(body).Done? && ParseWord(body).value == a.pid
      && DecodeAck(ParseWord(body).rest) == Done((a.reason as nat, a.props), [])
  {
    RemainingLength(AckControl(t), AckBody(a), suffix);
    FieldsDistinct();
    var props := EncodeProps(AckFields, a.props, true);
    var s := [a.reason] + props;
    EncodeBoth(Byte(a.reason), Props(AckFields, a.props, true));
    WordRoundTrip(a.pid, s);
    assert Encode(AckBody(a)) == Word(a.pid) + s;
    ByteBack(a.reason, props);
    PropsRoundTrip(AckFields, a.props, true, []);
    assert props + [] == props;
  }

  /** An acknowledgement may end behind its packet id, which means success, or behind
      its reason code; it then has no properties. */
  lemma ShortAcks(t: AckType, pid: nat, reason: byte)
    requires pid < 0x1_0000
    ensures var s := [AckControl(t), 0x02, pid / 256, pid % 256];
      ParseHeader(s) == Done(Header(AckControl(t), 2), s[2..]) && ParseWord(s[2..]) == Done(pid, [])
    ensures var s := [AckControl(t), 0x03, pid / 256, pid % 256, reason];
      ParseHeader(s) == Done(Header(AckControl(t), 3), s[2..]) && ParseWord(s[2..]) == Done(pid, [reason])
    ensures DecodeAck([]) == Done((0, [[], []]), []) && DecodeAck([reason]) == Done((reason as nat, [[], []]), [])
  {
    assert Nothing(AckFields) == [[], []];
    assert [reason][1..] == [];
    var two, three := [AckControl(t), 0x02, pid / 256, pid % 256], [AckControl(t), 0x03, pid / 256, pid % 256, reason];
    assert two[2..] == [pid / 256, pid % 256] && three[2..] == [pid / 256, pid % 256, reason];
    assert two[1..][1..] == two[2..] && three[1..][1..] == three[2..];
    assert two[2..][2..] == [] && three[2..][2..] == [reason];
  }

  // ----- SUBSCRIBE

  datatype Topic = Topic(filter: seq<byte>, retainHandling: nat, retainAsPublished: bool, noLocal: bool, maxQos: nat)

  datatype Subscribe = Subscribe(pid: nat, topics: seq<Topic>, props: Record)

  predicate TopicOk(t: Topic) { Short(t.filter) && t.retainHandling < 4 && t.maxQos < 4 }

  predicate SubscribeOk(m: Subscribe) {
    && m.pid < 0x1_0000 && m.topics != [] && PropsOk(SubscribeFields, m.props)
    && (forall t :: t in m.topics ==> TopicOk(t))
    && Size(SubscribeHead(m)) + TopicsSize(m.topics) <= MAX_VARINT
  }

  function Options(t: Topic): (b: byte)
    requires TopicOk(t)
  {
    t.retainHandling * 16 + Bit(t.retainAsPublished) * 8 + Bit(t.noLocal) * 4 + t.maxQos
  }

  /** Each option can be read off the packed byte. */
  lemma OptionsBack(t: Topic)
    requires TopicOk(t)
    ensures var b := Options(t);
      && b / 16 == t.retainHandling && (HasBit(b, 8) <==> t.retainAsPublished)
      && (HasBit(b, 4) <==> t.noLocal) && b % 4 == t.maxQos
  {
  }

  function SubscribeHead(m: Subscribe): Term {
    Both(Int16(m.pid), Props(SubscribeFields, m.props, false))
  }

  function TopicsSize(ts: seq<Topic>): nat {
    if ts == [] then 0 else (2 + |ts[0].filter| + 1) + TopicsSize(ts[1..])
  }

  function TopicBytes(t: Topic): seq<byte>
    requires TopicOk(t)
  {
    Prefixed(t.filter) + [Options(t)]
  }

  function TopicsBytes(ts: seq<Topic>): seq<byte>
    requires forall t :: t in ts ==> TopicOk(t)
  {
    if ts == [] then [] else TopicBytes(ts[0]) + TopicsBytes(ts[1..])
  }

  lemma {:induction false} TopicsSizeLaw(ts: seq<Topic>)
    requires forall t :: t in ts ==> TopicOk(t)
    ensures |TopicsBytes(ts)| == TopicsSize(ts)
  {
    if ts != [] { TopicsSizeLaw(ts[1..]); }
  }

  /** The whole packet; the payload counts towards the Remaining Length. */
  function SubscribeBytes(m: Subscribe): seq<byte>
    requires forall t :: t in m.topics ==> TopicOk(t)
  {
    [0x82] + (VarBytes(Size(SubscribeHead(m)) + TopicsSize(m.topics))
              + (Encode(SubscribeHead(m)) + TopicsBytes(m.topics)))
  }

  method PayloadSize(ts: seq<Topic>) returns (n: nat)
    ensures n == TopicsSize(ts)
  {
    n := 0;
    var i := 0;
    while i < |ts|
      invariant 0 <= i <= |ts| && n + TopicsSize(ts[i..]) == TopicsSize(ts)
    {
      assert ts[i..][1..] == ts[i + 1..];
      n := n + 2 + |ts[i].filter| + 1;
      i := i + 1;
    }
  }

  method AppendTopics(head: seq<byte>, ts: seq<Topic>) returns (s: seq<byte>)
    requires forall t :: t in ts ==> TopicOk(t)
    ensures s == head + TopicsBytes(ts)
  {
    s := head;
    var i := 0;
    while i < |ts|
      invariant 0 <= i <= |ts| && s + TopicsBytes(ts[i..]) == head + TopicsBytes(ts)
    {
      assert ts[i..][1..] == ts[i + 1..];
      Seqs.Assoc(s, TopicBytes(ts[i]), TopicsBytes(ts[i + 1..]));
      s := s + TopicBytes(ts[i]);
      i := i + 1;
    }
    assert s + TopicsBytes(ts[i..]) == s;
  }

  /** `encode_subscribe`: one loop sums the sizes, another appends the topics. */
  method EncodeSubscribe(m: Subscribe) returns (s: seq<byte>)
    requires forall t :: t in m.topics ==> TopicOk(t)
    ensures s == SubscribeBytes(m)
  {
    var size := PayloadSize(m.topics);
    var n, head := VarBytes(Size(SubscribeHead(m)) + size), Encode(SubscribeHead(m));
    s := AppendTopics([0x82] + (n + head), m.topics);
    Seqs.Assoc([0x82], n + head, TopicsBytes(m.topics));
    Seqs.Assoc(n, head, TopicsBytes(m.topics));
  }

  function ParseTopic(s: seq<byte>): Parse<(seq<byte>, nat)> {
    var (filter, s1) :- ParsePrefixed(s);
    var (options, s2) :- ParseByte(s1);
    Done((filter, options), s2)
  }

  /** As many topics as can be read. */
  function ParseTopics(s: seq<byte>): (seq<(seq<byte>, nat)>, seq<byte>)
    decreases |s|
  {
    var p := ParseTopic(s);
    if p.Fail? || |p.rest| >= |s| then ([], s)
    else
      var (more, rest) := ParseTopics(p.rest);
      ([p.value] + more, rest)
  }

  /** `decode_subscribe`, on the bytes after the packet id: at least one topic. */
  function DecodeSubscribe(s: seq<byte>): Parse<(Record, seq<(seq<byte>, nat)>)> {
    var (props, s1) :- ParseProps(SubscribeFields, s);
    var (topics, rest) := ParseTopics(s1);
    if topics == [] then Fail else Done((props, topics), rest)
  }

  function Decoded(ts: seq<Topic>): seq<(seq<byte>, nat)>
    requires forall t :: t in ts ==> TopicOk(t)
  {
    if ts == [] then [] else [(ts[0].filter, Options(ts[0]) as nat)] + Decoded(ts[1..])
  }

  lemma TopicBack(t: Topic, suffix: seq<byte>)
    requires TopicOk(t)
    ensures ParseTopic(TopicBytes(t) + suffix) == Done((t.filter, Options(t) as nat), suffix)
  {
    Seqs.Assoc(Prefixed(t.filter), [Options(t)], suffix);
    PrefixedRoundTrip(t.filter, [Options(t)] + suffix);
    ByteBack(Options(t), suffix);
  }

  lemma {:induction false} TopicsBack(ts: seq<Topic>)
    requires forall t :: t in ts ==> TopicOk(t)
    ensures ParseTopics(TopicsBytes(ts)) == (Decoded(ts), [])
  {
    if ts != [] {
      TopicBack(ts[0], TopicsBytes(ts[1..]));
      TopicsBack(ts[1..]);
    }
  }

  lemma SubscribeRoundTrip(m: Subscribe, suffix: seq<byte>)
    requires SubscribeOk(m)
    ensures var body := Encode(SubscribeHead(m)) + TopicsBytes(m.topics);
      && ParseHeader(SubscribeBytes(m) + suffix) == Done(Header(0x82, |body|), body + suffix)
      && ParseWord(body).Done? && ParseWord(body).value == m.pid
      && DecodeSubscribe(ParseWord(body).rest) == Done((m.props, Decoded(m.topics)), [])
  {
    var head, tail := Encode(SubscribeHead(m)), TopicsBytes(m.topics);
    SizeLaw(SubscribeHead(m));
    TopicsSizeLaw(m.topics);
    HeaderBack(0x82, head + tail, suffix);
    SubscribeBack(m);
  }

  lemma SubscribeBack(m: Subscribe)
    requires SubscribeOk(m)
    ensures var p := ParseWord(Encode(SubscribeHead(m)) + TopicsBytes(m.topics));
      p.Done? && p.value == m.pid && DecodeSubscribe(p.rest) == Done((m.props, Decoded(m.topics)), [])
  {
    FieldsDistinct();
    var props, tail := Encode(Props(SubscribeFields, m.props, false)), TopicsBytes(m.topics);
    EncodeBoth(Int16(m.pid), Props(SubscribeFields, m.props, false));
    Seqs.Assoc(Word(m.pid), props, tail);
    WordRoundTrip(m.pid, props + tail);
    PropsBack(SubscribeFields, m.props, tail);
    TopicsBack(m.topics);
  }

  // ----- CONNECT

  datatype Will = Will(topic: seq<byte>, message: seq<byte>, qos: nat, retain: bool, props: Record)

  datatype Connect = Connect(
    clientId: seq<byte>, userName: Option<seq<byte>>, password: Option<seq<byte>>,
    keepAlive: nat, cleanStart: bool, props: Record, will: Option<Will>)

  const Mqtt: seq<byte> := [0x4d, 0x51, 0x54, 0x54]

  predicate WillOk(w: Will) {
    Short(w.topic) && Short(w.message) && w.qos < 4 && PropsOk(WillFields, w.props)
  }

  predicate ConnectOk(c: Connect) {
    && Short(c.clientId) && c.keepAlive < 0x1_0000 && PropsOk(ConnectFields, c.props)
    && (c.userName.Some? ==> Short(c.userName.value)) && (c.password.Some? ==> Short(c.password.value))
    && (c.will.Some? ==> WillOk(c.will.value))
    && Size(ConnectBody(c)) <= MAX_VARINT
  }

  function ConnectFlags(c: Connect): (f: nat)
    requires c.will.Some? ==> c.will.value.qos < 4
    ensures f < 256
  {
    Bit(c.userName.Some?) * 128 + Bit(c.password.Some?) * 64
    + (if c.will.Some? then Bit(c.will.value.retain) * 32 + c.will.value.qos * 8 + 4 else 0)
    + Bit(c.cleanStart) * 2
  }

  /** Every flag can be read off the packed byte. */
  lemma ConnectFlagsBack(c: Connect)
    requires c.will.Some? ==> c.will.value.qos < 4
    ensures var f := ConnectFlags(c);
      && (HasBit(f, 128) <==> c.userName.Some?) && (HasBit(f, 64) <==> c.password.Some?)
      && (HasBit(f, 4) <==> c.will.Some?) && (HasBit(f, 2) <==> c.cleanStart)
      && (c.will.Some? ==> (HasBit(f, 32) <==> c.will.value.retain) && f / 8 % 4 == c.will.value.qos)
  {
    var user, password, clean := Bit(c.userName.Some?), Bit(c.password.Some?), Bit(c.cleanStart);
    var retain := if c.will.Some? then Bit(c.will.value.retain) else 0;
    var qos := if c.will.Some? then c.will.value.qos else 0;
    FlagDigits(user, password, retain, qos, Bit(c.will.Some?), clean);
  }

  lemma FlagDigits(user: nat, password: nat, retain: nat, qos: nat, will: nat, clean: nat)
    requires user < 2 && password < 2 && retain < 2 && qos < 4 && will < 2 && clean < 2
    ensures var f := user * 128 + password * 64 + (retain * 32 + qos * 8 + will * 4) + clean * 2;
      && f / 128 % 2 == user && f / 64 % 2 == password && f / 32 % 2 == retain
      && f / 8 % 4 == qos && f / 4 % 2 == will && f / 2 % 2 == clean
  {
    High(0, user, password * 64 + retain * 32 + qos * 8 + will * 4 + clean * 2);
    Middle(user * 2, password, retain * 32 + qos * 8 + will * 4 + clean * 2);
    Retains(user * 4 + password * 2, retain, qos * 8 + will * 4 + clean * 2);
    Quality(user * 4 + password * 2 + retain, qos, will * 4 + clean * 2);
    Low(user * 16 + password * 8 + retain * 4 + qos, will, clean);
  }

  /** Bit 7 of a byte, and likewise bit 6, bit 5, and the bits below. */
  lemma High(k: nat, bit: nat, low: nat)
    requires bit < 2 && low < 128
    ensures ((2 * k + bit) * 128 + low) / 128 % 2 == bit
  {
  }

  lemma Middle(k: nat, bit: nat, low: nat)
    requires bit < 2 && low < 64
    ensures ((k + bit) * 64 + low) / 64 == k + bit
  {
  }

  lemma Retains(k: nat, bit: nat, low: nat)
    requires bit < 2 && low < 32
    ensures ((k + bit) * 32 + low) / 32 == k + bit
  {
  }

  lemma Quality(k: nat, two: nat, low: nat)
    requires two < 4 && low < 8
    ensures ((4 * k + two) * 8 + low) / 8 == 4 * k + two
  {
  }

  lemma Low(k: nat, four: nat, one: nat)
    requires four < 2 && one < 2
    ensures ((2 * k + four) * 4 + one * 2) / 4 == 2 * k + four
    ensures ((2 * k + four) * 4 + one * 2) / 2 == 2 * (2 * k + four) + one
  {
  }

  function WillTerm(w: Option<Will>): Term {
    if w.None? then Absent
    else Both(Props(WillFields, w.value.props, false), Both(Utf8(w.value.topic), Utf8(w.value.message)))
  }

  function PayloadTerm(c: Connect): Term {
    Both(Utf8(c.clientId), Both(WillTerm(c.will), Both(Utf8If(c.userName), Utf8If(c.password))))
  }

  function ConnectBody(c: Connect): Term
    requires c.will.Some? ==> c.will.value.qos < 4
  {
    Both(Utf8(Mqtt), Both(Byte(5), Both(Flags(ConnectFlags(c)),
      Both(Int16(c.keepAlive), Both(Props(ConnectFields, c.props, false), PayloadTerm(c))))))
  }

  /** `encode_connect` */
  function EncodeConnect(c: Connect): seq<byte>
    requires c.will.Some? ==> c.will.value.qos < 4
  {
    Encode(Packet(0x10, ConnectBody(c)))
  }

  function ParseWill(flags: nat, s: seq<byte>): Parse<Option<Will>> {
    if !HasBit(flags, 4) then Done(None, s)
    else
      var (props, s1) :- ParseProps(WillFields, s);
      var (topic, s2) :- ParsePrefixed(s1);
      var (message, s3) :- ParsePrefixed(s2);
      Done(Some(Will(topic, message, flags / 8 % 4, HasBit(flags, 32), props)), s3)
  }

  function ParsePayload(flags: nat, keepAlive: nat, props: Record, s: seq<byte>): Parse<Connect> {
    var (clientId, s1) :- ParsePrefixed(s);
    var (w, s2) :- ParseWill(flags, s1);
    var (userName, s3) :- ParseIf(HasBit(flags, 128), ParsePrefixed, s2);
    var (password, s4) :- ParseIf(HasBit(flags, 64), ParsePrefixed, s3);
    Done(Connect(clientId, userName, password, keepAlive, HasBit(flags, 2), props, w), s4)
  }

  /** `decode_connect`, on the bytes that the Remaining Length delimits. */
  function DecodeConnect(s: seq<byte>): Parse<Connect> {
    var (name, s1) :- ParsePrefixed(s);
    var (version, s2) :- ParseByte(s1);
    var (flags, s3) :- ParseByte(s2);
    var (keepAlive, s4) :- ParseWord(s3);
    var (props, s5) :- ParseProps(ConnectFields, s4);
    if name != Mqtt || version != 5 then Fail else ParsePayload(flags, keepAlive, props, s5)
  }

  lemma WillBytes(w: Will, suffix: seq<byte>)
    ensures Encode(WillTerm(Some(w))) + suffix
         == Encode(Props(WillFields, w.props, false))
            + (Encode(Utf8(w.topic)) + (Encode(Utf8(w.message)) + suffix))
  {
    var p, t, m := Encode(Props(WillFields, w.props, false)), Encode(Utf8(w.topic)), Encode(Utf8(w.message));
    EncodeBoth(Utf8(w.topic), Utf8(w.message));
    EncodeBoth(Props(WillFields, w.props, false), Both(Utf8(w.topic), Utf8(w.message)));
    Seqs.Assoc(p, t + m, suffix);
    Seqs.Assoc(t, m, suffix);
  }

  lemma WillBack(c: Connect, suffix: seq<byte>)
    requires c.will.Some? ==> WillOk(c.will.value)
    ensures ParseWill(ConnectFlags(c), Encode(WillTerm(c.will)) + suffix) == Done(c.will, suffix)
  {
    ConnectFlagsBack(c);
    if c.will.None? {
      assert Encode(WillTerm(c.will)) + suffix == suffix;
    } else {
      var w := c.will.value;
      FieldsDistinct();
      var t, m := Encode(Utf8(w.topic)), Encode(Utf8(w.message));
      WillBytes(w, suffix);
      PropsBack(WillFields, w.props, t + (m + suffix));
      Utf8Back(w.topic, m + suffix);
      Utf8Back(w.message, suffix);
    }
  }

  lemma PayloadBytes(c: Connect)
    ensures Encode(PayloadTerm(c))
         == Encode(Utf8(c.clientId)) + (Encode(WillTerm(c.will))
            + (Encode(Utf8If(c.userName)) + Encode(Utf8If(c.password))))
  {
    EncodeBoth(Utf8If(c.userName), Utf8If(c.password));
    EncodeBoth(WillTerm(c.will), Both(Utf8If(c.userName), Utf8If(c.password)));
    EncodeBoth(Utf8(c.clientId), Both(WillTerm(c.will), Both(Utf8If(c.userName), Utf8If(c.password))));
  }

  lemma PayloadBack(c: Connect)
    requires ConnectOk(c)
    ensures ParsePayload(ConnectFlags(c), c.keepAlive, c.props, Encode(PayloadTerm(c))) == Done(c, [])
  {
    ConnectFlagsBack(c);
    PayloadBytes(c);
    var u, p := Encode(Utf8If(c.userName)), Encode(Utf8If(c.password));
    Utf8Back(c.clientId, Encode(WillTerm(c.will)) + (u + p));
    WillBack(c, u + p);
    Utf8IfBack(c.userName, p);
    Utf8IfBack(c.password, []);
    assert p + [] == p;
  }

  lemma ConnectBack(c: Connect)
    requires ConnectOk(c)
    ensures DecodeConnect(Encode(ConnectBody(c))) == Done(c, [])
  {
    FieldsDistinct();
    var load := Encode(PayloadTerm(c));
    var s4 := Encode(Props(ConnectFields, c.props, false)) + load;
    var s3 := Word(c.keepAlive) + s4;
    var flags: byte := ConnectFlags(c);
    var s1 := [5] + ([flags] + s3);
    ConnectBytes(c, s3, s4);
    Utf8Back(Mqtt, s1);
    ByteBack(5, [flags] + s3);
    ByteBack(flags, s3);
    WordRoundTrip(c.keepAlive, s4);
    PropsBack(ConnectFields, c.props, load);
    PayloadBack(c);
  }

  lemma ConnectBytes(c: Connect, s3: seq<byte>, s4: seq<byte>)
    requires c.will.Some? ==> c.will.value.qos < 4
    requires s4 == Encode(Props(ConnectFields, c.props, false)) + Encode(PayloadTerm(c))
    requires s3 == Word(c.keepAlive) + s4
    ensures Encode(ConnectBody(c)) == Encode(Utf8(Mqtt)) + ([5] + ([ConnectFlags(c)] + s3))
  {
    var t4 := Both(Props(ConnectFields, c.props, false), PayloadTerm(c));
    var t3 := Both(Int16(c.keepAlive), t4);
    var t2 := Both(Flags(ConnectFlags(c)), t3);
    EncodeBoth(Props(ConnectFields, c.props, false), PayloadTerm(c));
    EncodeBoth(Int16(c.keepAlive), t4);
    EncodeBoth(Flags(ConnectFlags(c)), t3);
    EncodeBoth(Byte(5), t2);
    EncodeBoth(Utf8(Mqtt), Both(Byte(5), t2));
  }

  lemma ConnectRoundTrip(c: Connect, suffix: seq<byte>)
    requires ConnectOk(c)
    ensures var body := Encode(ConnectBody(c));
      && ParseHeader(EncodeConnect(c) + suffix) == Done(Header(0x10, |body|), body + suffix)
      && DecodeConnect(body) == Done(c, [])
  {
    RemainingLength(0x10, ConnectBody(c), suffix);
    ConnectBack(c);
  }

  /** Another protocol or another version is not decoded. */
  lemma OtherProtocolFails(name: seq<byte>, version: byte, rest: seq<byte>)
    requires Short(name) && (name != [0x4d, 0x51, 0x54, 0x54] || version != 5)
    ensures DecodeConnect(Prefixed(name) + ([version] + rest)) == Fail
  {
    PrefixedRoundTrip(name, [version] + rest);
    ByteBack(version, rest);
  }
}
