/**
 What is on the wire, octet by octet, as MQTT 5.0 lays it down: numbers with the most
 significant octet first, lengths in front of strings, property identifiers by the
 numbers of section 2.2.2.2, and the layout of each packet. Nothing here goes through
 the constants that the encoders and the decoders share, so that the two cannot agree
 on anything else.
 */
module Wire {
  import opened Varint
  import opened Properties
  import opened Encoders
  import opened Packets
  import Seqs

  // ----- numbers and strings (section 1.5)

  function TwoOctets(n: nat): seq<byte>
    requires n < 65536
  {
    [n / 256, n % 256]
  }

  function FourOctets(n: nat): seq<byte>
    requires n < 4294967296
  {
    [n / 16777216, n / 65536 % 256, n / 256 % 256, n % 256]
  }

  /** Seven bits an octet, least significant first, with bit 7 set on all but the last. */
  function LengthOctets(n: nat): seq<byte>
    requires n < 268435456
  {
    if n < 128 then [n]
    else if n < 16384 then [n % 128 + 128, n / 128]
    else if n < 2097152 then [n % 128 + 128, n / 128 % 128 + 128, n / 16384]
    else [n % 128 + 128, n / 128 % 128 + 128, n / 16384 % 128 + 128, n / 2097152]
  }

  function Text(s: seq<byte>): seq<byte>
    requires |s| < 65536
  {
    TwoOctets(|s|) + s
  }

  lemma WordOctets(n: nat)
    requires n < 65536
    ensures Word(n) == TwoOctets(n)
  {
  }

  lemma DwordOctets(n: nat)
    requires n < 4294967296
    ensures Dword(n) == FourOctets(n)
  {
    var hi, lo := n / 65536, n % 65536;
    WordOctets(hi);
    WordOctets(lo);
    HighOctet(n);
    LowOctets(n);
  }

  lemma HighOctet(n: nat)
    ensures n / 65536 / 256 == n / 16777216
  {
  }

  lemma LowOctets(n: nat)
    ensures n % 65536 / 256 == n / 256 % 256 && n % 65536 % 256 == n % 256
  {
  }

  lemma VarintOctets(n: nat)
    requires n < 268435456
    ensures VarBytes(n) == LengthOctets(n)
  {
    Digits(n);
    if n > 127 {
      var a := n / 128;
      assert Base128(n) == [n % 128 + 128] + Base128(a);
      if a > 127 {
        var b := a / 128;
        assert Base128(a) == [a % 128 + 128] + Base128(b);
        if b > 127 { assert Base128(b) == [b % 128 + 128] + Base128(b / 128); }
      }
    }
  }

  lemma Digits(n: nat)
    ensures n / 128 / 128 == n / 16384 && n / 16384 / 128 == n / 2097152
  {
  }

  lemma TextOctets(s: seq<byte>)
    requires |s| < 65536
    ensures Prefixed(s) == Text(s)
  {
    var n := |s| % 0x1_0000;
    assert n == |s|;
    WordOctets(n);
  }

  // ----- properties (section 2.2.2)

  function ValueOctets(v: Value, t: Type): seq<byte>
    requires OfType(v, t)
  {
    match v
    case ByteV(n) => [n]
    case WordV(n) => TwoOctets(n)
    case DwordV(n) => FourOctets(n)
    case VarintV(n) => LengthOctets(n)
    case StringV(s) => Text(s)
    case PairV(name, value) => Text(name) + Text(value)
  }

  lemma ValueOnTheWire(v: Value, t: Type)
    requires OfType(v, t)
    ensures EncodeValue(v) == ValueOctets(v, t)
  {
    match v
    case ByteV(n) =>
    case WordV(n) => WordOctets(n);
    case DwordV(n) => DwordOctets(n);
    case VarintV(n) => VarintOctets(n);
    case StringV(s) => TextOctets(s);
    case PairV(a, b) =>
      TextOctets(a);
      TextOctets(b);
  }

  datatype Name =
    | PayloadFormatIndicator | MessageExpiryInterval | ContentType | ResponseTopic | CorrelationData
    | SubscriptionIdentifiers | SessionExpiryInterval | AuthenticationMethod | AuthenticationData
    | RequestProblemInformation | WillDelayInterval | RequestResponseInformation | Reason
    | ReceiveMaximum | TopicAliasMaximum | TopicAlias | UserProperties | MaximumPacketSize

  /** The identifiers of section 2.2.2.2, in decimal as there. */
  function Identifier(name: Name): byte {
    match name
    case PayloadFormatIndicator => 1
    case MessageExpiryInterval => 2
    case ContentType => 3
    case ResponseTopic => 8
    case CorrelationData => 9
    case SubscriptionIdentifiers => 11
    case SessionExpiryInterval => 17
    case AuthenticationMethod => 21
    case AuthenticationData => 22
    case RequestProblemInformation => 23
    case WillDelayInterval => 24
    case RequestResponseInformation => 25
    case Reason => 31
    case ReceiveMaximum => 33
    case TopicAliasMaximum => 34
    case TopicAlias => 35
    case UserProperties => 38
    case MaximumPacketSize => 39
  }

  function TypeOf(name: Name): Type {
    match name
    case PayloadFormatIndicator => TByte
    case RequestProblemInformation => TByte
    case RequestResponseInformation => TByte
    case ReceiveMaximum => TWord
    case TopicAliasMaximum => TWord
    case TopicAlias => TWord
    case MessageExpiryInterval => TDword
    case SessionExpiryInterval => TDword
    case WillDelayInterval => TDword
    case MaximumPacketSize => TDword
    case SubscriptionIdentifiers => TVarint
    case UserProperties => TPair
    case _ => TString
  }

  /** Which properties may occur more than once. */
  predicate Repeats(name: Name) { name.UserProperties? || name.SubscriptionIdentifiers? }

  const ConnectNames := [
    SessionExpiryInterval, ReceiveMaximum, MaximumPacketSize, TopicAliasMaximum, RequestResponseInformation,
    RequestProblemInformation, UserProperties, AuthenticationMethod, AuthenticationData]

  const WillNames := [
    WillDelayInterval, PayloadFormatIndicator, MessageExpiryInterval, ContentType, ResponseTopic,
    CorrelationData, UserProperties]

  const PublishNames := [
    PayloadFormatIndicator, MessageExpiryInterval, ContentType, ResponseTopic, CorrelationData,
    SubscriptionIdentifiers, TopicAlias, UserProperties]

  const AckNames := [Reason, UserProperties]

  const SubscribeNames := [SubscriptionIdentifiers, UserProperties]

  /** A record holds, for each of the names, values of its type. */
  predicate Holds(names: seq<Name>, r: Record) {
    |r| == |names| && forall i :: 0 <= i < |r| ==> OfName(names[i], r[i])
  }

  predicate OfName(name: Name, vs: seq<Value>) {
    (Repeats(name) || |vs| <= 1) && forall v :: v in vs ==> OfType(v, TypeOf(name))
  }

  predicate Named(fields: seq<Field>, names: seq<Name>) {
    |fields| == |names| && forall i :: 0 <= i < |fields| ==>
      fields[i] == Field(Identifier(names[i]), TypeOf(names[i]), Repeats(names[i]))
  }

  lemma ConnectIsNamed()
    ensures Named(ConnectFields, ConnectNames) && Named(WillFields, WillNames)
  {
  }

  lemma PublishIsNamed()
    ensures Named(PublishFields, PublishNames)
  {
  }

  lemma OthersAreNamed()
    ensures Named(AckFields, AckNames) && Named(SubscribeFields, SubscribeNames)
  {
  }

  /** Each value behind its identifier. */
  function Entries(name: Name, vs: seq<Value>): seq<byte>
    requires forall v :: v in vs ==> OfType(v, TypeOf(name))
  {
    if vs == [] then [] else [Identifier(name)] + ValueOctets(vs[0], TypeOf(name)) + Entries(name, vs[1..])
  }

  function PropertyOctets(names: seq<Name>, r: Record): seq<byte>
    requires Holds(names, r)
  {
    if names == [] then [] else Entries(names[0], r[0]) + PropertyOctets(names[1..], r[1..])
  }

  lemma {:induction false} EntriesOnTheWire(name: Name, vs: seq<Value>)
    requires forall v :: v in vs ==> OfType(v, TypeOf(name))
    ensures EncodeList(Identifier(name), vs) == Entries(name, vs)
  {
    if vs != [] {
      ValueOnTheWire(vs[0], TypeOf(name));
      EntriesOnTheWire(name, vs[1..]);
    }
  }

  /** A property block holds each property under the number and in the form that
      MQTT 5.0 gives to its name. */
  lemma {:induction false} PropertiesOnTheWire(fields: seq<Field>, names: seq<Name>, r: Record)
    requires Named(fields, names) && RecordOk(fields, r)
    ensures Holds(names, r) && EncodeFields(fields, r) == PropertyOctets(names, r)
    decreases |fields|
  {
    forall i | 0 <= i < |r| ensures OfName(names[i], r[i]) {
      assert FieldOk(fields[i], r[i]);
    }
    if fields != [] {
      EntriesOnTheWire(names[0], r[0]);
      PropertiesOnTheWire(fields[1..], names[1..], r[1..]);
    }
  }

  // ----- packets (section 3)

  predicate Sized(names: seq<Name>, r: Record) {
    Holds(names, r) && |PropertyOctets(names, r)| < 268435456
  }

  /** The properties with their length in front. */
  function Block(names: seq<Name>, r: Record): seq<byte>
    requires Sized(names, r)
  {
    LengthOctets(|PropertyOctets(names, r)|) + PropertyOctets(names, r)
  }

  lemma BlockOnTheWire(fields: seq<Field>, names: seq<Name>, r: Record)
    requires Named(fields, names) && PropsOk(fields, r)
    ensures Sized(names, r)
    ensures Encode(Props(fields, r, false)) == Block(names, r)
  {
    PropertiesOnTheWire(fields, names, r);
    VarintOctets(|EncodeFields(fields, r)|);
  }

  function Whole(control: byte, rest: seq<byte>): seq<byte>
    requires |rest| < 268435456
  {
    [control] + (LengthOctets(|rest|) + rest)
  }

  lemma PacketOnTheWire(control: byte, body: Term)
    requires Size(body) < 268435456
    ensures |Encode(body)| < 268435456 && Encode(Packet(control, body)) == Whole(control, Encode(body))
  {
    SizeLaw(body);
    PacketBytes(control, body);
    VarintOctets(Size(body));
  }

  /** PUBLISH (section 3.3) */
  lemma PublishOnTheWire(m: Publish)
    requires PublishOk(m)
    ensures Sized(PublishNames, m.props)
    ensures var rest := Text(m.topic) + ((if m.qos == 0 then [] else TwoOctets(m.pid))
                                         + (Block(PublishNames, m.props) + m.payload));
      && |rest| < 268435456
      && EncodePublish(m)
         == Whole(0x30 + (if m.dup then 0x08 else 0) + 2 * m.qos + (if m.retain then 0x01 else 0), rest)
  {
    PublishIsNamed();
    BlockOnTheWire(PublishFields, PublishNames, m.props);
    PublishBytes(m);
    TextOctets(m.topic);
    WordOctets(m.pid);
    PacketOnTheWire(PublishControl(m), PublishBody(m));
  }

  /** PUBACK, PUBREC, PUBREL and PUBCOMP (sections 3.4 to 3.7): the properties are left
      out, with their length, if there are none. */
  lemma AckOnTheWire(t: AckType, a: Ack)
    requires AckOk(a)
    ensures Sized(AckNames, a.props)
    ensures var rest := TwoOctets(a.pid) + ([a.reason]
                        + (if PropertyOctets(AckNames, a.props) == [] then [] else Block(AckNames, a.props)));
      && |rest| < 268435456
      && EncodeAck(t, a) == Whole(match t case Puback => 0x40 case Pubrec => 0x50 case Pubrel => 0x62 case Pubcomp => 0x70, rest)
  {
    OthersAreNamed();
    BlockOnTheWire(AckFields, AckNames, a.props);
    PropertiesOnTheWire(AckFields, AckNames, a.props);
    WordOctets(a.pid);
    EncodeBoth(Byte(a.reason), Props(AckFields, a.props, true));
    EncodeBoth(Int16(a.pid), Both(Byte(a.reason), Props(AckFields, a.props, true)));
    PacketOnTheWire(AckControl(t), AckBody(a));
  }

  /** SUBSCRIBE (section 3.8): each filter with its options. */
  function TopicOctets(ts: seq<Topic>): seq<byte>
    requires forall t :: t in ts ==> TopicOk(t)
  {
    if ts == [] then []
    else
      assert ts[0] in ts && TopicOk(ts[0]);
      Text(ts[0].filter) + [OptionOctet(ts[0])] + TopicOctets(ts[1..])
  }

  function OptionOctet(t: Topic): byte
    requires TopicOk(t)
  {
    t.maxQos + (if t.noLocal then 0x04 else 0) + (if t.retainAsPublished then 0x08 else 0) + 16 * t.retainHandling
  }

  lemma {:induction false} TopicsOnTheWire(ts: seq<Topic>)
    requires forall t :: t in ts ==> TopicOk(t)
    ensures TopicsBytes(ts) == TopicOctets(ts)
  {
    if ts != [] {
      assert ts[0] in ts;
      TextOctets(ts[0].filter);
      TopicsOnTheWire(ts[1..]);
    }
  }

  lemma SubscribeOnTheWire(m: Subscribe)
    requires SubscribeOk(m)
    ensures Sized(SubscribeNames, m.props)
    ensures var rest := TwoOctets(m.pid) + Block(SubscribeNames, m.props) + TopicOctets(m.topics);
      |rest| < 268435456 && SubscribeBytes(m) == Whole(0x82, rest)
  {
    OthersAreNamed();
    BlockOnTheWire(SubscribeFields, SubscribeNames, m.props);
    WordOctets(m.pid);
    EncodeBoth(Int16(m.pid), Props(SubscribeFields, m.props, false));
    SizeLaw(SubscribeHead(m));
    TopicsSizeLaw(m.topics);
    TopicsOnTheWire(m.topics);
    VarintOctets(Size(SubscribeHead(m)) + TopicsSize(m.topics));
  }

  // ----- CONNECT (section 3.1)

  function TextIf(s: Option<seq<byte>>): seq<byte>
    requires s.Some? ==> |s.value| < 65536
  {
    if s.None? then [] else Text(s.value)
  }

  lemma TextIfOctets(s: Option<seq<byte>>)
    requires s.Some? ==> |s.value| < 65536
    ensures Encode(Utf8If(s)) == TextIf(s)
  {
    if s.Some? { TextOctets(s.value); }
  }

  /** The properties, the topic and the message of the will. */
  function WillOctets(w: Option<Will>): seq<byte>
    requires w.Some? ==> WillOk(w.value) && Sized(WillNames, w.value.props)
  {
    if w.None? then [] else Block(WillNames, w.value.props) + (Text(w.value.topic) + Text(w.value.message))
  }

  lemma WillOnTheWire(w: Option<Will>)
    requires w.Some? ==> WillOk(w.value)
    ensures w.Some? ==> Sized(WillNames, w.value.props)
    ensures Encode(WillTerm(w)) == WillOctets(w)
  {
    if w.Some? {
      ConnectIsNamed();
      BlockOnTheWire(WillFields, WillNames, w.value.props);
      TextOctets(w.value.topic);
      TextOctets(w.value.message);
      EncodeBoth(Utf8(w.value.topic), Utf8(w.value.message));
      EncodeBoth(Props(WillFields, w.value.props, false), Both(Utf8(w.value.topic), Utf8(w.value.message)));
    }
  }

  function FlagOctet(c: Connect): byte
    requires c.will.Some? ==> c.will.value.qos < 4
  {
    (if c.userName.Some? then 0x80 else 0) + (if c.password.Some? then 0x40 else 0)
    + (if c.will.Some? then (if c.will.value.retain then 0x20 else 0) + 8 * c.will.value.qos + 0x04 else 0)
    + (if c.cleanStart then 0x02 else 0)
  }

  /** Protocol name and version, flags, and Keep Alive. */
  function ConnectHead(c: Connect): seq<byte>
    requires c.keepAlive < 65536 && (c.will.Some? ==> c.will.value.qos < 4)
  {
    [0x00, 0x04, 0x4d, 0x51, 0x54, 0x54, 0x05, FlagOctet(c), c.keepAlive / 256, c.keepAlive % 256]
  }

  predicate ConnectSized(c: Connect) {
    Sized(ConnectNames, c.props) && (c.will.Some? ==> Sized(WillNames, c.will.value.props))
  }

  function PayloadOctets(c: Connect): seq<byte>
    requires ConnectOk(c) && ConnectSized(c)
  {
    Text(c.clientId) + (WillOctets(c.will) + (TextIf(c.userName) + TextIf(c.password)))
  }

  lemma PayloadOnTheWire(c: Connect)
    requires ConnectOk(c)
    ensures ConnectSized(c) && Encode(PayloadTerm(c)) == PayloadOctets(c)
  {
    ConnectIsNamed();
    BlockOnTheWire(ConnectFields, ConnectNames, c.props);
    WillOnTheWire(c.will);
    PayloadBytes(c);
    TextOctets(c.clientId);
    TextIfOctets(c.userName);
    TextIfOctets(c.password);
  }

  lemma ConnectOnTheWire(c: Connect)
    requires ConnectOk(c)
    ensures ConnectSized(c)
    ensures var rest := ConnectHead(c) + (Block(ConnectNames, c.props) + PayloadOctets(c));
      |rest| < 268435456 && EncodeConnect(c) == Whole(0x10, rest)
  {
    PayloadOnTheWire(c);
    ConnectIsNamed();
    BlockOnTheWire(ConnectFields, ConnectNames, c.props);
    var s4 := Encode(Props(ConnectFields, c.props, false)) + Encode(PayloadTerm(c));
    ConnectBytes(c, Word(c.keepAlive) + s4, s4);
    HeadOctets(c, s4);
    PacketOnTheWire(0x10, ConnectBody(c));
  }

  lemma HeadOctets(c: Connect, s: seq<byte>)
    requires ConnectOk(c)
    ensures Encode(Utf8(Mqtt)) + ([5] + ([ConnectFlags(c)] + (Word(c.keepAlive) + s))) == ConnectHead(c) + s
  {
    var name := Encode(Utf8(Mqtt));
    NameOctets();
    WordOctets(c.keepAlive);
    FlagsAreOctet(c);
    Flat(name, 5, FlagOctet(c), TwoOctets(c.keepAlive), s);
    assert name + [5, FlagOctet(c)] + TwoOctets(c.keepAlive) == ConnectHead(c);
  }

  lemma NameOctets()
    ensures Encode(Utf8(Mqtt)) == [0x00, 0x04, 0x4d, 0x51, 0x54, 0x54]
  {
    TextOctets(Mqtt);
  }

  lemma FlagsAreOctet(c: Connect)
    requires c.will.Some? ==> c.will.value.qos < 4
    ensures ConnectFlags(c) == FlagOctet(c)
  {
  }

  lemma Flat(a: seq<byte>, x: byte, y: byte, w: seq<byte>, s: seq<byte>)
    ensures a + ([x] + ([y] + (w + s))) == (a + [x, y] + w) + s
  {
  }
}
