/**
 The encoder combinators: terms with a size and an encoding. The size of every
 term is the number of bytes its encoding appends, so the Remaining Length of
 every packet that fits is the number of bytes that follow it.
 */
module Encoders {
  import opened Varint
  import opened Properties
  import Seqs

  /** `Array` is a string or binary value, with its length in front or without;
      `Absent` an optional value that is not there. */
  datatype Term =
    | Flags(b: byte)
    | Byte(b: byte)
    | Int16(n: nat)
    | Varlen(n: nat)
    | Array(s: seq<byte>, withLength: bool)
    | Props(fields: seq<Field>, record: Record, mayOmit: bool)
    | Absent
    | Both(lhs: Term, rhs: Term)

  // ----- byte_size

  function ValueSize(v: Value): nat {
    match v
    case ByteV(_) => 1
    case WordV(_) => 2
    case DwordV(_) => 4
    case VarintV(n) => VarLength(n)
    case StringV(s) => 2 + |s|
    case PairV(a, b) => (2 + |a|) + (2 + |b|)
  }

  function ListSize(vs: seq<Value>): nat {
    if vs == [] then 0 else 1 + ValueSize(vs[0]) + ListSize(vs[1..])
  }

  function FieldsSize(fields: seq<Field>, r: Record): nat {
    if fields == [] || r == [] then 0 else ListSize(r[0]) + FieldsSize(fields[1..], r[1..])
  }

  function Size(t: Term): nat {
    match t
    case Flags(_) => 1
    case Byte(_) => 1
    case Int16(_) => 2
    case Varlen(n) => VarLength(n)
    case Array(s, withLength) => (if withLength then 2 else 0) + |s|
    case Props(fields, record, mayOmit) =>
      var n := FieldsSize(fields, record);
      if mayOmit && n == 0 then 0 else n + VarLength(n)
    case Absent => 0
    case Both(l, r) => Size(l) + Size(r)
  }

  // ----- encode

  function Encode(t: Term): seq<byte> {
    match t
    case Flags(n) => [n]
    case Byte(n) => [n]
    case Int16(n) => Word(n)
    case Varlen(n) => VarBytes(n)
    case Array(s, withLength) => if withLength then Prefixed(s) else s
    case Props(fields, record, mayOmit) => EncodeProps(fields, record, mayOmit)
    case Absent => []
    case Both(l, r) => Encode(l) + Encode(r)
  }

  // ----- the size law

  lemma {:induction false} ListSizeLaw(id: byte, vs: seq<Value>)
    ensures |EncodeList(id, vs)| == ListSize(vs)
  {
    if vs != [] {
      ListSizeLaw(id, vs[1..]);
      assert |EncodeValue(vs[0])| == ValueSize(vs[0]);
    }
  }

  lemma {:induction false} FieldsSizeLaw(fields: seq<Field>, r: Record)
    ensures |EncodeFields(fields, r)| == FieldsSize(fields, r)
  {
    if fields != [] && r != [] {
      ListSizeLaw(fields[0].id, r[0]);
      FieldsSizeLaw(fields[1..], r[1..]);
    }
  }

  /** `byte_size` is the length of what `encode` appends. */
  lemma {:induction false} SizeLaw(t: Term)
    ensures |Encode(t)| == Size(t)
  {
    match t
    case Props(fields, record, mayOmit) => FieldsSizeLaw(fields, record);
    case Both(l, r) =>
      SizeLaw(l);
      SizeLaw(r);
    case _ =>
  }

  // ----- packets

  /** A control byte, the Remaining Length, and the rest of the packet. */
  function Packet(control: byte, body: Term): Term {
    Both(Both(Flags(control), Varlen(Size(body))), body)
  }

  lemma HeaderBytes(control: byte, n: nat, body: Term)
    ensures Encode(Both(Both(Flags(control), Varlen(n)), body)) == [control] + (VarBytes(n) + Encode(body))
  {
    EncodeBoth(Both(Flags(control), Varlen(n)), body);
    EncodeBoth(Flags(control), Varlen(n));
    Seqs.Assoc([control], VarBytes(n), Encode(body));
  }

  lemma PacketBytes(control: byte, body: Term)
    ensures Encode(Packet(control, body)) == [control] + (VarBytes(Size(body)) + Encode(body))
  {
    HeaderBytes(control, Size(body), body);
  }

  datatype Header = Header(control: byte, length: nat)

  /** `decode_fixed_header` */
  function ParseHeader(s: seq<byte>): Parse<Header> {
    if s == [] then Fail
    else
      var (n, rest) :- ParseVarint(s[1..]);
      Done(Header(s[0], n), rest)
  }

  lemma HeaderBack(control: byte, body: seq<byte>, suffix: seq<byte>)
    requires |body| <= MAX_VARINT
    ensures ParseHeader([control] + (VarBytes(|body|) + body) + suffix)
         == Done(Header(control, |body|), body + suffix)
  {
    var n := VarBytes(|body|);
    Seqs.Assoc([control], n + body, suffix);
    Seqs.Assoc(n, body, suffix);
    Seqs.Halves([control], n + (body + suffix));
    VarintRoundTrip(|body|, body + suffix);
  }

  /** The header tells exactly how many bytes belong to the packet. */
  lemma RemainingLength(control: byte, body: Term, suffix: seq<byte>)
    requires Size(body) <= MAX_VARINT
    ensures ParseHeader(Encode(Packet(control, body)) + suffix)
         == Done(Header(control, |Encode(body)|), Encode(body) + suffix)
  {
    SizeLaw(body);
    PacketBytes(control, body);
    HeaderBack(control, Encode(body), suffix);
  }

  // ----- how each term is read back

  lemma EncodeBoth(l: Term, r: Term)
    ensures Encode(Both(l, r)) == Encode(l) + Encode(r)
  {
  }

  lemma ByteBack(n: byte, suffix: seq<byte>)
    ensures ParseByte([n] + suffix) == Done(n as nat, suffix)
  {
    assert ([n] + suffix)[1..] == suffix;
  }
}
