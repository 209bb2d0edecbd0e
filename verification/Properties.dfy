/**
 Property blocks (section 2.2.2 of MQTT 5.0). The encoder writes, in the order
 of the packet's property list, each value behind its identifier, with the total
 length in front; the parser reads identifiers in any order into a record. The
 two were written independently; here the second undoes the first.
 */
module Properties {
  import opened Varint
  import Seqs

  /** The value types of properties. */
  datatype Type = TByte | TWord | TDword | TVarint | TString | TPair

  datatype Value =
    | ByteV(n: nat) | WordV(n: nat) | DwordV(n: nat) | VarintV(n: nat)
    | StringV(s: seq<byte>)
    | PairV(first: seq<byte>, second: seq<byte>)

  predicate OfType(v: Value, t: Type) {
    match v
    case ByteV(n) => t.TByte? && n < 0x100
    case WordV(n) => t.TWord? && n < 0x1_0000
    case DwordV(n) => t.TDword? && n < 0x1_0000_0000
    case VarintV(n) => t.TVarint? && n <= MAX_VARINT
    case StringV(s) => t.TString? && |s| < 0x1_0000
    case PairV(a, b) => t.TPair? && |a| < 0x1_0000 && |b| < 0x1_0000
  }

  // ----- fixed-width integers and length-prefixed strings

  function Word(n: nat): seq<byte> { [n / 0x100 % 0x100, n % 0x100] }

  function Dword(n: nat): seq<byte> { Word(n / 0x1_0000) + Word(n % 0x1_0000) }

  function ParseByte(s: seq<byte>): Parse<nat> {
    if s == [] then Fail else Done(s[0], s[1..])
  }

  function Join(hi: nat, lo: nat): nat { hi * 0x100 + lo }

  function ParseWord(s: seq<byte>): Parse<nat> {
    if |s| < 2 then Fail else Done(Join(s[0], s[1]), s[2..])
  }

  function ParseDword(s: seq<byte>): Parse<nat> {
    if |s| < 4 then Fail
    else Done(Join(s[0], s[1]) * 0x1_0000 + Join(s[2], s[3]), s[4..])
  }

  /** Length, cut to 16 bits, and bytes. */
  function Prefixed(s: seq<byte>): seq<byte> { Word(|s| % 0x1_0000) + s }

  /** `len_prefix_parser` */
  function ParsePrefixed(s: seq<byte>): Parse<seq<byte>> {
    match ParseWord(s)
    case Fail => Fail
    case Done(n, rest) => if |rest| < n then Fail else Done(rest[..n], rest[n..])
  }

  lemma JoinWord(n: nat)
    requires n < 0x1_0000
    ensures |Word(n)| == 2 && Join(Word(n)[0], Word(n)[1]) == n
  {
  }

  lemma WordRoundTrip(n: nat, suffix: seq<byte>)
    requires n < 0x1_0000
    ensures ParseWord(Word(n) + suffix) == Done(n, suffix)
  {
    JoinWord(n);
    Seqs.Halves(Word(n), suffix);
  }

  lemma DwordRoundTrip(n: nat, suffix: seq<byte>)
    requires n < 0x1_0000_0000
    ensures ParseDword(Dword(n) + suffix) == Done(n, suffix)
  {
    var hi, lo := n / 0x1_0000, n % 0x1_0000;
    JoinWord(hi);
    JoinWord(lo);
    Seqs.Halves(Dword(n), suffix);
    assert hi * 0x1_0000 + lo == n;
  }

  lemma PrefixParse(w: seq<byte>, s: seq<byte>, suffix: seq<byte>)
    requires |w| == 2 && Join(w[0], w[1]) == |s|
    ensures ParsePrefixed(w + s + suffix) == Done(s, suffix)
  {
    Seqs.Assoc(w, s, suffix);
    Seqs.Halves(w, s + suffix);
    Seqs.Halves(s, suffix);
  }

  lemma PrefixedRoundTrip(s: seq<byte>, suffix: seq<byte>)
    requires |s| < 0x1_0000
    ensures ParsePrefixed(Prefixed(s) + suffix) == Done(s, suffix)
  {
    var n := |s| % 0x1_0000;
    assert n == |s|;
    JoinWord(n);
    PrefixParse(Word(n), s, suffix);
  }

  // ----- values

  function EncodeValue(v: Value): seq<byte> {
    match v
    case ByteV(n) => [n % 0x100]
    case WordV(n) => Word(n)
    case DwordV(n) => Dword(n)
    case VarintV(n) => VarBytes(n)
    case StringV(s) => Prefixed(s)
    case PairV(a, b) => Prefixed(a) + Prefixed(b)
  }

  function MapParse<T, U>(p: Parse<T>, f: T -> U): Parse<U> {
    if p.Fail? then Fail else Done(f(p.value), p.rest)
  }

  /** `parse_to_prop`. Of a pair, the second string is parsed even if the first
      was not, from where the first would have begun. */
  function ParseValue(t: Type, s: seq<byte>): Parse<Value> {
    match t
    case TByte => MapParse(ParseByte(s), n => ByteV(n))
    case TWord => MapParse(ParseWord(s), n => WordV(n))
    case TDword => MapParse(ParseDword(s), n => DwordV(n))
    case TVarint => MapParse(ParseVarint(s), n => VarintV(n))
    case TString => MapParse(ParsePrefixed(s), x => StringV(x))
    case TPair =>
      var (a, rest) := match ParsePrefixed(s) case Fail => ([], s) case Done(x, r) => (x, r);
      MapParse(ParsePrefixed(rest), b => PairV(a, b))
  }

  /** The second string of a pair is parsed even if the first could not be, but then
      from the same bytes, so a pair is read exactly when both its strings are. */
  lemma PairNeedsBoth(s: seq<byte>)
    ensures var first := ParsePrefixed(s);
      ParseValue(TPair, s).Done? <==> first.Done? && ParsePrefixed(first.rest).Done?
  {
  }

  lemma ValueRoundTrip(v: Value, t: Type, suffix: seq<byte>)
    requires OfType(v, t)
    ensures ParseValue(t, EncodeValue(v) + suffix) == Done(v, suffix)
    ensures EncodeValue(v) != []
  {
    match v
    case ByteV(n) => assert ([n % 0x100] + suffix)[1..] == suffix;
    case WordV(n) => WordRoundTrip(n, suffix);
    case DwordV(n) => DwordRoundTrip(n, suffix);
    case VarintV(n) => VarintRoundTrip(n, suffix);
    case StringV(s) => PrefixedRoundTrip(s, suffix);
    case PairV(a, b) =>
      Seqs.Assoc(Prefixed(a), Prefixed(b), suffix);
      PrefixedRoundTrip(a, Prefixed(b) + suffix);
      PrefixedRoundTrip(b, suffix);
  }

  // ----- records

  /** A property of a packet: at most one value, or a list of them. */
  datatype Field = Field(id: byte, ty: Type, many: bool)

  /** For each field its values, in order. */
  type Record = seq<seq<Value>>

  predicate Distinct(fields: seq<Field>) {
    forall i, j :: 0 <= i < j < |fields| ==> fields[i].id != fields[j].id
  }

  predicate FieldOk(f: Field, vs: seq<Value>) {
    (f.many || |vs| <= 1) && forall v :: v in vs ==> OfType(v, f.ty)
  }

  predicate RecordOk(fields: seq<Field>, r: Record) {
    |r| == |fields| && forall i :: 0 <= i < |r| ==> FieldOk(fields[i], r[i])
  }

  function EncodeList(id: byte, vs: seq<Value>): seq<byte> {
    if vs == [] then [] else [id] + EncodeValue(vs[0]) + EncodeList(id, vs[1..])
  }

  function EncodeFields(fields: seq<Field>, r: Record): seq<byte> {
    if fields == [] || r == [] then [] else EncodeList(fields[0].id, r[0]) + EncodeFields(fields[1..], r[1..])
  }

  /** Index of the field with this identifier, or the number of fields. */
  function FindField(fields: seq<Field>, id: byte): (i: nat)
    ensures i <= |fields|
    ensures i < |fields| ==> fields[i].id == id
    ensures forall j :: 0 <= j < i ==> fields[j].id != id
  {
    if fields == [] || fields[0].id == id then 0 else 1 + FindField(fields[1..], id)
  }

  /** A list grows, a single value is replaced. */
  function Store(f: Field, vs: seq<Value>, v: Value): seq<Value> {
    if f.many then vs + [v] else [v]
  }

  /** The parser's loop over a block, into the record `r`. */
  function ParseFields(fields: seq<Field>, r: Record, s: seq<byte>): Parse<Record>
    requires |r| == |fields|
    decreases |s|
  {
    if s == [] then Done(r, [])
    else
      var i := FindField(fields, s[0]);
      if i == |fields| then Fail
      else
        match ParseValue(fields[i].ty, s[1..])
        case Fail => Fail
        case Done(v, rest) =>
          if |rest| >= |s| then Fail
          else ParseFields(fields, r[i := Store(fields[i], r[i], v)], rest)
  }

  function Nothing(fields: seq<Field>): Record {
    seq(|fields|, i => [])
  }

  /** `prop_parser`; a missing block is an empty one. */
  function ParseProps(fields: seq<Field>, s: seq<byte>): Parse<Record> {
    if s == [] then Done(Nothing(fields), [])
    else
      match ParseVarint(s)
      case Fail => Fail
      case Done(n, rest) =>
        if |rest| < n then Fail
        else
          match ParseFields(fields, Nothing(fields), rest[..n])
          case Fail => Fail
          case Done(r, _) => Done(r, rest[n..])
  }

  /** The loop of `prop_parser::parse`. */
  method PropParser(fields: seq<Field>, s: seq<byte>) returns (r: Parse<Record>)
    ensures r == ParseProps(fields, s)
  {
    if s == [] {
      return Done(Nothing(fields), []);
    }
    var head := VarintParser(s);
    if head.Fail? || |head.rest| < head.value {
      return Fail;
    }
    var scope := head.rest[..head.value];
    var attr, iter := Nothing(fields), scope;
    while iter != []
      invariant |attr| == |fields|
      invariant ParseFields(fields, Nothing(fields), scope) == ParseFields(fields, attr, iter)
      decreases |iter|
    {
      var i := FindField(fields, iter[0]);
      if i == |fields| {
        return Fail;
      }
      var value := ParseValue(fields[i].ty, iter[1..]);
      if value.Fail? || |value.rest| >= |iter| {
        return Fail;
      }
      attr, iter := attr[i := Store(fields[i], attr[i], value.value)], value.rest;
    }
    return Done(attr, head.rest[head.value..]);
  }

  /** `props_val`: the block, or nothing if it is empty and may be omitted. */
  function EncodeProps(fields: seq<Field>, r: Record, mayOmit: bool): seq<byte> {
    var block := EncodeFields(fields, r);
    if mayOmit && block == [] then [] else VarBytes(|block|) + block
  }

  // ----- round trip

  lemma FoundAt(fields: seq<Field>, i: nat)
    requires Distinct(fields) && i < |fields|
    ensures FindField(fields, fields[i].id) == i
  {
  }

  lemma ValueStep(fields: seq<Field>, r: Record, i: nat, v: Value, tail: seq<byte>, s: seq<byte>)
    requires Distinct(fields) && |r| == |fields| && i < |fields| && OfType(v, fields[i].ty)
    requires s == [fields[i].id] + (EncodeValue(v) + tail)
    ensures ParseFields(fields, r, s) == ParseFields(fields, r[i := Store(fields[i], r[i], v)], tail)
  {
    assert s[0] == fields[i].id && s[1..] == EncodeValue(v) + tail;
    ValueRoundTrip(v, fields[i].ty, tail);
    FoundAt(fields, i);
  }

  lemma ListCons(id: byte, vs: seq<Value>, rest: seq<byte>)
    requires vs != []
    ensures EncodeList(id, vs) + rest == [id] + (EncodeValue(vs[0]) + (EncodeList(id, vs[1..]) + rest))
  {
  }

  lemma StoreAll(r: Record, i: nat, vs: seq<Value>)
    requires i < |r|
    ensures vs == [] ==> r[i := r[i] + vs] == r
    ensures vs != [] ==> r[i := r[i] + [vs[0]]][i := r[i] + [vs[0]] + vs[1..]] == r[i := r[i] + vs]
  {
    if vs == [] {
      assert r[i] + vs == r[i];
    } else {
      assert r[i] + [vs[0]] + vs[1..] == r[i] + vs;
    }
  }

  /** Reading back the values of one field, appended to what it already has. */
  lemma {:induction false} ListRoundTrip(fields: seq<Field>, r: Record, i: nat, vs: seq<Value>, rest: seq<byte>)
    requires Distinct(fields) && |r| == |fields| && i < |fields|
    requires FieldOk(fields[i], vs) && (fields[i].many || vs == [] || r[i] == [])
    ensures ParseFields(fields, r, EncodeList(fields[i].id, vs) + rest)
         == ParseFields(fields, r[i := r[i] + vs], rest)
    decreases |vs|
  {
    var f := fields[i];
    StoreAll(r, i, vs);
    if vs == [] {
      assert EncodeList(f.id, vs) + rest == rest;
    } else {
      var tail := EncodeList(f.id, vs[1..]) + rest;
      ListCons(f.id, vs, rest);
      assert vs[0] in vs && forall v :: v in vs[1..] ==> v in vs;
      ValueStep(fields, r, i, vs[0], tail, EncodeList(f.id, vs) + rest);
      assert Store(f, r[i], vs[0]) == r[i] + [vs[0]];
      ListRoundTrip(fields, r[i := r[i] + [vs[0]]], i, vs[1..], rest);
    }
  }

  /** The record with the first `k` fields filled in. */
  function Filled(fields: seq<Field>, r: Record, k: nat): Record
    requires |r| == |fields| && k <= |r|
  {
    r[..k] + Nothing(fields[k..])
  }

  lemma FillNext(fields: seq<Field>, r: Record, k: nat)
    requires |r| == |fields| && k < |r|
    ensures var a := Filled(fields, r, k);
            |a| == |r| && a[k] == [] && a[k := a[k] + r[k]] == Filled(fields, r, k + 1)
  {
    var a, b := Filled(fields, r, k), Filled(fields, r, k + 1);
    assert [] + r[k] == r[k];
    forall j | 0 <= j < |r| ensures a[k := a[k] + r[k]][j] == b[j] {
    }
  }

  lemma {:induction false} FieldsRoundTrip(fields: seq<Field>, r: Record, k: nat)
    requires Distinct(fields) && RecordOk(fields, r) && k <= |r|
    ensures ParseFields(fields, Filled(fields, r, k), EncodeFields(fields[k..], r[k..])) == Done(r, [])
    decreases |r| - k
  {
    if k == |r| {
      assert Filled(fields, r, k) == r;
    } else {
      var a := Filled(fields, r, k);
      FillNext(fields, r, k);
      assert fields[k..][1..] == fields[k + 1..] && r[k..][1..] == r[k + 1..];
      ListRoundTrip(fields, a, k, r[k], EncodeFields(fields[k + 1..], r[k + 1..]));
      FieldsRoundTrip(fields, r, k + 1);
    }
  }

  /** An empty block stands for the empty record only. */
  lemma {:induction false} EmptyBlock(fields: seq<Field>, r: Record)
    requires |r| == |fields|
    ensures EncodeFields(fields, r) == [] ==> r == Nothing(fields)
  {
    if fields != [] {
      EmptyBlock(fields[1..], r[1..]);
      if EncodeFields(fields, r) == [] {
        assert r[0] == [];
        assert r == [r[0]] + r[1..] && Nothing(fields) == [[]] + Nothing(fields[1..]);
      }
    }
  }

  /** Every record, with lists of any length, is read back in full and in order,
      and the parser stops exactly where the block ends. */
  lemma PropsRoundTrip(fields: seq<Field>, r: Record, mayOmit: bool, suffix: seq<byte>)
    requires Distinct(fields) && RecordOk(fields, r)
    requires |EncodeFields(fields, r)| <= MAX_VARINT
    requires mayOmit && EncodeFields(fields, r) == [] ==> suffix == []
    ensures ParseProps(fields, EncodeProps(fields, r, mayOmit) + suffix) == Done(r, suffix)
  {
    var block := EncodeFields(fields, r);
    EmptyBlock(fields, r);
    if mayOmit && block == [] {
      assert EncodeProps(fields, r, mayOmit) + suffix == [];
    } else {
      Seqs.Assoc(VarBytes(|block|), block, suffix);
      SizedRoundTrip(fields, r, block, suffix, VarBytes(|block|) + (block + suffix));
    }
  }

  lemma SizedRoundTrip(fields: seq<Field>, r: Record, block: seq<byte>, suffix: seq<byte>, s: seq<byte>)
    requires Distinct(fields) && RecordOk(fields, r) && block == EncodeFields(fields, r)
    requires |block| <= MAX_VARINT && s == VarBytes(|block|) + (block + suffix)
    ensures ParseProps(fields, s) == Done(r, suffix)
  {
    VarintRoundTrip(|block|, block + suffix);
    Seqs.Halves(block, suffix);
    BlockRoundTrip(fields, r);
  }

  lemma BlockRoundTrip(fields: seq<Field>, r: Record)
    requires Distinct(fields) && RecordOk(fields, r)
    ensures ParseFields(fields, Nothing(fields), EncodeFields(fields, r)) == Done(r, [])
  {
    assert fields[0..] == fields && r[0..] == r && Filled(fields, r, 0) == Nothing(fields);
    FieldsRoundTrip(fields, r, 0);
  }

  // ----- blocks of other senders

  /** A value for one of the fields. */
  datatype Entry = Entry(at: nat, value: Value)

  predicate EntriesOk(fields: seq<Field>, es: seq<Entry>) {
    forall e :: e in es ==> e.at < |fields| && OfType(e.value, fields[e.at].ty)
  }

  function EntryBytes(fields: seq<Field>, es: seq<Entry>): seq<byte>
    requires EntriesOk(fields, es)
  {
    if es == [] then []
    else
      assert es[0] in es;
      [fields[es[0].at].id] + (EncodeValue(es[0].value) + EntryBytes(fields, es[1..]))
  }

  /** The values for one field, in the order in which they come. */
  function ValuesAt(es: seq<Entry>, i: nat): seq<Value> {
    if es == [] then []
    else (if es[0].at == i then [es[0].value] else []) + ValuesAt(es[1..], i)
  }

  /** A field that may repeat takes all its values, any other the last one. */
  function Taken(f: Field, before: seq<Value>, vs: seq<Value>): seq<Value> {
    if vs == [] then before else if f.many then before + vs else [vs[|vs| - 1]]
  }

  ghost predicate Filling(fields: seq<Field>, r: Record, es: seq<Entry>, d: Record) {
    |r| == |d| == |fields| && forall i :: 0 <= i < |r| ==> d[i] == Taken(fields[i], r[i], ValuesAt(es, i))
  }

  lemma FillingStep(fields: seq<Field>, r: Record, es: seq<Entry>, b: Record, d: Record)
    requires es != [] && es[0].at < |r| == |fields| && b == r[es[0].at := Store(fields[es[0].at], r[es[0].at], es[0].value)]
    requires Filling(fields, b, es[1..], d)
    ensures Filling(fields, r, es, d)
  {
    forall i | 0 <= i < |r| ensures d[i] == Taken(fields[i], r[i], ValuesAt(es, i)) {
      var more := ValuesAt(es[1..], i);
      assert d[i] == Taken(fields[i], b[i], more);
      if i == es[0].at {
        assert ValuesAt(es, i) == [es[0].value] + more;
        assert r[i] + [es[0].value] + more == r[i] + ([es[0].value] + more);
      } else {
        assert ValuesAt(es, i) == [] + more == more;
      }
    }
  }

  /** Entries in any order and number are read into the record, and the parser goes on
      behind them. */
  lemma {:induction false} AnyOrder(fields: seq<Field>, r: Record, es: seq<Entry>, tail: seq<byte>) returns (d: Record)
    requires Distinct(fields) && |r| == |fields| && EntriesOk(fields, es)
    ensures Filling(fields, r, es, d)
    ensures ParseFields(fields, r, EntryBytes(fields, es) + tail) == ParseFields(fields, d, tail)
    decreases |es|
  {
    if es == [] {
      d := r;
      assert EntryBytes(fields, es) + tail == tail;
    } else {
      var e, rest := es[0], EntryBytes(fields, es[1..]);
      assert e in es && forall x :: x in es[1..] ==> x in es;
      var b := r[e.at := Store(fields[e.at], r[e.at], e.value)];
      EntryFirst(fields[e.at].id, EncodeValue(e.value), rest, tail);
      ValueStep(fields, r, e.at, e.value, rest + tail, EntryBytes(fields, es) + tail);
      d := AnyOrder(fields, b, es[1..], tail);
      FillingStep(fields, r, es, b, d);
    }
  }

  lemma EntryFirst(id: byte, v: seq<byte>, rest: seq<byte>, tail: seq<byte>)
    ensures ([id] + (v + rest)) + tail == [id] + (v + (rest + tail))
  {
  }

  /** An identifier that the packet does not know makes the whole block fail. */
  lemma UnknownFails(fields: seq<Field>, r: Record, es: seq<Entry>, tail: seq<byte>)
    requires Distinct(fields) && |r| == |fields| && EntriesOk(fields, es)
    requires tail != [] && forall f :: f in fields ==> f.id != tail[0]
    ensures ParseFields(fields, r, EntryBytes(fields, es) + tail) == Fail
  {
    var d := AnyOrder(fields, r, es, tail);
  }

  /** So does a value that is cut short. */
  lemma CutFails(fields: seq<Field>, r: Record, es: seq<Entry>, e: Entry, k: nat)
    requires Distinct(fields) && |r| == |fields| && EntriesOk(fields, es)
    requires e.at < |fields| && OfType(e.value, fields[e.at].ty) && k < |EncodeValue(e.value)|
    ensures ParseFields(fields, r, EntryBytes(fields, es) + ([fields[e.at].id] + EncodeValue(e.value)[..k])) == Fail
  {
    var tail := [fields[e.at].id] + EncodeValue(e.value)[..k];
    var d := AnyOrder(fields, r, es, tail);
    FoundAt(fields, e.at);
    assert tail[1..] == EncodeValue(e.value)[..k];
    ValueCut(e.value, fields[e.at].ty, k);
  }

  lemma PrefixedCut(s: seq<byte>, k: nat)
    requires |s| < 0x1_0000 && k < |Prefixed(s)|
    ensures ParsePrefixed(Prefixed(s)[..k]) == Fail
  {
    var n := |s| % 0x1_0000;
    assert n == |s|;
    JoinWord(n);
    WordCut(Word(n), s, k);
  }

  lemma WordCut(w: seq<byte>, s: seq<byte>, k: nat)
    requires |w| == 2 && Join(w[0], w[1]) == |s| && k < |w + s|
    ensures ParsePrefixed((w + s)[..k]) == Fail
  {
    if k >= 2 { assert (w + s)[..k][2..] == s[..k - 2]; }
  }

  lemma ValueCut(v: Value, t: Type, k: nat)
    requires OfType(v, t) && k < |EncodeValue(v)|
    ensures ParseValue(t, EncodeValue(v)[..k]) == Fail
  {
    match v
    case VarintV(n) => StrictPrefixRejected(n, k);
    case StringV(s) => PrefixedCut(s, k);
    case PairV(a, b) =>
      var n := |Prefixed(a)|;
      if k < n {
        assert EncodeValue(v)[..k] == Prefixed(a)[..k];
        PrefixedCut(a, k);
      } else {
        assert EncodeValue(v)[..k] == Prefixed(a) + Prefixed(b)[..k - n];
        PrefixedRoundTrip(a, Prefixed(b)[..k - n]);
        PrefixedCut(b, k - n);
      }
    case _ =>
  }
}
