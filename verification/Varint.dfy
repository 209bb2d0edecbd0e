/**
 Bytes, and the variable byte integers of section 1.5.5 of MQTT 5.0
 (`to_variable_bytes`, `variable_length`, `varint_parser`): seven bits a byte,
 least significant first, at most four bytes.
 */
module Varint {
  type byte = x: int | 0 <= x < 256

  const MAX_VARINT: nat := 0xfff_ffff

  /** The result of a parser: no match, or a value and the bytes behind it. */
  datatype Parse<T> = Fail | Done(value: T, rest: seq<byte>)
  {
    predicate IsFailure() { Fail? }

    function PropagateFailure<U>(): Parse<U>
      requires IsFailure()
    {
      Fail
    }

    function Extract(): (T, seq<byte>)
      requires !IsFailure()
    {
      (value, rest)
    }
  }

  function Base128(n: nat): (s: seq<byte>) {
    if n > 127 then [n % 128 + 128] + Base128(n / 128) else [n]
  }

  /** Nothing at all is written for a value that does not fit in four bytes. */
  function VarBytes(n: nat): seq<byte> {
    if n > MAX_VARINT then [] else Base128(n)
  }

  /** `to_variable_bytes` */
  method ToVariableBytes(s: seq<byte>, n: nat) returns (r: seq<byte>)
    ensures r == s + VarBytes(n)
  {
    r := s;
    if n > MAX_VARINT {
      return;
    }
    var val := n;
    while val > 127
      invariant r + Base128(val) == s + Base128(n)
    {
      assert r + Base128(val) == (r + [val % 128 + 128]) + Base128(val / 128);
      r := r + [val % 128 + 128];
      val := val / 128;
    }
    r := r + [val];
  }

  function VarLength(n: nat): nat { |VarBytes(n)| }

  /** `variable_length` */
  method VariableLength(n: nat) returns (rv: nat)
    ensures rv == VarLength(n)
  {
    if n > MAX_VARINT {
      return 0;
    }
    rv := 1;
    var val := n;
    while val > 127
      invariant rv + |Base128(val)| == 1 + |Base128(n)|
    {
      val := val / 128;
      rv := rv + 1;
    }
  }

  /** What remains of a varint when `k` bytes have been read: nothing is read
      past the fourth. The value counts from the next byte on. */
  function ParseFrom(s: seq<byte>, k: nat): Parse<nat>
    decreases |s|
  {
    if s == [] || k >= 4 then Fail
    else if s[0] < 128 then Done(s[0], s[1..])
    else
      match ParseFrom(s[1..], k + 1)
      case Fail => Fail
      case Done(n, rest) => Done(s[0] - 128 + 128 * n, rest)
  }

  function ParseVarint(s: seq<byte>): Parse<nat> { ParseFrom(s, 0) }

  function Power128(k: nat): nat {
    if k == 0 then 1 else 128 * Power128(k - 1)
  }

  /** `varint_parser::parse`; `shift` is the power of two of the program's
      `bit_shift`, and its bit operations are sums as the bits do not overlap. */
  method VarintParser(s: seq<byte>) returns (r: Parse<nat>)
    ensures r == ParseVarint(s)
  {
    var result: nat, i: nat, shift: nat := 0, 0, 1;
    ShiftNone(s);
    while i < |s| && i < 4
      invariant 0 <= i <= |s| && i <= 4
      invariant ParseVarint(s) == Shifted(result, shift, ParseFrom(s[i..], i))
    {
      var val: nat := s[i];
      ParseNext(s, i, result, shift);
      if val < 128 {
        return Done(Plus(result, val, shift), s[i + 1..]);
      }
      result, shift, i := Plus(result, val - 128, shift), 128 * shift, i + 1;
    }
    ParseEnd(s, i, result, shift);
    return Fail;
  }

  /** A digit joins at its place. */
  function Plus(result: nat, digit: nat, shift: nat): nat { result + digit * shift }

  lemma ShiftNone(s: seq<byte>)
    ensures ParseVarint(s) == Shifted(0, 1, ParseFrom(s[0..], 0))
  {
    assert s[0..] == s;
  }

  lemma ParseEnd(s: seq<byte>, i: nat, result: nat, shift: nat)
    requires i <= |s| && (i == |s| || i >= 4)
    ensures Shifted(result, shift, ParseFrom(s[i..], i)) == Fail
  {
  }

  lemma ParseNext(s: seq<byte>, i: nat, result: nat, shift: nat)
    requires i < |s| && i < 4
    ensures var val: nat := s[i];
      Shifted(result, shift, ParseFrom(s[i..], i))
      == if val < 128 then Done(Plus(result, val, shift), s[i + 1..])
         else Shifted(Plus(result, val - 128, shift), 128 * shift, ParseFrom(s[i + 1..], i + 1))
  {
    assert s[i..][1..] == s[i + 1..];
    if s[i] >= 128 { ShiftMore(result, shift, s[i], ParseFrom(s[i + 1..], i + 1)); }
  }

  function Shifted(low: nat, shift: nat, p: Parse<nat>): Parse<nat> {
    match p
    case Fail => Fail
    case Done(n, rest) => Done(low + n * shift, rest)
  }

  lemma ShiftMore(low: nat, shift: nat, val: nat, p: Parse<nat>)
    requires val >= 128
    ensures Shifted(low + (val - 128) * shift, 128 * shift, p)
         == Shifted(low, shift, match p case Fail => Fail case Done(n, rest) => Done(val - 128 + 128 * n, rest))
  {
    if p.Done? {
      assert (val - 128 + 128 * p.value) * shift == (val - 128) * shift + p.value * (128 * shift);
    }
  }

  // ----- properties

  /** The length is the least number of 7-bit groups that hold the value. */
  lemma {:induction false} Minimal(n: nat, k: nat)
    requires k >= 1
    ensures |Base128(n)| <= k <==> n < Power128(k)
    decreases n
  {
    if n > 127 {
      if k == 1 {
        assert Power128(1) == 128 * Power128(0) == 128;
        assert |Base128(n / 128)| >= 1;
      } else {
        Minimal(n / 128, k - 1);
      }
    } else {
      PowerGrows(k);
    }
  }

  lemma {:induction false} PowerGrows(k: nat)
    requires k >= 1
    ensures Power128(k) >= 128
  {
    if k > 1 { PowerGrows(k - 1); }
  }

  lemma FourGroups()
    ensures Power128(4) == MAX_VARINT + 1
  {
    assert Power128(1) == 128 && Power128(2) == 128 * 128 && Power128(3) == 128 * 128 * 128;
  }

  lemma {:induction false} Base128RoundTrip(n: nat, k: nat, suffix: seq<byte>)
    requires k + |Base128(n)| <= 4
    ensures ParseFrom(Base128(n) + suffix, k) == Done(n, suffix)
    decreases n
  {
    var s := Base128(n) + suffix;
    if n > 127 {
      assert s[1..] == Base128(n / 128) + suffix;
      Base128RoundTrip(n / 128, k + 1, suffix);
    } else {
      assert s[1..] == suffix;
    }
  }

  /** Every value that fits is read back, whatever follows it. */
  lemma VarintRoundTrip(n: nat, suffix: seq<byte>)
    requires n <= MAX_VARINT
    ensures ParseVarint(VarBytes(n) + suffix) == Done(n, suffix)
    ensures 1 <= |VarBytes(n)| <= 4
  {
    FourGroups();
    Minimal(n, 4);
    Base128RoundTrip(n, 0, suffix);
  }

  lemma {:induction false} PrefixFails(n: nat, k: nat, j: nat)
    requires j < |Base128(n)|
    ensures ParseFrom(Base128(n)[..j], k) == Fail
    decreases n
  {
    var s := Base128(n)[..j];
    if j > 0 {
      assert s[1..] == Base128(n / 128)[..j - 1];
      PrefixFails(n / 128, k + 1, j - 1);
    }
  }

  /** A varint cut short is never taken for a whole one. */
  lemma StrictPrefixRejected(n: nat, j: nat)
    requires n <= MAX_VARINT && j < |VarBytes(n)|
    ensures ParseVarint(VarBytes(n)[..j]) == Fail
  {
    PrefixFails(n, 0, j);
  }

  /** More bytes do not change a varint that was read, and four bytes decide. */
  lemma {:induction false} ParseFromExtends(s: seq<byte>, t: seq<byte>, k: nat)
    ensures ParseFrom(s, k).Done? ==>
      ParseFrom(s + t, k) == Done(ParseFrom(s, k).value, ParseFrom(s, k).rest + t)
    ensures k + |s| >= 4 && ParseFrom(s, k).Fail? ==> ParseFrom(s + t, k).Fail?
    decreases |s|
  {
    if s != [] && k < 4 {
      assert (s + t)[1..] == s[1..] + t;
      if s[0] >= 128 { ParseFromExtends(s[1..], t, k + 1); }
    }
  }

  lemma {:induction false} ParsedBound(s: seq<byte>, k: nat)
    requires k <= 4
    ensures var p := ParseFrom(s, k);
      p.Done? ==> p.value < Power128(4 - k) && |p.rest| < |s| && |s| - |p.rest| <= 4 - k && p.rest == s[|s| - |p.rest|..]
    decreases |s|
  {
    if s != [] && k < 4 {
      if s[0] >= 128 {
        ParsedBound(s[1..], k + 1);
      } else {
        PowerGrows(4 - k);
      }
    }
  }
}
