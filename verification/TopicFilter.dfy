/**
 Topic filters (sections 4.7.1 and 4.8.2 of MQTT 5.0). The program scans the
 bytes of a filter once, looking one character back and one byte ahead. For
 well-formed UTF-8 it accepts exactly the filters whose levels, split at '/',
 are each a lone '+', or a lone '#' in last place, or made of legal characters,
 and in which no code point ends in FE or FF: of these it takes them all for
 non-characters.
 */
module TopicFilter {
  import opened Varint
  import Seqs

  const SLASH: code := 0x2f
  const HASH: code := 0x23
  const PLUS: code := 0x2b
  const MAX_SIZE: nat := 65535

  // ----- UTF-8

  type code = c: int | 0 <= c < 0x11_0000

  /** A code point in one to four bytes: six bits a byte behind the first. */
  function Utf8Char(c: code): (s: seq<byte>)
    ensures s != []
  {
    var q1: nat := c / 64;
    var q2: nat := q1 / 64;
    if c < 0x80 then [c]
    else if c < 0x800 then [0xc0 + q1, 0x80 + c % 64]
    else if c < 0x1_0000 then [0xe0 + q2, 0x80 + q1 % 64, 0x80 + c % 64]
    else [0xf0 + q2 / 64, 0x80 + q2 % 64, 0x80 + q1 % 64, 0x80 + c % 64]
  }

  function Utf8(cs: seq<code>): seq<byte> {
    if cs == [] then [] else Utf8Char(cs[0]) + Utf8(cs[1..])
  }

  function Low(b: byte, n: nat): nat
    requires n > 0
  {
    b % n
  }

  /** `pop_front_unichar`: the character, or -1 with nothing consumed. */
  function PopFront(s: seq<byte>): (r: (int, seq<byte>))
    requires s != []
    ensures |r.1| < |s| || (r.0 == -1 && r.1 == s)
  {
    var n := s[0] / 16;
    if n < 8 then (s[0] as int, s[1..])
    else if (n == 12 || n == 13) && |s| > 1 then (Low(s[0], 32) * 64 + Low(s[1], 64), s[2..])
    else if n == 14 && |s| > 2 then
      ((Low(s[0], 32) * 64 + Low(s[1], 64)) * 64 + Low(s[2], 64), s[3..])
    else if n == 15 && |s| > 3 then
      (((Low(s[0], 32) * 64 + Low(s[1], 64)) * 64 + Low(s[2], 64)) * 64 + Low(s[3], 64), s[4..])
    else (-1, s)
  }

  /** What the program makes of a code point: of the lead byte of four it keeps
      one bit too many. */
  function Seen(c: code): nat { if c < 0x1_0000 then c else c + 0x40_0000 }

  lemma PopBack(c: code, rest: seq<byte>)
    ensures PopFront(Utf8Char(c) + rest) == (Seen(c) as int, rest)
  {
    var s := Utf8Char(c);
    Seqs.Halves(s, rest);
    var q1 := c / 64;
    var q2 := q1 / 64;
    if 0x80 <= c < 0x800 {
      LeadByte(0xc0, q1);
      TrailByte(c % 64);
    } else if 0x800 <= c < 0x1_0000 {
      LeadByte(0xe0, q2);
      TrailByte(q1 % 64);
      TrailByte(c % 64);
    } else if c >= 0x1_0000 {
      LeadByte(0xf0, q2 / 64);
      TrailByte(q2 % 64);
      TrailByte(q1 % 64);
      TrailByte(c % 64);
    }
  }

  lemma LeadByte(lead: nat, n: nat)
    requires (lead == 0xc0 && n < 32) || (lead == 0xe0 && n < 16) || (lead == 0xf0 && n < 8)
    ensures lead + n < 256
    ensures (lead + n) / 16 == lead / 16 + n / 16 && n / 16 < 2
    ensures Low(lead + n, 32) == if lead == 0xf0 then 16 + n else n
  {
  }

  lemma TrailByte(n: nat)
    requires n < 64
    ensures Low(0x80 + n, 64) == n
  {
  }

  // ----- characters

  /** `validate_mqtt_utf8_char` finds nothing to object to: neither a wildcard nor
      a control character, a surrogate, or what it takes for a non-character. */
  predicate CharOk(c: int) {
    && c != HASH && c != PLUS
    && c > 0x1f && !(0x7f <= c <= 0x9f) && !(0xd800 <= c <= 0xdfff) && !(0xfdd0 <= c <= 0xfdef)
    && c % 0x100 < 0xfe
  }

  lemma SeenIsAsGood(c: code)
    ensures CharOk(Seen(c)) <==> CharOk(c)
  {
  }

  /** A character that section 1.5.4 of MQTT 5.0 neither forbids nor advises
      against, other than a wildcard. The non-characters are U+FDD0 to U+FDEF and
      the last two code points of each plane. */
  predicate Legal(c: int) {
    && c != 0x23 && c != 0x2b
    && c > 0x1f && !(0x7f <= c <= 0x9f) && !(0xd800 <= c <= 0xdfff) && !(0xfdd0 <= c <= 0xfdef)
    && c % 0x1_0000 < 0xfffe
  }

  /** Taken for a non-character because of its last two digits. */
  predicate Spoiled(c: int) { c % 0x100 >= 0xfe }

  /** The program's test is right except that it spoils too much. */
  lemma CharMeaning(c: int)
    ensures CharOk(c) <==> Legal(c) && !Spoiled(c)
  {
    LastDigits(c);
  }

  /** The last two code points of a plane end in FE and FF. */
  lemma LastDigits(c: int)
    ensures c % 0x1_0000 % 0x100 == c % 0x100
  {
  }

  // ----- the scan

  /** The loop of `validate_topic_filter`; `start` says that the character before
      was none or a '/'. */
  function Scan(s: seq<byte>, start: bool): bool
    decreases |s|
  {
    if s == [] then true
    else
      var (c, rest) := PopFront(s);
      var plus := c == PLUS && start && (rest == [] || rest[0] == SLASH);
      if CharOk(c) || plus then |rest| < |s| && Scan(rest, c == SLASH) else false
  }

  predicate SizeOk(n: nat) { 0 < n <= MAX_SIZE }

  function FilterOk(s: seq<byte>): bool {
    if !SizeOk(|s|) then false
    else if s[|s| - 1] == HASH then
      var t := s[..|s| - 1];
      (t == [] || t[|t| - 1] == SLASH) && Scan(t, true)
    else Scan(s, true)
  }

  /** `validate_topic_filter` */
  method ValidateTopicFilter(s: seq<byte>) returns (valid: bool)
    ensures valid == FilterOk(s)
  {
    if !SizeOk(|s|) {
      return false;
    }
    var str := s;
    if str[|str| - 1] == HASH {
      str := str[..|str| - 1];
      if str != [] && str[|str| - 1] != SLASH {
        return false;
      }
    }
    var lastC := -1;
    ghost var whole := str;
    while str != []
      invariant Scan(whole, true) == Scan(str, lastC == -1 || lastC == SLASH)
      decreases |str|
    {
      var (c, rest) := PopFront(str);
      var plus := c == PLUS && (rest == [] || rest[0] == SLASH) && (lastC == -1 || lastC == SLASH);
      if !CharOk(c) && !plus {
        return false;
      }
      lastC, str := c, rest;
    }
    return true;
  }

  // ----- the same on characters

  predicate CharsOk(cs: seq<code>, start: bool) {
    if cs == [] then true
    else
      var c := cs[0];
      (CharOk(c) || (c == PLUS && start && (|cs| == 1 || cs[1] == SLASH))) && CharsOk(cs[1..], c == SLASH)
  }

  lemma FirstByte(cs: seq<code>)
    requires cs != []
    ensures Utf8(cs) != [] && (Utf8(cs)[0] == SLASH <==> cs[0] == SLASH)
  {
  }

  lemma {:induction false} ScanIsChars(cs: seq<code>, start: bool)
    ensures Scan(Utf8(cs), start) == CharsOk(cs, start)
  {
    if cs != [] {
      var c, rest := cs[0], Utf8(cs[1..]);
      PopBack(c, rest);
      SeenIsAsGood(c);
      if cs[1..] != [] { FirstByte(cs[1..]); }
      ScanIsChars(cs[1..], c == SLASH);
      assert |rest| < |Utf8(cs)|;
    }
  }

  lemma {:induction false} Utf8Concat(a: seq<code>, b: seq<code>)
    ensures Utf8(a + b) == Utf8(a) + Utf8(b)
  {
    if a == [] {
      assert a + b == b;
    } else {
      assert (a + b)[1..] == a[1..] + b;
      Utf8Concat(a[1..], b);
      Seqs.Assoc(Utf8Char(a[0]), Utf8(a[1..]), Utf8(b));
    }
  }

  /** The last byte is an ASCII character only if it is the last character. */
  lemma LastByte(cs: seq<code>)
    requires cs != []
    ensures var s, c := Utf8(cs), cs[|cs| - 1];
      && s != [] && (c < 0x80 ==> s[|s| - 1] == c) && (c >= 0x80 ==> s[|s| - 1] >= 0x80)
      && (c < 0x80 ==> s[..|s| - 1] == Utf8(cs[..|cs| - 1]))
  {
    var front, c := cs[..|cs| - 1], cs[|cs| - 1];
    Utf8Concat(front, [c]);
    Seqs.Last(cs);
    assert Utf8([c]) == Utf8Char(c);
    Seqs.Halves(Utf8(front), Utf8Char(c));
  }

  // ----- levels

  /** The levels of a filter; there is always at least one. */
  function Levels(cs: seq<code>): (r: seq<seq<code>>)
    ensures r != []
  {
    if cs == [] then [[]]
    else
      var rest := Levels(cs[1..]);
      if cs[0] == 0x2f then [[]] + rest else [[cs[0]] + rest[0]] + rest[1..]
  }

  predicate Allowed(level: seq<code>) { forall c :: c in level ==> CharOk(c) }

  predicate Plain(level: seq<code>) { level == [PLUS] || Allowed(level) }

  predicate AllPlain(levels: seq<seq<code>>) { forall l :: l in levels ==> Plain(l) }

  /** All levels are plain, or the last is a lone '#'. */
  predicate LevelsOk(levels: seq<seq<code>>)
    requires levels != []
  {
    var n := |levels| - 1;
    AllPlain(levels[..n]) && (levels[n] == [HASH] || Plain(levels[n]))
  }

  lemma {:induction false} CharsAreLevels(cs: seq<code>, start: bool)
    ensures var ls := Levels(cs);
      CharsOk(cs, start) <==> (if start then Plain(ls[0]) else Allowed(ls[0])) && AllPlain(ls[1..])
  {
    if cs != [] {
      var c, rest := cs[0], Levels(cs[1..]);
      CharsAreLevels(cs[1..], c == SLASH);
      if c == SLASH {
        assert Levels(cs)[1..] == rest && rest == [rest[0]] + rest[1..];
      } else {
        var l := [c] + rest[0];
        assert Levels(cs)[0] == l && Levels(cs)[1..] == rest[1..];
        assert Allowed(l) <==> CharOk(c) && Allowed(rest[0]);
        LoneFirst(cs);
      }
    }
  }

  /** A level is done when the text ends or a '/' follows. */
  lemma LoneFirst(cs: seq<code>)
    requires cs != [] && cs[0] != SLASH
    ensures Levels(cs[1..])[0] == [] <==> |cs| == 1 || cs[1] == SLASH
    ensures [cs[0]] + Levels(cs[1..])[0] == [cs[0]] <==> Levels(cs[1..])[0] == []
  {
    var l := Levels(cs[1..])[0];
    if [cs[0]] + l == [cs[0]] {
      assert |[cs[0]] + l| == 1 + |l|;
    }
  }

  /** The levels with one more character at the end. */
  function Longer(ls: seq<seq<code>>, c: code): seq<seq<code>>
    requires ls != []
  {
    ls[..|ls| - 1] + [ls[|ls| - 1] + [c]]
  }

  lemma LongerTail(l: seq<code>, ls: seq<seq<code>>, c: code)
    requires ls != []
    ensures Longer([l] + ls, c) == [l] + Longer(ls, c)
  {
    assert ([l] + ls)[..|ls|] == [l] + ls[..|ls| - 1];
  }

  lemma {:induction false} LevelsSnoc(cs: seq<code>, c: code)
    requires c != SLASH
    ensures Levels(cs + [c]) == Longer(Levels(cs), c)
  {
    if cs == [] {
      assert cs + [c] == [c] && [c][1..] == [] && [c] + [] == [c] && [] + [c] == [c];
      assert Levels([c]) == [[c]];
    } else {
      assert (cs + [c])[1..] == cs[1..] + [c];
      LevelsSnoc(cs[1..], c);
      var rest := Levels(cs[1..]);
      if cs[0] == SLASH {
        LongerTail([], rest, c);
      } else if |rest| == 1 {
        Seqs.Assoc([cs[0]], rest[0], [c]);
        assert Levels(cs) == [[cs[0]] + rest[0]];
      } else {
        LongerTail([cs[0]] + rest[0], rest[1..], c);
        LongerTail(rest[0], rest[1..], c);
        Seqs.First(rest);
      }
    }
  }

  lemma {:induction false} LastLevelEmpty(cs: seq<code>)
    ensures var ls := Levels(cs);
            ls[|ls| - 1] == [] <==> cs == [] || cs[|cs| - 1] == SLASH
  {
    if cs != [] {
      LastLevelEmpty(cs[1..]);
      if |cs| == 1 { assert cs[1..] == []; }
    }
  }

  /** With a '#' at the end: it must be a level of its own. */
  lemma HashLast(cs: seq<code>)
    ensures var all, ls := Levels(cs + [HASH]), Levels(cs);
      LevelsOk(all) <==> ls[|ls| - 1] == [] && AllPlain(ls)
  {
    var ls := Levels(cs);
    var n := |ls| - 1;
    LevelsSnoc(cs, HASH);
    var last := ls[n] + [HASH];
    assert last[|last| - 1] == HASH && HASH in last;
    assert !Allowed(last) && last != [PLUS];
    assert last == [HASH] <==> ls[n] == [] by {
      assert |last| == |ls[n]| + 1;
    }
    Seqs.Halves(ls[..n], [last]);
    Seqs.Last(ls);
  }

  /** Without one: no level is a lone '#', so all must be plain. */
  lemma NoHashLast(cs: seq<code>)
    requires cs == [] || cs[|cs| - 1] != HASH
    ensures LevelsOk(Levels(cs)) <==> AllPlain(Levels(cs))
  {
    var ls := Levels(cs);
    var n := |ls| - 1;
    Seqs.Last(ls);
    if ls[n] == [HASH] {
      LastOfLevels(cs);
    }
  }

  lemma {:induction false} LastOfLevels(cs: seq<code>)
    ensures var ls := Levels(cs); var l := ls[|ls| - 1];
            l != [] ==> cs != [] && cs[|cs| - 1] == l[|l| - 1]
  {
    if cs != [] {
      LastOfLevels(cs[1..]);
    }
  }

  // ----- what the standard asks for

  /** Section 4.7.3: at least one byte, and at most 65535. */
  predicate LegalSize(n: nat) { 1 <= n <= 65535 }

  predicate LegalText(cs: seq<code>) { forall c :: c in cs ==> Legal(c) }

  predicate LegalLevel(level: seq<code>) { level == [0x2b] || LegalText(level) }

  /** Section 4.7.1: a wildcard stands alone in its level, and '#' in the last. */
  predicate LegalLevels(levels: seq<seq<code>>)
    requires levels != []
  {
    var n := |levels| - 1;
    (forall l :: l in levels[..n] ==> LegalLevel(l)) && (levels[n] == [0x23] || LegalLevel(levels[n]))
  }

  predicate Unspoiled(cs: seq<code>) { forall c :: c in cs ==> !Spoiled(c) }

  lemma TextMeaning(cs: seq<code>)
    ensures Allowed(cs) <==> LegalText(cs) && Unspoiled(cs)
    ensures Plain(cs) <==> LegalLevel(cs) && Unspoiled(cs)
  {
    forall c | c in cs ensures CharOk(c) <==> Legal(c) && !Spoiled(c) { CharMeaning(c); }
  }

  lemma LevelsMeaning(ls: seq<seq<code>>)
    requires ls != []
    ensures LevelsOk(ls) <==> LegalLevels(ls) && forall l :: l in ls ==> Unspoiled(l)
  {
    var n := |ls| - 1;
    Seqs.Last(ls);
    forall l | l in ls ensures Plain(l) <==> LegalLevel(l) && Unspoiled(l) { TextMeaning(l); }
    assert forall l :: l in ls[..n] ==> l in ls;
  }

  /** Splitting loses no character but '/'. */
  lemma {:induction false} LevelsSpoil(cs: seq<code>)
    ensures (forall l :: l in Levels(cs) ==> Unspoiled(l)) <==> Unspoiled(cs)
  {
    if cs != [] {
      var c, rest := cs[0], Levels(cs[1..]);
      LevelsSpoil(cs[1..]);
      Seqs.First(cs);
      Seqs.First(rest);
      assert Unspoiled(cs) <==> !Spoiled(c) && Unspoiled(cs[1..]);
      if c == SLASH {
        assert Unspoiled([]);
      } else {
        assert Unspoiled([c] + rest[0]) <==> !Spoiled(c) && Unspoiled(rest[0]);
      }
    }
  }

  /** The scan accepts exactly the filters of legal size and with legal levels in
      which no code point ends in FE or FF. */
  lemma FilterMeaning(cs: seq<code>)
    ensures FilterOk(Utf8(cs)) <==> LegalSize(|Utf8(cs)|) && LegalLevels(Levels(cs)) && Unspoiled(cs)
  {
    FilterLevels(cs);
    LevelsMeaning(Levels(cs));
    LevelsSpoil(cs);
  }

  /** The letter U+00FF is a legal filter that is rejected. */
  lemma LegalButRejected()
    ensures var cs := [0xff];
      LegalSize(|Utf8(cs)|) && LegalLevels(Levels(cs)) && !FilterOk(Utf8(cs))
  {
    var cs: seq<code> := [0xff];
    assert cs[1..] == [] && [cs[0]] + [] == cs;
    assert Levels(cs) == [cs] && |Utf8(cs)| == 2;
    assert Spoiled(cs[0]) && cs[0] in cs;
    FilterMeaning(cs);
  }

  lemma FilterLevels(cs: seq<code>)
    ensures FilterOk(Utf8(cs)) <==> SizeOk(|Utf8(cs)|) && LevelsOk(Levels(cs))
  {
    if cs != [] {
      LastByte(cs);
      if cs[|cs| - 1] == HASH {
        HashEnding(cs[..|cs| - 1]);
        Seqs.Last(cs);
      } else {
        PlainEnding(cs);
      }
    }
  }

  lemma PlainEnding(cs: seq<code>)
    requires cs != [] && cs[|cs| - 1] != HASH
    ensures Scan(Utf8(cs), true) <==> LevelsOk(Levels(cs))
  {
    ScanIsChars(cs, true);
    CharsAreLevels(cs, true);
    NoHashLast(cs);
    Seqs.First(Levels(cs));
  }

  lemma HashEnding(cs: seq<code>)
    ensures var t := Utf8(cs);
      (t == [] || t[|t| - 1] == SLASH) && Scan(t, true) <==> LevelsOk(Levels(cs + [HASH]))
  {
    ScanIsChars(cs, true);
    CharsAreLevels(cs, true);
    HashLast(cs);
    LastLevelEmpty(cs);
    Seqs.First(Levels(cs));
    if cs != [] { LastByte(cs); }
  }

  // ----- shared subscriptions

  /** "$share/" */
  const SHARE: seq<code> := [0x24, 0x73, 0x68, 0x61, 0x72, 0x65, 0x2f]

  /** `validate_impl` with no wildcards allowed. */
  function ScanName(s: seq<byte>): bool
    decreases |s|
  {
    if s == [] then true
    else
      var (c, rest) := PopFront(s);
      CharOk(c) && |rest| < |s| && ScanName(rest)
  }

  /** Index of the first '/' byte, or the length. */
  function FindSlash(s: seq<byte>): (k: nat)
    ensures k <= |s| && (k < |s| ==> s[k] == SLASH) && forall j :: 0 <= j < k ==> s[j] != SLASH
  {
    if s == [] || s[0] == SLASH then 0 else 1 + FindSlash(s[1..])
  }

  /** A share name, a '/', and a topic filter or name. */
  function TailOk(t: seq<byte>, wildcards: bool): bool {
    var k := FindSlash(t);
    if k == |t| then false
    else
      var name, filter := t[..k], t[k + 1..];
      && name != [] && ScanName(name)
      && (if wildcards then FilterOk(filter) else SizeOk(|filter|) && ScanName(filter))
  }

  /** `validate_shared_topic_filter` */
  function SharedOk(s: seq<byte>, wildcards: bool): bool {
    SizeOk(|s|) && |s| >= 7 && s[..7] == SHARE && TailOk(s[7..], wildcards)
  }

  method ValidateName(s: seq<byte>) returns (valid: bool)
    ensures valid == ScanName(s)
  {
    var str := s;
    while str != []
      invariant ScanName(s) == ScanName(str)
      decreases |str|
    {
      var (c, rest) := PopFront(str);
      if !CharOk(c) {
        return false;
      }
      str := rest;
    }
    return true;
  }

  method ValidateSharedTopicFilter(s: seq<byte>, wildcards: bool) returns (valid: bool)
    ensures valid == SharedOk(s, wildcards)
  {
    if !SizeOk(|s|) || |s| < 7 || s[..7] != SHARE {
      return false;
    }
    var t, k := s[7..], 0;
    while k < |t| && t[k] != SLASH
      invariant k <= |t| && forall j :: 0 <= j < k ==> t[j] != SLASH
    {
      k := k + 1;
    }
    if k == |t| {
      return false;
    }
    var named := ValidateName(t[..k]);
    if k == 0 || !named {
      return false;
    }
    if wildcards {
      valid := ValidateTopicFilter(t[k + 1..]);
    } else {
      valid := ValidateName(t[k + 1..]);
      valid := valid && SizeOk(|t[k + 1..]|);
    }
  }

  lemma {:induction false} NameMeaning(cs: seq<code>)
    ensures ScanName(Utf8(cs)) <==> Allowed(cs)
  {
    if cs != [] {
      PopBack(cs[0], Utf8(cs[1..]));
      SeenIsAsGood(cs[0]);
      NameMeaning(cs[1..]);
      Seqs.First(cs);
    }
  }

  /** A '/' byte is a '/' character. */
  lemma {:induction false} SlashAt(cs: seq<code>, rest: seq<byte>)
    requires SLASH !in cs
    ensures FindSlash(Utf8(cs) + ([SLASH] + rest)) == |Utf8(cs)|
    ensures FindSlash(Utf8(cs)) == |Utf8(cs)|
  {
    if cs == [] {
      assert Utf8(cs) + ([SLASH] + rest) == [SLASH] + rest;
    } else {
      var head, tail := Utf8Char(cs[0]), Utf8(cs[1..]);
      SlashAt(cs[1..], rest);
      assert cs[0] != SLASH;
      SkipBytes(head, tail);
      SkipBytes(head, tail + ([SLASH] + rest));
      Seqs.Assoc(head, tail, [SLASH] + rest);
    }
  }

  lemma {:induction false} SkipBytes(a: seq<byte>, b: seq<byte>)
    requires SLASH !in a
    ensures FindSlash(a + b) == |a| + FindSlash(b)
  {
    if a == [] {
      assert a + b == b;
    } else {
      assert (a + b)[1..] == a[1..] + b;
      SkipBytes(a[1..], b);
    }
  }

  function Sharing(name: seq<code>, filter: seq<code>): seq<code> {
    [0x24, 0x73, 0x68, 0x61, 0x72, 0x65, 0x2f] + (name + ([0x2f] + filter))
  }

  lemma SharingBytes(name: seq<code>, filter: seq<code>)
    ensures Utf8(Sharing(name, filter)) == Utf8(SHARE) + (Utf8(name) + ([SLASH] + Utf8(filter)))
  {
    Utf8Concat(SHARE, name + ([SLASH] + filter));
    Utf8Concat(name, [SLASH] + filter);
    Utf8Concat([SLASH], filter);
    assert Utf8([SLASH]) == [SLASH];
  }

  predicate Ascii(cs: seq<code>) { forall i :: 0 <= i < |cs| ==> cs[i] < 0x80 }

  lemma {:induction false} AsciiBytes(cs: seq<code>)
    requires Ascii(cs)
    ensures Utf8(cs) == cs
  {
    if cs != [] {
      AsciiBytes(cs[1..]);
      assert Utf8Char(cs[0]) == [cs[0]];
      Seqs.First(cs);
    }
  }

  /** What the standard asks for behind the share name. */
  predicate LegalRest(filter: seq<code>, wildcards: bool) {
    if wildcards then LegalLevels(Levels(filter)) else LegalText(filter)
  }

  lemma TailMeaning(name: seq<code>, filter: seq<code>, t: seq<byte>, wildcards: bool)
    requires SLASH !in name && t == Utf8(name) + ([SLASH] + Utf8(filter))
    ensures TailOk(t, wildcards) <==>
      && name != [] && LegalText(name) && LegalSize(|Utf8(filter)|) && LegalRest(filter, wildcards)
      && Unspoiled(name) && Unspoiled(filter)
  {
    var n, f := Utf8(name), Utf8(filter);
    SlashAt(name, f);
    Seqs.Halves(n, [SLASH] + f);
    Seqs.Middle(n, SLASH, f);
    NameMeaning(name);
    TextMeaning(name);
    if wildcards {
      FilterMeaning(filter);
    } else {
      NameMeaning(filter);
      TextMeaning(filter);
    }
  }

  /** Of a string of the right shape, the share name must not be empty and must
      have legal characters only, and the rest must be a topic filter, or a topic
      name where no wildcards are allowed; and no code point may end in FE or FF. */
  lemma SharedMeaning(name: seq<code>, filter: seq<code>, wildcards: bool)
    requires 0x2f !in name
    ensures var s := Utf8(Sharing(name, filter));
      SharedOk(s, wildcards) <==>
        && LegalSize(|s|) && name != [] && LegalText(name) && LegalSize(|Utf8(filter)|) && LegalRest(filter, wildcards)
        && Unspoiled(name) && Unspoiled(filter)
  {
    var t := Utf8(name) + ([SLASH] + Utf8(filter));
    SharingBytes(name, filter);
    AsciiBytes(SHARE);
    Seqs.Halves(SHARE, t);
    TailMeaning(name, filter, t, wildcards);
  }

  /** Whatever is accepted has that shape. */
  lemma SharedShape(cs: seq<code>, wildcards: bool) returns (name: seq<code>, filter: seq<code>)
    requires SharedOk(Utf8(cs), wildcards)
    ensures cs == Sharing(name, filter) && 0x2f !in name
  {
    var s := Utf8(cs);
    assert s == SHARE + s[7..];
    AsciiStart(cs, SHARE, s[7..]);
    name, filter := TailShape(cs[7..]);
  }

  lemma TailShape(t: seq<code>) returns (name: seq<code>, filter: seq<code>)
    requires FindSlash(Utf8(t)) < |Utf8(t)|
    ensures t == name + ([SLASH] + filter) && SLASH !in name
  {
    var k := FirstSlash(t);
    if k == |t| {
      assert t[..k] == t;
      SlashAt(t, []);
      assert false;
    }
    name, filter := t[..k], t[k + 1..];
  }

  function FirstSlash(cs: seq<code>): (k: nat)
    ensures k <= |cs| && (k < |cs| ==> cs[k] == SLASH) && SLASH !in cs[..k]
  {
    if cs == [] || cs[0] == SLASH then 0
    else
      var k := FirstSlash(cs[1..]);
      assert cs[..k + 1] == [cs[0]] + cs[1..][..k];
      k + 1
  }

  lemma LeadOf(c: code)
    ensures c < 0x80 ==> Utf8Char(c) == [c]
    ensures c >= 0x80 ==> Utf8Char(c)[0] >= 0x80
  {
  }

  lemma FirstAscii(cs: seq<code>, b: code, r: seq<byte>)
    requires b < 0x80 && Utf8(cs) == [b] + r
    ensures cs != [] && cs[0] == b && Utf8(cs[1..]) == r
  {
    LeadOf(cs[0]);
    Seqs.Halves(Utf8Char(cs[0]), Utf8(cs[1..]));
    Seqs.Halves([b], r);
  }

  /** Bytes that begin like an ASCII string come from characters that do. */
  lemma {:induction false} AsciiStart(cs: seq<code>, a: seq<code>, r: seq<byte>)
    requires Ascii(a) && Utf8(cs) == a + r
    ensures |a| <= |cs| && cs == a + cs[|a|..] && Utf8(cs[|a|..]) == r
  {
    if a == [] {
      assert cs[0..] == cs && a + r == r;
    } else {
      Seqs.First(a);
      Seqs.Assoc([a[0]], a[1..], r);
      FirstAscii(cs, a[0], a[1..] + r);
      AsciiStart(cs[1..], a[1..], r);
      Seqs.First(cs);
    }
  }
}
