/**
 The assembler (`assemble_op`): packets are cut out of a byte stream that
 arrives in reads of any size, over a buffer that is compacted before each read.
 What it emits depends on the stream alone, never on how it was split.
 */
module Assembler {
  import opened Varint
  import Seqs

  datatype Frame = Frame(control: byte, body: seq<byte>)

  /** What the bytes at hand allow: read more, give up, or take a packet. */
  datatype Look = NeedMore | Bad | Whole(frame: Frame, size: nat)

  /** Reserved flag bits: 2 for PUBREL, anything for PUBLISH, 0 otherwise. */
  predicate ValidHeader(control: byte) {
    control / 16 == 3 || control % 16 == if control / 16 == 6 then 2 else 0
  }

  function NextFrame(limit: nat, data: seq<byte>): Look {
    if data == [] then NeedMore
    else if data[0] / 16 == 0 then Bad
    else
      match ParseVarint(data[1..])
      case Fail => if |data| < 5 then NeedMore else Bad
      case Done(n, rest) =>
        ParsedBound(data[1..], 0);
        var header: nat := |data| - |rest|;
        if n > limit - header then Bad
        else if |rest| < n then NeedMore
        else if !ValidHeader(data[0]) then Bad
        else Whole(Frame(data[0], rest[..n]), header + n)
  }

  /** The packets of a stream, how many bytes they take up, and what is left behind
      them: an unfinished packet, or a malformed one, which ends the connection. */
  datatype Outcome = Outcome(frames: seq<Frame>, malformed: bool, used: nat, rest: seq<byte>)

  function Frames(limit: nat, data: seq<byte>): Outcome
    decreases |data|
  {
    match NextFrame(limit, data)
    case NeedMore => Outcome([], false, 0, data)
    case Bad => Outcome([], true, 0, data)
    case Whole(f, size) =>
      if size == 0 || size > |data| then Outcome([], true, 0, data)
      else
        var more := Frames(limit, data[size..]);
        more.(frames := [f] + more.frames, used := size + more.used)
  }

  /** Feeding reads one after the other, each added to what was left before. */
  function FeedAll(limit: nat, data: seq<byte>, chunks: seq<seq<byte>>): Outcome
    decreases |chunks|
  {
    var now := Frames(limit, data);
    if chunks == [] || now.malformed then now
    else
      var more := FeedAll(limit, now.rest + chunks[0], chunks[1..]);
      more.(frames := now.frames + more.frames, used := now.used + more.used)
  }

  function Flatten(chunks: seq<seq<byte>>): seq<byte> {
    if chunks == [] then [] else chunks[0] + Flatten(chunks[1..])
  }

  // ----- more bytes do not change what was decided

  lemma WholeFits(limit: nat, data: seq<byte>)
    ensures var look := NextFrame(limit, data); look.Whole? ==> 2 <= look.size <= |data|
  {
    if data != [] { ParsedBound(data[1..], 0); }
  }

  /** While more is needed there is room for it. */
  lemma RoomForMore(limit: nat, data: seq<byte>)
    requires limit >= 5 && NextFrame(limit, data).NeedMore?
    ensures |data| < limit
  {
    if data != [] { ParsedBound(data[1..], 0); }
  }

  lemma DecidedStays(limit: nat, data: seq<byte>, more: seq<byte>)
    requires !NextFrame(limit, data).NeedMore?
    ensures NextFrame(limit, data + more) == NextFrame(limit, data)
  {
    var s := data[1..];
    assert (data + more)[1..] == s + more && (data + more)[0] == data[0];
    ParseFromExtends(s, more, 0);
    ParsedBound(s, 0);
    var p := ParseVarint(s);
    if p.Done? && |p.rest| >= p.value {
      assert (p.rest + more)[..p.value] == p.rest[..p.value];
    }
  }

  /** What was left when the bytes ran out can be taken up again. */
  lemma {:induction false} Resumes(limit: nat, data: seq<byte>, more: seq<byte>)
    ensures var now, all := Frames(limit, data), Frames(limit, data + more);
      if now.malformed then all == now.(rest := now.rest + more)
      else all == var next := Frames(limit, now.rest + more);
                  next.(frames := now.frames + next.frames, used := now.used + next.used)
    decreases |data|
  {
    WholeFits(limit, data);
    var look := NextFrame(limit, data);
    if look.NeedMore? {
      var next := Frames(limit, data + more);
      assert [] + next.frames == next.frames;
    } else {
      DecidedStays(limit, data, more);
      if look.Whole? {
        assert (data + more)[look.size..] == data[look.size..] + more;
        Resumes(limit, data[look.size..], more);
        var tail := Frames(limit, data[look.size..]);
        Seqs.Assoc([look.frame], tail.frames, Frames(limit, tail.rest + more).frames);
      }
    }
  }

  /** Chunking independence: any split of a stream into reads gives the packets
      of the stream, and a malformed packet is found at the same position. */
  lemma {:induction false} ChunkingIsIrrelevant(limit: nat, data: seq<byte>, chunks: seq<seq<byte>>)
    ensures var split, whole := FeedAll(limit, data, chunks), Frames(limit, data + Flatten(chunks));
      split.frames == whole.frames && split.malformed == whole.malformed && split.used == whole.used
    decreases |chunks|
  {
    var now := Frames(limit, data);
    Resumes(limit, data, Flatten(chunks));
    if chunks == [] {
      assert data + Flatten(chunks) == data;
    } else if !now.malformed {
      ChunkingIsIrrelevant(limit, now.rest + chunks[0], chunks[1..]);
      Seqs.Assoc(now.rest, chunks[0], Flatten(chunks[1..]));
    }
  }

  /** The position is where the rest begins. */
  lemma {:induction false} UsedIsPosition(limit: nat, data: seq<byte>)
    ensures var o := Frames(limit, data); o.used <= |data| && o.rest == data[o.used..]
    decreases |data|
  {
    WholeFits(limit, data);
    var look := NextFrame(limit, data);
    if look.Whole? {
      UsedIsPosition(limit, data[look.size..]);
    }
  }

  // ----- streams of packets

  /** A packet as the encoders write it. */
  function Wire(f: Frame): seq<byte> { [f.control] + (VarBytes(|f.body|) + f.body) }

  function WireAll(fs: seq<Frame>): seq<byte> {
    if fs == [] then [] else Wire(fs[0]) + WireAll(fs[1..])
  }

  /** The control bytes of MQTT: any flags for PUBLISH, 0010 for PUBREL, and 0000 for
      every other type but the reserved 0. */
  predicate Legal(control: byte) {
    || 0x30 <= control <= 0x3f || control == 0x62
    || control in {0x10, 0x20, 0x40, 0x50, 0x70, 0x80, 0x90, 0xa0, 0xb0, 0xc0, 0xd0, 0xe0, 0xf0}
  }

  /** A packet that the receiver allows. */
  predicate Receivable(limit: nat, f: Frame) {
    Legal(f.control) && |f.body| <= 268_435_455 && |Wire(f)| <= limit
  }

  lemma LegalIsValid(control: byte)
    ensures Legal(control) <==> control / 16 != 0 && ValidHeader(control)
  {
    var kind, flags := control / 16, control % 16;
    assert control == 16 * kind + flags;
  }

  /** A packet that is at hand to the end comes out whole if and only if it is no larger
      than the limit and its control byte is legal; otherwise the stream is bad. */
  lemma ControlByteDecides(limit: nat, f: Frame, suffix: seq<byte>)
    requires |f.body| <= 268_435_455
    ensures NextFrame(limit, Wire(f) + suffix)
         == if Legal(f.control) && |Wire(f)| <= limit then Whole(f, |Wire(f)|) else Bad
  {
    var n := VarBytes(|f.body|);
    Seqs.Assoc([f.control], n + f.body, suffix);
    Seqs.Assoc(n, f.body, suffix);
    Seqs.Halves([f.control], n + (f.body + suffix));
    VarintRoundTrip(|f.body|, f.body + suffix);
    Seqs.Halves(f.body, suffix);
    LegalIsValid(f.control);
  }

  /** A packet that is cut short makes the receiver wait for the rest of it. */
  lemma PrefixNeedsMore(limit: nat, f: Frame, k: nat)
    requires Receivable(limit, f) && k < |Wire(f)|
    ensures NextFrame(limit, Wire(f)[..k]) == NeedMore
  {
    var n, data := VarBytes(|f.body|), Wire(f)[..k];
    if k > 0 {
      LegalIsValid(f.control);
      VarintRoundTrip(|f.body|, []);
      if k <= |n| {
        assert data[1..] == n[..k - 1];
        StrictPrefixRejected(|f.body|, k - 1);
      } else {
        assert data[1..] == n + f.body[..k - 1 - |n|];
        VarintRoundTrip(|f.body|, f.body[..k - 1 - |n|]);
      }
    }
  }

  /** Packets written one after the other are cut apart again, with an unfinished
      packet behind them left for later. */
  lemma {:induction false} PacketsComeBack(limit: nat, fs: seq<Frame>)
    requires forall f :: f in fs ==> Receivable(limit, f)
    ensures Frames(limit, WireAll(fs)) == Outcome(fs, false, |WireAll(fs)|, [])
  {
    if fs != [] {
      assert fs[0] in fs;
      ControlByteDecides(limit, fs[0], WireAll(fs[1..]));
      Seqs.Halves(Wire(fs[0]), WireAll(fs[1..]));
      PacketsComeBack(limit, fs[1..]);
    }
  }

  // ----- the program

  function Zeros(n: nat): seq<byte> { seq(n, i => 0) }

  /** How far the packets of `all` have been taken: those in `frames`, which take
      up `used` bytes, the one just found, and those still in `data`. */
  ghost predicate SoFar(limit: nat, all: seq<byte>, frames: seq<Frame>, used: nat, look: Look, data: seq<byte>) {
    var o, more := Frames(limit, all), Frames(limit, data);
    if look.NeedMore? then o == Outcome(frames, false, used, data) && NextFrame(limit, data).NeedMore?
    else if look.Bad? then o.frames == frames && o.malformed && o.used == used
    else o == more.(frames := frames + [look.frame] + more.frames, used := used + look.size + more.used)
  }

  lemma Begun(limit: nat, all: seq<byte>)
    ensures var look := NextFrame(limit, all);
      SoFar(limit, all, [], 0, look, if look.Whole? && look.size <= |all| then all[look.size..] else all)
  {
    WholeFits(limit, all);
  }

  /** One more packet has been taken; now the front of `data` is looked at. */
  lemma Continued(limit: nat, all: seq<byte>, frames: seq<Frame>, used: nat, look: Look, data: seq<byte>)
    requires look.Whole? && frames != [] && frames[|frames| - 1] == look.frame && used >= look.size
    requires SoFar(limit, all, frames[..|frames| - 1], used - look.size, look, data)
    ensures data == [] ==> Frames(limit, all) == Outcome(frames, false, used, [])
    ensures var next := NextFrame(limit, data);
      SoFar(limit, all, frames, used, next, if next.Whole? && next.size <= |data| then data[next.size..] else data)
  {
    WholeFits(limit, data);
    var next := NextFrame(limit, data);
    assert frames[..|frames| - 1] + [look.frame] == frames;
    if next.Whole? {
      Seqs.Assoc(frames, [next.frame], Frames(limit, data[next.size..]).frames);
    } else {
      assert frames + [] == frames;
    }
  }

  /** The stream `past` has been dealt with: its packets, how far they reach, and
      what is left. */
  ghost predicate Reached(
    limit: nat, past: seq<byte>, frames: seq<Frame>, malformed: bool, used: nat, data: seq<byte>)
  {
    var o := Frames(limit, past);
    && frames == o.frames && malformed == o.malformed && used == o.used
    && (!malformed ==> data == o.rest && NextFrame(limit, data).NeedMore?)
  }

  lemma Further(limit: nat, past: seq<byte>, frames: seq<Frame>, used: nat, data: seq<byte>, bytes: seq<byte>,
                more: seq<Frame>, bad: bool, further: nat, after: seq<byte>)
    requires Reached(limit, past, frames, false, used, data)
    requires Reached(limit, data + bytes, more, bad, further, after)
    ensures Reached(limit, past + bytes, frames + more, bad, used + further, after)
  {
    Resumes(limit, past, bytes);
  }

  class Assembler {
    const limit: nat
    var readBuff: seq<byte>
    var first: nat
    var last: nat

    ghost predicate Valid()
      reads this
    {
      limit >= 5 && first <= last <= |readBuff| <= limit
    }

    /** The active span. */
    ghost function Data(): seq<byte>
      reads this
      requires Valid()
    {
      readBuff[first..last]
    }

    constructor (limit: nat)
      requires limit >= 5
      ensures Valid() && Data() == [] && this.limit == limit
    {
      this.limit := limit;
      readBuff, first, last := [], 0, 0;
    }

    /** The first half of `perform`: consumed bytes are erased and the buffer is
        given its full size again. */
    method Compact()
      requires Valid()
      modifies this
      ensures Valid() && Data() == old(Data()) && first == 0 && |readBuff| == limit
    {
      ghost var data := Data();
      var size := last - first;
      readBuff := readBuff[first..];
      assert readBuff[..size] == data;
      readBuff := readBuff + Zeros(limit - |readBuff|);
      first, last := 0, size;
      assert readBuff[first..last] == data;
    }

    /** `perform`. With `atLeastOne` the bytes at hand are known not to suffice.
        The result is the room offered to a read, or 0 if the bytes at hand are
        to be looked at first. */
    method Perform(atLeastOne: bool) returns (room: nat)
      requires Valid() && (atLeastOne ==> NextFrame(limit, Data()).NeedMore?)
      modifies this
      ensures Valid() && Data() == old(Data()) && first == 0 && |readBuff| == limit
      ensures room == if !atLeastOne && Data() != [] then 0 else limit - |Data()|
      ensures room == 0 <==> !atLeastOne && Data() != []
    {
      Compact();
      if atLeastOne { RoomForMore(limit, Data()); }
      room := if !atLeastOne && last > 0 then 0 else |readBuff| - last;
    }

    /** The bytes of a read are stored behind the span, which grows over them. */
    method Store(bytes: seq<byte>)
      requires Valid() && |bytes| <= |readBuff| - last
      modifies this
      ensures Valid() && Data() == old(Data()) + bytes && |readBuff| == old(|readBuff|)
    {
      readBuff := readBuff[..last] + bytes + readBuff[last + |bytes|..];
      last := last + |bytes|;
    }

    /** The rest of `on_read`: a packet at the front of the span is cut off. */
    method Examine() returns (look: Look)
      requires Valid() && Data() != []
      modifies this
      ensures Valid() && look == NextFrame(limit, old(Data()))
      ensures match look
              case NeedMore => Data() == old(Data())
              case Bad => Data() == []
              case Whole(_, size) => 2 <= size <= |old(Data())| && Data() == old(Data())[size..]
    {
      ghost var data := Data();
      WholeFits(limit, data);
      var control := readBuff[first];
      if control / 16 == 0 {
        first, last := |readBuff|, |readBuff|;
        return Bad;
      }
      assert readBuff[first + 1..last] == data[1..];
      var varlen := VarintParser(readBuff[first + 1..last]);
      if varlen.Fail? {
        if last - first < 5 {
          return NeedMore;
        }
        first, last := |readBuff|, |readBuff|;
        return Bad;
      }
      var header := last - first - |varlen.rest|;
      if varlen.value > limit - header {
        first, last := |readBuff|, |readBuff|;
        return Bad;
      }
      if |varlen.rest| < varlen.value {
        return NeedMore;
      }
      var size := header + varlen.value;
      if !ValidHeader(control) {
        first, last := |readBuff|, |readBuff|;
        return Bad;
      }
      first := first + size;
      return Whole(Frame(control, varlen.rest[..varlen.value]), size);
    }

    /** One read and all the iterations without a read that follow it, until
        more bytes are needed: each of them takes a packet, so they end. */
    method Feed(bytes: seq<byte>) returns (frames: seq<Frame>, malformed: bool, ghost used: nat)
      requires Valid() && bytes != [] && |bytes| <= |readBuff| - last
      modifies this
      ensures Valid()
      ensures Reached(limit, old(Data()) + bytes, frames, malformed, used, Data())
    {
      ghost var all := Data() + bytes;
      Store(bytes);
      frames, malformed, used := [], false, 0;
      var look := Examine();
      Begun(limit, all);
      while look.Whole?
        invariant Valid() && SoFar(limit, all, frames, used, look, Data())
        decreases look.Whole?, |Data()|
      {
        frames, used := frames + [look.frame], used + look.size;
        var room := Perform(false);
        Continued(limit, all, frames, used, look, Data());
        if room > 0 {
          return frames, false, used;
        }
        look := Examine();
      }
      malformed := look.Bad?;
    }

    /** A chunk of the stream, in as many reads as the room offered makes of it;
        the room is never empty, so the chunk is used up. */
    method FeedChunk(chunk: seq<byte>) returns (frames: seq<Frame>, malformed: bool, ghost used: nat)
      requires Valid() && NextFrame(limit, Data()).NeedMore?
      modifies this
      ensures Valid() && Reached(limit, old(Data()) + chunk, frames, malformed, used, Data())
    {
      var left := chunk;
      frames, malformed, used := [], false, 0;
      ghost var past := Data();
      assert past + left == old(Data()) + chunk;
      while left != [] && !malformed
        invariant Valid() && past + left == old(Data()) + chunk
        invariant Reached(limit, past, frames, malformed, used, Data())
        decreases |left|
      {
        var room := Perform(true);
        var n := if room < |left| then room else |left|;
        ghost var data := Data();
        var more, bad, further := Feed(left[..n]);
        Further(limit, past, frames, used, data, left[..n], more, bad, further, Data());
        Seqs.Cut(past, left, n);
        past, left := past + left[..n], left[n..];
        frames, malformed, used := frames + more, bad, used + further;
      }
      Resumes(limit, past, left);
      assert left == [] ==> past + left == past;
    }

    /** Any stream in any chunks gives the packets of the stream, and a malformed
        packet is reported at its position in the stream. */
    method Assemble(chunks: seq<seq<byte>>) returns (frames: seq<Frame>, malformed: bool, ghost used: nat)
      requires Valid() && Data() == []
      modifies this
      ensures Valid()
      ensures var o := Frames(limit, Flatten(chunks));
              frames == o.frames && malformed == o.malformed && used == o.used
    {
      frames, malformed, used := [], false, 0;
      ghost var past := [];
      var i := 0;
      while i < |chunks| && !malformed
        invariant 0 <= i <= |chunks| && Valid() && past + Flatten(chunks[i..]) == Flatten(chunks)
        invariant Reached(limit, past, frames, malformed, used, Data())
      {
        ghost var data := Data();
        var more, bad, further := FeedChunk(chunks[i]);
        Further(limit, past, frames, used, data, chunks[i], more, bad, further, Data());
        assert chunks[i..][1..] == chunks[i + 1..];
        Seqs.Assoc(past, chunks[i], Flatten(chunks[i + 1..]));
        past := past + chunks[i];
        frames, malformed, used, i := frames + more, bad, used + further, i + 1;
      }
      Resumes(limit, past, Flatten(chunks[i..]));
      assert i == |chunks| ==> past + Flatten(chunks[i..]) == past;
    }
  }
}
