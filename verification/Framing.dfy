/** Length-prefixed framing over a byte stream: the writer, the reader with its
    leftover buffer, and the round trip under any splitting of the stream into reads. */
module Framing {

  newtype Byte = x: int | 0 <= x < 256

  type Payload = seq<Byte>

  const MAX_MESSAGE_SIZE: nat := 16 * 1024 * 1024
  const TWO_TO_32: nat := 0x1_0000_0000

  // ------------------------------------------------- the format

  /** A size as four bytes, most significant first; sizes are truncated to 32 bits. */
  function Header(size: nat): (h: seq<Byte>)
    ensures |h| == 4
  {
    var n := size % TWO_TO_32;
    [(n / 0x100_0000) as Byte, (n / 0x1_0000 % 0x100) as Byte, (n / 0x100 % 0x100) as Byte, (n % 0x100) as Byte]
  }

  function ReadSize(buf: seq<Byte>): nat
    requires |buf| >= 4
  {
    buf[0] as nat * 0x100_0000 + buf[1] as nat * 0x1_0000 + buf[2] as nat * 0x100 + buf[3] as nat
  }

  lemma {:induction false} BytesMakeTheSize(n: nat)
    requires n < TWO_TO_32
    ensures n / 0x100_0000 < 0x100
    ensures n / 0x100_0000 * 0x100_0000 + n / 0x1_0000 % 0x100 * 0x1_0000 + n / 0x100 % 0x100 * 0x100 + n % 0x100 == n
  {
    var high, middle := n / 0x1_0000, n / 0x100;
    assert high == n / 0x100_0000 * 0x100 + high % 0x100;
    assert middle == high * 0x100 + middle % 0x100;
    assert n == middle * 0x100 + n % 0x100;
  }

  lemma {:induction false} HeaderRoundTrip(size: nat, rest: seq<Byte>)
    ensures ReadSize(Header(size) + rest) == size % TWO_TO_32
  {
    BytesMakeTheSize(size % TWO_TO_32);
    assert (Header(size) + rest)[..4] == Header(size);
  }

  /** The first place where two headers differ decides which size is smaller. */
  lemma {:induction false} FirstDifferenceDecides(a: seq<Byte>, b: seq<Byte>)
    requires |a| == |b| == 4 && ReadSize(a) < ReadSize(b)
    ensures exists k :: 0 <= k < 4 && a[..k] == b[..k] && a[k] < b[k]
  {
    var k := if a[0] != b[0] then 0 else if a[1] != b[1] then 1 else if a[2] != b[2] then 2 else 3;
    assert a[..k] == b[..k] && a[k] < b[k];
  }

  /** The most significant byte comes first: headers are ordered as the sizes they hold. */
  lemma {:induction false} HeadersAreOrdered(a: nat, b: nat)
    requires a < b < TWO_TO_32
    ensures exists k :: 0 <= k < 4 && Header(a)[..k] == Header(b)[..k] && Header(a)[k] < Header(b)[k]
  {
    HeaderRoundTrip(a, []);
    HeaderRoundTrip(b, []);
    assert Header(a) + [] == Header(a) && Header(b) + [] == Header(b);
    FirstDifferenceDecides(Header(a), Header(b));
  }

  function Frame(p: Payload): seq<Byte>
  {
    Header(|p|) + p
  }

  /** The bytes written for a sequence of payloads. */
  function Written(ps: seq<Payload>): seq<Byte>
  {
    if ps == [] then [] else Written(ps[..|ps| - 1]) + Frame(ps[|ps| - 1])
  }

  /** What a buffer holds: complete frames and a leftover, or an oversized frame. */
  datatype Parsed = Parsed(frames: seq<Payload>, rest: seq<Byte>) | TooLarge

  /** `buf` does not begin with a complete frame nor with an oversized one. */
  predicate IsPartial(buf: seq<Byte>)
  {
    |buf| < 4 || (ReadSize(buf) <= MAX_MESSAGE_SIZE && |buf| < 4 + ReadSize(buf))
  }

  function Parse(buf: seq<Byte>): Parsed
    decreases |buf|
  {
    if IsPartial(buf) then Parsed([], buf)
    else if ReadSize(buf) > MAX_MESSAGE_SIZE then TooLarge
    else Prepend([buf[4..4 + ReadSize(buf)]], Parse(buf[4 + ReadSize(buf)..]))
  }

  function Prepend(frames: seq<Payload>, parsed: Parsed): Parsed
  {
    if parsed.TooLarge? then TooLarge else Parsed(frames + parsed.frames, parsed.rest)
  }

  lemma {:induction false} PrependTwice(a: seq<Payload>, b: seq<Payload>, parsed: Parsed)
    ensures Prepend(a, Prepend(b, parsed)) == Prepend(a + b, parsed)
    ensures Prepend([], parsed) == parsed
  {
    if parsed.Parsed? {
      assert a + (b + parsed.frames) == a + b + parsed.frames;
      assert [] + parsed.frames == parsed.frames;
    }
  }

  // ------------------------------------------------- reading in pieces

  /** Bytes that arrive later do not change what has been extracted already. */
  lemma {:induction false} ParseAppend(a: seq<Byte>, b: seq<Byte>)
    ensures Parse(a + b) == if Parse(a).TooLarge? then TooLarge else Prepend(Parse(a).frames, Parse(Parse(a).rest + b))
    decreases |a|
  {
    if IsPartial(a) {
      PrependTwice([], [], Parse(a + b));
    } else {
      assert (a + b)[..4] == a[..4] && ReadSize(a + b) == ReadSize(a);
      if ReadSize(a) <= MAX_MESSAGE_SIZE {
        var n := 4 + ReadSize(a);
        assert (a + b)[4..n] == a[4..n] && (a + b)[n..] == a[n..] + b;
        ParseAppend(a[n..], b);
        if Parse(a[n..]).Parsed? {
          PrependTwice([a[4..n]], Parse(a[n..]).frames, Parse(Parse(a[n..]).rest + b));
        }
      }
    }
  }

  /** What is left in the buffer is never a complete frame. */
  lemma {:induction false} RestIsPartial(buf: seq<Byte>)
    ensures Parse(buf).Parsed? ==> IsPartial(Parse(buf).rest)
    decreases |buf|
  {
    if !IsPartial(buf) && ReadSize(buf) <= MAX_MESSAGE_SIZE {
      RestIsPartial(buf[4 + ReadSize(buf)..]);
    }
  }

  function Joined(chunks: seq<seq<Byte>>): seq<Byte>
  {
    if chunks == [] then [] else Joined(chunks[..|chunks| - 1]) + chunks[|chunks| - 1]
  }

  /** Everything extracted so far and the leftover, after reading `chunks` one by one. */
  function Reading(chunks: seq<seq<Byte>>): Parsed
  {
    if chunks == [] then Parsed([], [])
    else
      var before := Reading(chunks[..|chunks| - 1]);
      if before.TooLarge? then TooLarge else Prepend(before.frames, Parse(before.rest + chunks[|chunks| - 1]))
  }

  /** However the stream is split into reads, the reader extracts the same frames. */
  lemma {:induction false} ChunkingDoesNotMatter(chunks: seq<seq<Byte>>)
    ensures Reading(chunks) == Parse(Joined(chunks))
  {
    if chunks != [] {
      var before := chunks[..|chunks| - 1];
      ChunkingDoesNotMatter(before);
      ParseAppend(Joined(before), chunks[|chunks| - 1]);
    }
  }

  // ------------------------------------------------- the round trip

  predicate AllFit(ps: seq<Payload>)
  {
    forall n :: 0 <= n < |ps| ==> |ps[n]| <= MAX_MESSAGE_SIZE
  }

  lemma {:induction false} ParseFrame(p: Payload)
    requires |p| <= MAX_MESSAGE_SIZE
    ensures Parse(Frame(p)) == Parsed([p], [])
  {
    HeaderRoundTrip(|p|, p);
    assert Frame(p)[4..4 + |p|] == p && Frame(p)[4 + |p|..] == [];
    assert Parse([]) == Parsed([], []);
  }

  lemma {:induction false} ParseWritten(ps: seq<Payload>)
    requires AllFit(ps)
    ensures Parse(Written(ps)) == Parsed(ps, [])
  {
    if ps != [] {
      var before, last := ps[..|ps| - 1], ps[|ps| - 1];
      ParseWritten(before);
      ParseAppend(Written(before), Frame(last));
      assert [] + Frame(last) == Frame(last);
      ParseFrame(last);
      assert ps == before + [last];
    }
  }

  /** A frame that does not fit is refused, or read as something else. */
  lemma {:induction false} OversizedIsLost(p: Payload, after: seq<Byte>)
    requires |p| > MAX_MESSAGE_SIZE
    ensures var parsed := Parse(Frame(p) + after); parsed.TooLarge? || parsed.frames == [] || |parsed.frames[0]| != |p|
  {
    HeaderRoundTrip(|p|, p + after);
    assert Frame(p) + after == Header(|p|) + (p + after);
  }

  lemma {:induction false} Associative<T>(a: seq<T>, b: seq<T>, c: seq<T>)
    ensures a + (b + c) == (a + b) + c
  {
  }

  lemma {:induction false} WrittenOneMore(ps: seq<Payload>, p: Payload)
    ensures Written(ps + [p]) == Written(ps) + Frame(p)
  {
    assert (ps + [p])[..|ps|] == ps;
  }

  lemma {:induction false} WrittenSplits(a: seq<Payload>, b: seq<Payload>)
    ensures Written(a + b) == Written(a) + Written(b)
    decreases |b|
  {
    if b == [] {
      assert a + b == a;
    } else {
      var front, last := b[..|b| - 1], b[|b| - 1];
      WrittenSplits(a, front);
      WrittenOneMore(front, last);
      WrittenOneMore(a + front, last);
      assert front + [last] == b;
      Associative(a, front, [last]);
      Associative(Written(a), Written(front), Frame(last));
    }
  }

  lemma {:induction false} FirstOversized(ps: seq<Payload>) returns (n: nat)
    requires !AllFit(ps)
    ensures n < |ps| && |ps[n]| > MAX_MESSAGE_SIZE && AllFit(ps[..n])
  {
    var k :| 0 <= k < |ps| && |ps[k]| > MAX_MESSAGE_SIZE;
    if AllFit(ps[..k]) {
      n := k;
    } else {
      n := FirstOversized(ps[..k]);
      assert ps[..k][..n] == ps[..n];
    }
  }

  lemma {:induction false} WrittenAround(ps: seq<Payload>, n: nat)
    requires n < |ps|
    ensures Written(ps) == Written(ps[..n]) + (Frame(ps[n]) + Written(ps[n + 1..]))
  {
    assert ps == ps[..n] + ([ps[n]] + ps[n + 1..]);
    WrittenSplits(ps[..n], [ps[n]] + ps[n + 1..]);
    WrittenSplits([ps[n]], ps[n + 1..]);
    WrittenOne(ps[n]);
  }

  /** After the payloads before the first oversized one, the reader fails or goes astray. */
  lemma {:induction false} OversizedIsNotReturned(before: seq<Payload>, p: Payload, after: seq<Byte>)
    requires AllFit(before) && |p| > MAX_MESSAGE_SIZE
    ensures var parsed := Parse(Written(before) + (Frame(p) + after));
            parsed.Parsed? && |parsed.frames| > |before| ==> parsed.frames[|before|] != p
  {
    ParseWritten(before);
    ParseAppend(Written(before), Frame(p) + after);
    assert [] + (Frame(p) + after) == Frame(p) + after;
    OversizedIsLost(p, after);
  }

  /** Round trip: for any splitting of the written bytes into reads, the reader
      extracts exactly the written payloads in order and nothing is left over, if and
      only if every payload is at most 16 MiB. */
  lemma {:induction false} RoundTrip(ps: seq<Payload>, chunks: seq<seq<Byte>>)
    requires Joined(chunks) == Written(ps)
    ensures Reading(chunks) == Parsed(ps, []) <==> AllFit(ps)
    ensures AllFit(ps) <==> forall n :: 0 <= n < |ps| ==> |ps[n]| <= 16_777_216
  {
    ChunkingDoesNotMatter(chunks);
    if AllFit(ps) {
      ParseWritten(ps);
    } else {
      var n := FirstOversized(ps);
      WrittenAround(ps, n);
      OversizedIsNotReturned(ps[..n], ps[n], Written(ps[n + 1..]));
    }
  }

  lemma {:induction false} WrittenOne(p: Payload)
    ensures Written([p]) == Frame(p)
  {
    assert [p][..0] == [];
    assert Written([]) == [];
  }

  /** Between reads, the reader has extracted the payloads whose frames have arrived in
      full, and its buffer is a proper prefix of the next frame. */
  lemma {:induction false} BetweenReads(ps: seq<Payload>, chunks: seq<seq<Byte>>) returns (k: nat)
    requires AllFit(ps) && Joined(chunks) <= Written(ps)
    ensures ExtractedUpTo(ps, Reading(chunks), k)
  {
    ChunkingDoesNotMatter(chunks);
    k := ParsePrefix(ps, Joined(chunks));
  }

  /** `k` payloads have been extracted, and the rest is the beginning of the next frame. */
  predicate ExtractedUpTo(ps: seq<Payload>, parsed: Parsed, k: nat)
  {
    && k <= |ps| && parsed.Parsed? && parsed.frames == ps[..k]
    && if k == |ps| then parsed.rest == [] else parsed.rest < Frame(ps[k])
  }

  /** The frames before the last have arrived, and `extra` of the last one. */
  lemma {:induction false} LastFramePartial(before: seq<Payload>, last: Payload, extra: seq<Byte>) returns (k: nat)
    requires AllFit(before) && |last| <= MAX_MESSAGE_SIZE && extra <= Frame(last)
    ensures ExtractedUpTo(before + [last], Parse(Written(before) + extra), k)
  {
    ParseWritten(before);
    ParseAppend(Written(before), extra);
    assert [] + extra == extra;
    if extra == Frame(last) {
      ParseFrame(last);
      k := |before| + 1;
    } else {
      PartOfFrameIsPartial(last, extra);
      assert Parse(extra) == Parsed([], extra) && before + [] == before;
      k := |before|;
    }
  }

  lemma {:induction false} ParsePrefix(ps: seq<Payload>, arrived: seq<Byte>) returns (k: nat)
    requires AllFit(ps) && arrived <= Written(ps)
    ensures ExtractedUpTo(ps, Parse(arrived), k)
  {
    if ps == [] {
      return 0;
    }
    var before, last := ps[..|ps| - 1], ps[|ps| - 1];
    assert before + [last] == ps;
    var boundary := |Written(before)|;
    if |arrived| < boundary {
      assert arrived == Written(ps)[..|arrived|] == Written(before)[..|arrived|];
      k := ParsePrefix(before, arrived);
      if k == |before| {
        assert Parse(arrived) == Parsed(before, []);
        ArrivedInFull(before, arrived);
      }
      assert before[..k] == ps[..k];
    } else {
      assert Written(ps)[boundary..] == Frame(last) && Written(ps)[..boundary] == Written(before);
      assert arrived == Written(before) + arrived[boundary..];
      k := LastFramePartial(before, last, arrived[boundary..]);
    }
  }

  lemma {:induction false} PartOfFrameIsPartial(p: Payload, part: seq<Byte>)
    requires |p| <= MAX_MESSAGE_SIZE && part < Frame(p)
    ensures IsPartial(part)
  {
    HeaderRoundTrip(|p|, p);
    if |part| >= 4 {
      assert part[..4] == Frame(p)[..4];
      assert ReadSize(part) == ReadSize(Frame(p));
    }
  }

  /** Frames and leftover account for every byte. */
  lemma {:induction false} ParsedBytes(buf: seq<Byte>)
    requires Parse(buf).Parsed?
    ensures |buf| == Length(Parse(buf).frames) + |Parse(buf).rest|
    decreases |buf|
  {
    if !IsPartial(buf) {
      var n := 4 + ReadSize(buf);
      ParsedBytes(buf[n..]);
      LengthSplits([buf[4..n]], Parse(buf[n..]).frames);
    }
  }

  function Length(ps: seq<Payload>): nat
  {
    if ps == [] then 0 else Length(ps[..|ps| - 1]) + 4 + |ps[|ps| - 1]|
  }

  lemma {:induction false} LengthSplits(a: seq<Payload>, b: seq<Payload>)
    ensures Length(a + b) == Length(a) + Length(b)
    decreases |b|
  {
    if b == [] {
      assert a + b == a;
    } else {
      LengthSplits(a, b[..|b| - 1]);
      assert (a + b)[..|a + b| - 1] == a + b[..|b| - 1];
    }
  }

  lemma {:induction false} WrittenLength(ps: seq<Payload>)
    ensures |Written(ps)| == Length(ps)
  {
    if ps != [] {
      WrittenLength(ps[..|ps| - 1]);
    }
  }

  /** Payloads that were all extracted have arrived in full. */
  lemma {:induction false} ArrivedInFull(ps: seq<Payload>, arrived: seq<Byte>)
    requires Parse(arrived) == Parsed(ps, [])
    ensures |arrived| == |Written(ps)|
  {
    ParsedBytes(arrived);
    WrittenLength(ps);
  }

  // ------------------------------------------------- the reader and the writer

  /** One turn of the extraction loop at `offset`. */
  lemma {:induction false} ParseFrom(buf: seq<Byte>, offset: nat)
    requires offset + 4 <= |buf|
    ensures var size := ReadSize(buf[offset..offset + 4]);
            Parse(buf[offset..])
            == if size > MAX_MESSAGE_SIZE then TooLarge
               else if |buf| < offset + 4 + size then Parsed([], buf[offset..])
               else Prepend([buf[offset + 4..offset + 4 + size]], Parse(buf[offset + 4 + size..]))
  {
    var rest := buf[offset..];
    var size := ReadSize(buf[offset..offset + 4]);
    assert rest[..4] == buf[offset..offset + 4] && ReadSize(rest) == size;
    if size <= MAX_MESSAGE_SIZE && |buf| >= offset + 4 + size {
      assert rest[4..4 + size] == buf[offset + 4..offset + 4 + size] && rest[4 + size..] == buf[offset + 4 + size..];
    }
  }

  /** One turn of the extraction loop, in terms of the whole buffer. */
  lemma {:induction false} ExtractOne(buf: seq<Byte>, offset: nat, frames: seq<Payload>)
    requires offset + 4 <= |buf| && Parse(buf) == Prepend(frames, Parse(buf[offset..]))
    ensures var size := ReadSize(buf[offset..offset + 4]);
            if size > MAX_MESSAGE_SIZE then Parse(buf) == TooLarge
            else if |buf| < offset + 4 + size then Parse(buf) == Parsed(frames, buf[offset..])
            else Parse(buf) == Prepend(frames + [buf[offset + 4..offset + 4 + size]], Parse(buf[offset + 4 + size..]))
  {
    ParseFrom(buf, offset);
    var size := ReadSize(buf[offset..offset + 4]);
    if size <= MAX_MESSAGE_SIZE && |buf| >= offset + 4 + size {
      PrependTwice(frames, [buf[offset + 4..offset + 4 + size]], Parse(buf[offset + 4 + size..]));
    } else {
      PrependNothing(frames, buf[offset..]);
    }
  }

  lemma {:induction false} PrependNothing(frames: seq<Payload>, rest: seq<Byte>)
    ensures Prepend(frames, Parsed([], rest)) == Parsed(frames, rest)
  {
    assert frames + [] == frames;
  }

  lemma {:induction false} ExtractLast(buf: seq<Byte>, offset: nat, frames: seq<Payload>)
    requires offset <= |buf| < offset + 4 && Parse(buf) == Prepend(frames, Parse(buf[offset..]))
    ensures Parse(buf) == Parsed(frames, buf[offset..])
  {
    assert frames + [] == frames;
  }

  /** Up to `offset`, the frames of the buffer are `frames`. */
  ghost predicate ExtractedTo(buf: seq<Byte>, offset: nat, frames: seq<Payload>)
  {
    offset <= |buf| && Parse(buf) == Prepend(frames, Parse(buf[offset..]))
  }

  datatype Frontier = Complete(end: nat) | Incomplete | Oversized

  /** The frame at `offset`, if it has arrived in full. */
  method NextFrame(buf: seq<Byte>, offset: nat, ghost frames: seq<Payload>) returns (r: Frontier)
    requires ExtractedTo(buf, offset, frames)
    ensures r.Oversized? ==> Parse(buf) == TooLarge
    ensures r.Incomplete? ==> Parse(buf) == Parsed(frames, buf[offset..])
    ensures r.Complete? ==> offset + 4 <= r.end <= |buf| && ExtractedTo(buf, r.end, frames + [buf[offset + 4..r.end]])
  {
    if |buf| < offset + 4 {
      ExtractLast(buf, offset, frames);
      return Incomplete;
    }
    var size := ReadSize(buf[offset..offset + 4]);
    ExtractOne(buf, offset, frames);
    if size > MAX_MESSAGE_SIZE {
      return Oversized;
    }
    if |buf| < offset + 4 + size {
      return Incomplete;
    }
    return Complete(offset + 4 + size);
  }

  /** All complete frames of the buffer, and how many bytes they take. */
  method ExtractFrames(buf: seq<Byte>) returns (ok: bool, frames: seq<Payload>, offset: nat)
    ensures offset <= |buf| && (ok <==> Parse(buf).Parsed?)
    ensures ok ==> Parse(buf) == Parsed(frames, buf[offset..])
  {
    offset := 0;
    frames := [];
    PrependTwice([], [], Parse(buf));
    assert buf[0..] == buf;
    while true
      invariant ExtractedTo(buf, offset, frames)
      decreases |buf| - offset
    {
      var next := NextFrame(buf, offset, frames);
      match next
      case Oversized => return false, [], offset;
      case Incomplete => return true, frames, offset;
      case Complete(end) =>
        frames := frames + [buf[offset + 4..end]];
        offset := end;
    }
  }

  class FrameReader {
    /** Leftover bytes between reads. */
    var buf: seq<Byte>

    constructor ()
      ensures buf == []
    {
      buf := [];
    }

    /** Takes one read's bytes and extracts all complete frames, or fails on a frame
        that is too large. */
    method TakeRead(bytes: seq<Byte>) returns (ok: bool, frames: seq<Payload>)
      modifies this
      ensures ok <==> Parse(old(buf) + bytes).Parsed?
      ensures ok ==> Parse(old(buf) + bytes) == Parsed(frames, buf)
    {
      buf := buf + bytes;
      var offset;
      ok, frames, offset := ExtractFrames(buf);
      if ok && offset > 0 {
        buf := buf[offset..];
      }
    }

    /** Reads until the stream ends or a frame is too large; `out` is what is forwarded:
        all frames, or those of the reads before the one that fails. */
    method HandleReadStream(chunks: seq<seq<Byte>>) returns (ok: bool, out: seq<Payload>)
      requires buf == []
      modifies this
      ensures ok <==> Reading(chunks).Parsed?
      ensures ok ==> Reading(chunks) == Parsed(out, buf)
      ensures !ok ==> exists n :: 0 <= n < |chunks| && FailsAt(chunks, n) && out == Reading(chunks[..n]).frames
    {
      out := [];
      var n := 0;
      while n < |chunks|
        invariant 0 <= n <= |chunks|
        invariant Reading(chunks[..n]) == Parsed(out, buf)
      {
        assert chunks[..n + 1][..n] == chunks[..n];
        var frames;
        ok, frames := TakeRead(chunks[n]);
        if !ok {
          assert FailsAt(chunks, n);
          FailureStays(chunks, n + 1);
          return false, out;
        }
        out := out + frames;
        n := n + 1;
      }
      assert chunks[..n] == chunks;
      return true, out;
    }
  }

  /** Read `n` is the first whose bytes complete the header of an oversized frame. */
  predicate FailsAt(chunks: seq<seq<Byte>>, n: nat)
    requires n < |chunks|
  {
    Reading(chunks[..n]).Parsed? && Reading(chunks[..n + 1]).TooLarge?
  }

  lemma {:induction false} FailureStays(chunks: seq<seq<Byte>>, n: nat)
    requires n <= |chunks| && Reading(chunks[..n]).TooLarge?
    ensures Reading(chunks).TooLarge?
    decreases |chunks| - n
  {
    if n == |chunks| {
      assert chunks[..n] == chunks;
    } else {
      assert chunks[..n + 1][..n] == chunks[..n];
      FailureStays(chunks, n + 1);
    }
  }

  /** Serializes a batch of messages into the bytes of one write. */
  method WriteBatch(buffer: seq<Payload>) returns (bytes: seq<Byte>)
    ensures bytes == Written(buffer)
  {
    bytes := [];
    var n := 0;
    while n < |buffer|
      invariant 0 <= n <= |buffer|
      invariant bytes == Written(buffer[..n])
    {
      assert buffer[..n + 1][..n] == buffer[..n];
      bytes := bytes + Header(|buffer[n]|);
      bytes := bytes + buffer[n];
      n := n + 1;
    }
    assert buffer[..n] == buffer;
  }

  lemma {:induction false} WrittenFurther(messages: seq<Payload>, sent: nat, received: nat)
    requires sent + received <= |messages|
    ensures Written(messages[..sent + received]) == Written(messages[..sent]) + Written(messages[sent..sent + received])
  {
    WrittenSplits(messages[..sent], messages[sent..sent + received]);
    assert messages[..sent] + messages[sent..sent + received] == messages[..sent + received];
  }

  /** Writes the messages in batches of at most `limit`. */
  method HandleWriteStream(messages: seq<Payload>, limit: nat) returns (stream: seq<Byte>)
    requires limit > 0
    ensures stream == Written(messages)
  {
    stream := [];
    var sent := 0;
    while sent < |messages|
      invariant 0 <= sent <= |messages|
      invariant stream == Written(messages[..sent])
    {
      var received := if |messages| - sent < limit then |messages| - sent else limit;
      var bytes := WriteBatch(messages[sent..sent + received]);
      WrittenFurther(messages, sent, received);
      stream := stream + bytes;
      sent := sent + received;
    }
    assert messages[..sent] == messages;
  }
}
