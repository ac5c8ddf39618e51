/**
 The length-framed log file: the writer that buffers frames, the reader that stops at a torn
 tail, and the interleavings of appends with the two phases of a flush.
 */
module LogFile {
  import opened Messages

  type Byte = b: int | 0 <= b < 256

  const LIMIT: nat := 0x1_0000_0000

  /** The binary encoding of one entry; its inverse may refuse. */
  datatype Codec = Codec(encode: LogEntry -> seq<Byte>, decode: seq<Byte> -> Option<LogEntry>)

  /** The encoding is inverted by the decoder and its length fits the 32-bit prefix. */
  predicate Encodable(c: Codec, e: LogEntry) {
    c.decode(c.encode(e)) == Some(e) && |c.encode(e)| < LIMIT
  }

  // ---------------------------------------------------------------- frames

  /** The length as four little-endian bytes; a cast keeps the low 32 bits. */
  function LengthBytes(n: nat): (b: seq<Byte>)
    ensures |b| == 4
  {
    [n % 256, n / 256 % 256, n / 256 / 256 % 256, n / 256 / 256 / 256 % 256]
  }

  function LengthOf(b: seq<Byte>): (n: nat)
    requires |b| == 4
    ensures n < LIMIT
  {
    b[0] as int + 256 * (b[1] as int) + 65536 * (b[2] as int) + 16777216 * (b[3] as int)
  }

  lemma LengthRoundTrip(n: nat)
    ensures LengthOf(LengthBytes(n)) == n % LIMIT
  {
    var a := n / 256;
    var b := a / 256;
    var d := b / 256;
    Digit(n);
    Digit(a);
    Digit(b);
    Digit(d);
    LowPart(n, LengthOf(LengthBytes(n)), d / 256);
  }

  lemma Digit(n: nat)
    ensures n == 256 * (n / 256) + n % 256
  {
  }

  lemma LowPart(n: nat, v: nat, high: nat)
    requires n == v + LIMIT * high && v < LIMIT
    ensures n % LIMIT == v
  {
  }

  function Frame(c: Codec, e: LogEntry): seq<Byte> {
    LengthBytes(|c.encode(e)|) + c.encode(e)
  }

  function Frames(c: Codec, es: seq<LogEntry>): seq<Byte> {
    if |es| == 0 then [] else Frame(c, es[0]) + Frames(c, es[1..])
  }

  lemma {:induction false} FramesConcat(c: Codec, a: seq<LogEntry>, b: seq<LogEntry>)
    ensures Frames(c, a + b) == Frames(c, a) + Frames(c, b)
  {
    if |a| == 0 {
      assert a + b == b;
    } else {
      assert (a + b)[1..] == a[1..] + b;
      FramesConcat(c, a[1..], b);
    }
  }

  // ---------------------------------------------------------------- reading

  function Prepend(es: seq<LogEntry>, rest: Option<seq<LogEntry>>): Option<seq<LogEntry>> {
    match rest
    case None => None
    case Some(xs) => Some(es + xs)
  }

  /** Whole frames from the front until the rest is too short; `None` if an entry does not decode. */
  function ReadFrames(c: Codec, bytes: seq<Byte>): Option<seq<LogEntry>>
    decreases |bytes|
  {
    if |bytes| < 4 then Some([])
    else
      var len := LengthOf(bytes[..4]);
      if |bytes| - 4 < len then Some([])
      else
        match c.decode(bytes[4..4 + len])
        case None => None
        case Some(e) => Prepend([e], ReadFrames(c, bytes[4 + len..]))
  }

  /** The reader at position `pos`: it stops, refuses, or reads one entry and goes on behind its frame. */
  lemma ReadStep(c: Codec, bytes: seq<Byte>, pos: nat)
    requires pos <= |bytes|
    ensures |bytes| - pos < 4 ==> ReadFrames(c, bytes[pos..]) == Some([])
    ensures |bytes| - pos >= 4 ==>
      var len := LengthOf(bytes[pos..pos + 4]);
      ReadFrames(c, bytes[pos..])
      == if |bytes| - pos - 4 < len then Some([])
         else match c.decode(bytes[pos + 4..pos + 4 + len])
              case None => None
              case Some(e) => Prepend([e], ReadFrames(c, bytes[pos + 4 + len..]))
  {
    hide LengthOf;
    var rest := bytes[pos..];
    if |rest| >= 4 {
      assert rest[..4] == bytes[pos..pos + 4];
      var len := LengthOf(bytes[pos..pos + 4]);
      if |rest| - 4 >= len {
        assert rest[4..4 + len] == bytes[pos + 4..pos + 4 + len];
        assert rest[4 + len..] == bytes[pos + 4 + len..];
      }
    }
  }

  lemma PrependNothing(rest: Option<seq<LogEntry>>)
    ensures Prepend([], rest) == rest
  {
    if rest.Some? {
      assert [] + rest.value == rest.value;
    }
  }

  lemma PrependTwice(es: seq<LogEntry>, e: LogEntry, rest: Option<seq<LogEntry>>)
    ensures Prepend(es, Prepend([e], rest)) == Prepend(es + [e], rest)
  {
    if rest.Some? {
      assert es + ([e] + rest.value) == es + [e] + rest.value;
    }
  }

  method ReadLog(c: Codec, bytes: seq<Byte>) returns (logs: Option<seq<LogEntry>>)
    ensures logs == ReadFrames(c, bytes)
  {
    hide ReadFrames, LengthOf;
    var entries: seq<LogEntry>, pos := [], 0;
    assert bytes[0..] == bytes;
    PrependNothing(ReadFrames(c, bytes));
    while true
      invariant 0 <= pos <= |bytes|
      invariant ReadFrames(c, bytes) == Prepend(entries, ReadFrames(c, bytes[pos..]))
      decreases |bytes| - pos
    {
      ReadStep(c, bytes, pos);
      if |bytes| - pos < 4 {
        break;
      }
      var len := LengthOf(bytes[pos..pos + 4]);
      if |bytes| - pos - 4 < len {
        break;
      }
      var entry := c.decode(bytes[pos + 4..pos + 4 + len]);
      if entry.None? {
        return None;
      }
      PrependTwice(entries, entry.value, ReadFrames(c, bytes[pos + 4 + len..]));
      entries := entries + [entry.value];
      pos := pos + 4 + len;
    }
    assert entries + [] == entries;
    logs := Some(entries);
  }

  /** How many whole frames of `es` lie before position `cut`. */
  function WholeFrames(c: Codec, es: seq<LogEntry>, cut: nat): (k: nat)
    ensures k <= |es| && |Frames(c, es[..k])| <= cut
    ensures k < |es| ==> cut < |Frames(c, es[..k + 1])|
    decreases |es|
  {
    if |es| == 0 || cut < |Frame(c, es[0])| then
      assert |es| > 0 ==> es[..1] == [es[0]] && Frames(c, [es[0]]) == Frame(c, es[0]) + Frames(c, [es[0]][1..]);
      0
    else
      var k := WholeFrames(c, es[1..], cut - |Frame(c, es[0])|);
      assert es[..k + 1][1..] == es[1..][..k];
      assert k + 1 < |es| ==> es[..k + 2][1..] == es[1..][..k + 1];
      k + 1
  }

  /** One whole frame is read, and reading goes on behind it. */
  lemma FrameRead(c: Codec, e: LogEntry, rest: seq<Byte>)
    requires Encodable(c, e)
    ensures ReadFrames(c, Frame(c, e) + rest) == Prepend([e], ReadFrames(c, rest))
  {
    hide LengthBytes, LengthOf, ReadFrames;
    var bytes, len := Frame(c, e) + rest, |c.encode(e)|;
    LengthRoundTrip(len);
    assert bytes[0..4] == LengthBytes(len);
    assert bytes[4..4 + len] == c.encode(e);
    assert bytes[4 + len..] == rest;
    ReadStep(c, bytes, 0);
    assert bytes[0..] == bytes;
  }

  lemma FrameTorn(c: Codec, e: LogEntry, bytes: seq<Byte>)
    requires Encodable(c, e) && |bytes| < |Frame(c, e)| && bytes <= Frame(c, e)
    ensures ReadFrames(c, bytes) == Some([])
  {
    if |bytes| >= 4 {
      LengthRoundTrip(|c.encode(e)|);
      assert bytes[..4] == Frame(c, e)[..4] == LengthBytes(|c.encode(e)|);
    }
  }

  /** Cut anywhere, the file yields exactly the entries whose frames lie before the cut. */
  lemma {:induction false} TornTail(c: Codec, es: seq<LogEntry>, cut: nat)
    requires forall e :: e in es ==> Encodable(c, e)
    requires cut <= |Frames(c, es)|
    ensures ReadFrames(c, Frames(c, es)[..cut]) == Some(es[..WholeFrames(c, es, cut)])
    decreases |es|
  {
    hide Encodable, Frame, ReadFrames;
    if |es| == 0 {
      NothingRead(c);
    } else {
      var first, rest := es[0], es[1..];
      var all := Frame(c, first) + Frames(c, rest);
      if cut < |Frame(c, first)| {
        assert all[..cut] <= Frame(c, first);
        FrameTorn(c, first, all[..cut]);
      } else {
        var cut' := cut - |Frame(c, first)|;
        assert all[..cut] == Frame(c, first) + Frames(c, rest)[..cut'];
        FrameRead(c, first, Frames(c, rest)[..cut']);
        TornTail(c, rest, cut');
        var k := WholeFrames(c, rest, cut');
        assert es[..k + 1] == [first] + rest[..k];
      }
    }
  }

  lemma NothingRead(c: Codec)
    ensures ReadFrames(c, []) == Some([])
  {
  }

  lemma {:induction false} NoCut(c: Codec, es: seq<LogEntry>)
    ensures WholeFrames(c, es, |Frames(c, es)|) == |es|
  {
    if |es| > 0 {
      NoCut(c, es[1..]);
    }
  }

  /** An uncut file yields every entry. */
  lemma WholeFile(c: Codec, es: seq<LogEntry>)
    requires forall e :: e in es ==> Encodable(c, e)
    ensures ReadFrames(c, Frames(c, es)) == Some(es)
  {
    hide Frames, ReadFrames, WholeFrames, Encodable;
    var all := Frames(c, es);
    assert all[..|all|] == all && es[..|es|] == es;
    TornTail(c, es, |all|);
    NoCut(c, es);
  }

  // ---------------------------------------------------------------- appending behind a cut

  /** A file cut between two frames goes on as if the lost entries had never been written. */
  lemma AppendAtBoundary(c: Codec, es: seq<LogEntry>, k: nat, more: seq<LogEntry>)
    requires k <= |es| && (forall e :: e in es ==> Encodable(c, e)) && forall e :: e in more ==> Encodable(c, e)
    ensures var cut := |Frames(c, es[..k])|;
            && cut <= |Frames(c, es)|
            && ReadFrames(c, Frames(c, es)[..cut] + Frames(c, more)) == Some(es[..k] + more)
  {
    hide Encodable, ReadFrames, Frame;
    assert es == es[..k] + es[k..];
    FramesConcat(c, es[..k], es[k..]);
    assert Frames(c, es)[..|Frames(c, es[..k])|] == Frames(c, es[..k]);
    FramesConcat(c, es[..k], more);
    WholeFile(c, es[..k] + more);
  }

  /** Whole frames are read one by one, whatever follows them. */
  lemma {:induction false} FramesThen(c: Codec, es: seq<LogEntry>, rest: seq<Byte>)
    requires forall e :: e in es ==> Encodable(c, e)
    ensures ReadFrames(c, Frames(c, es) + rest) == Prepend(es, ReadFrames(c, rest))
    decreases |es|
  {
    hide Encodable, Frame, ReadFrames;
    if |es| == 0 {
      assert Frames(c, es) + rest == rest;
      PrependNothing(ReadFrames(c, rest));
    } else {
      FramesThen(c, es[1..], rest);
      assert Frames(c, es) + rest == Frame(c, es[0]) + (Frames(c, es[1..]) + rest);
      FrameRead(c, es[0], Frames(c, es[1..]) + rest);
      assert es == [es[0]] + es[1..];
      PrependFirst(es[0], es[1..], ReadFrames(c, rest));
    }
  }

  lemma PrependFirst(e: LogEntry, es: seq<LogEntry>, rest: Option<seq<LogEntry>>)
    ensures Prepend([e], Prepend(es, rest)) == Prepend([e] + es, rest)
  {
    if rest.Some? {
      assert [e] + (es + rest.value) == [e] + es + rest.value;
    }
  }

  /**
   What a torn frame reads as with `tail` behind it: the reader takes what is missing, of the entry or of its
   length, from the tail.
   */
  function TornRead(c: Codec, e: LogEntry, cut: nat, tail: seq<Byte>): Option<seq<LogEntry>>
    requires cut < |Frame(c, e)|
  {
    var frame := Frame(c, e);
    var missing := if cut < 4 then 4 - cut else |frame| - cut;
    if |tail| < missing then Some([])
    else
      var filled := frame[..cut] + tail[..missing];
      if cut < 4 then
        var len := LengthOf(filled);
        if |tail| - missing < len then Some([])
        else
          match c.decode(tail[missing..missing + len])
          case None => None
          case Some(x) => Prepend([x], ReadFrames(c, tail[missing + len..]))
      else
        match c.decode(filled[4..])
        case None => None
        case Some(x) => Prepend([x], ReadFrames(c, tail[missing..]))
  }

  /** A file cut inside a frame, behind any whole frames, is never repaired, whatever is appended next. */
  lemma AppendInsideFrame(c: Codec, es: seq<LogEntry>, e: LogEntry, cut: nat, tail: seq<Byte>)
    requires (forall x :: x in es ==> Encodable(c, x)) && Encodable(c, e) && cut < |Frame(c, e)|
    ensures ReadFrames(c, Frames(c, es) + (Frame(c, e)[..cut] + tail)) == Prepend(es, TornRead(c, e, cut, tail))
  {
    hide ReadFrames, Frame, TornRead, Encodable, Frames, Prepend;
    FramesThen(c, es, Frame(c, e)[..cut] + tail);
    FrameShape(c, e);
    if cut < 4 {
      CutInLength(c, e, cut, tail);
    } else {
      CutInEntry(c, e, cut, tail);
    }
  }

  lemma CutInLength(c: Codec, e: LogEntry, cut: nat, tail: seq<Byte>)
    requires cut < 4 <= |Frame(c, e)|
    ensures ReadFrames(c, Frame(c, e)[..cut] + tail) == TornRead(c, e, cut, tail)
  {
    hide LengthOf, ReadFrames, Frame, Prepend;
    var bytes, missing := Frame(c, e)[..cut] + tail, 4 - cut;
    ReadStep(c, bytes, 0);
    assert bytes[0..] == bytes;
    if |tail| >= missing {
      assert bytes[0..4] == Frame(c, e)[..cut] + tail[..missing];
      var len := LengthOf(bytes[0..4]);
      if |tail| - missing >= len {
        assert bytes[4..4 + len] == tail[missing..missing + len];
        assert bytes[4 + len..] == tail[missing + len..];
      }
    }
  }

  lemma CutInEntry(c: Codec, e: LogEntry, cut: nat, tail: seq<Byte>)
    requires Encodable(c, e) && 4 <= cut < |Frame(c, e)|
    ensures ReadFrames(c, Frame(c, e)[..cut] + tail) == TornRead(c, e, cut, tail)
  {
    hide LengthBytes, LengthOf, ReadFrames, Frame, Prepend;
    var frame, len := Frame(c, e), |c.encode(e)|;
    FrameShape(c, e);
    LengthRoundTrip(len);
    CutSlices(frame, cut, tail);
    ReadStep(c, frame[..cut] + tail, 0);
    assert (frame[..cut] + tail)[0..] == frame[..cut] + tail;
  }

  lemma FrameShape(c: Codec, e: LogEntry)
    ensures |Frame(c, e)| == 4 + |c.encode(e)| && Frame(c, e)[..4] == LengthBytes(|c.encode(e)|)
  {
  }

  lemma CutSlices(frame: seq<Byte>, cut: nat, tail: seq<Byte>)
    requires 4 <= cut < |frame|
    ensures var bytes, missing := frame[..cut] + tail, |frame| - cut;
            && bytes[0..4] == frame[..4]
            && (|tail| >= missing ==>
                  bytes[4..|frame|] == (frame[..cut] + tail[..missing])[4..] && bytes[|frame|..] == tail[missing..])
  {
  }

  // ---------------------------------------------------------------- a file that is refused

  function Little(n: nat, k: nat): (b: seq<Byte>)
    ensures |b| == k
  {
    if k == 0 then [] else [n % 256] + Little(n / 256, k - 1)
  }

  function Value(b: seq<Byte>): nat {
    if |b| == 0 then 0 else b[0] as int + 256 * Value(b[1..])
  }

  function Bound(k: nat): nat {
    if k == 0 then 1 else 256 * Bound(k - 1)
  }

  lemma {:induction false} LittleValue(n: nat, k: nat)
    requires n < Bound(k)
    ensures Value(Little(n, k)) == n
  {
    if k > 0 {
      LittleValue(n / 256, k - 1);
      assert Little(n, k)[1..] == Little(n / 256, k - 1);
    }
  }

  const UNIT_TAG: seq<Byte> := [14, 0, 0, 0]

  /**
   The fixed-width layout of entries whose command is the unit variant, the fifteenth: its number in four bytes,
   the term in eight. A number that is no variant's is refused.
   */
  function UnitCodec(): Codec {
    Codec((e: LogEntry) => if e.command == Unknown then UNIT_TAG + Little(e.term, 8) else [],
          (b: seq<Byte>) => if |b| >= 12 && b[..4] == UNIT_TAG then Some(LogEntry(Unknown, Value(b[4..12]))) else None)
  }

  lemma UnitEncodable(term: nat)
    requires term < Bound(8)
    ensures Encodable(UnitCodec(), LogEntry(Unknown, term))
  {
    LittleValue(term, 8);
    var b := UNIT_TAG + Little(term, 8);
    assert b[..4] == UNIT_TAG && b[4..12] == Little(term, 8);
  }

  const SAMPLE: LogEntry := LogEntry(Unknown, 1)

  /** The frame of an entry of term 1. */
  const SAMPLE_FRAME: seq<Byte> := [12, 0, 0, 0, 14, 0, 0, 0, 1, 0, 0, 0, 0, 0, 0, 0]

  lemma SampleFrame()
    ensures Encodable(UnitCodec(), SAMPLE) && Frame(UnitCodec(), SAMPLE) == SAMPLE_FRAME
    ensures Frames(UnitCodec(), [SAMPLE]) == SAMPLE_FRAME
  {
    hide Little, Bound, Value, LengthBytes, Encodable;
    BoundIsPositive(8);
    UnitEncodable(1);
    LittleOne();
    assert UnitCodec().encode(SAMPLE) == UNIT_TAG + [1, 0, 0, 0, 0, 0, 0, 0];
    TwelveBytes();
    hide UnitCodec;
    OneFrame(UnitCodec(), SAMPLE);
  }

  lemma TwelveBytes()
    ensures LengthBytes(12) == [12, 0, 0, 0]
  {
  }

  lemma {:induction false} BoundIsPositive(k: nat)
    ensures Bound(k) >= 1 && (k > 0 ==> Bound(k) > 1)
  {
    if k > 0 { BoundIsPositive(k - 1); }
  }

  lemma LittleOne()
    ensures Little(1, 8) == [1, 0, 0, 0, 0, 0, 0, 0]
  {
    assert Little(0, 1) == [0] + Little(0, 0) == [0];
    assert Little(0, 2) == [0] + Little(0, 1) == [0, 0];
    assert Little(0, 3) == [0] + Little(0, 2) == [0, 0, 0];
    assert Little(0, 4) == [0] + Little(0, 3) == [0, 0, 0, 0];
    assert Little(0, 5) == [0] + Little(0, 4) == [0, 0, 0, 0, 0];
    assert Little(0, 6) == [0] + Little(0, 5) == [0, 0, 0, 0, 0, 0];
    assert Little(0, 7) == [0] + Little(0, 6) == [0, 0, 0, 0, 0, 0, 0];
  }

  /** What is left of the entry when its file is cut behind the first byte of the variant's number. */
  const TORN: seq<Byte> := SAMPLE_FRAME[..5]

  /**
   The writer itself can make a file that the reader refuses altogether: an entry, cut there, then the same
   entry again. The cut file alone still reads, as one without entries.
   */
  lemma TornFileIsRefused()
    ensures TORN <= Frames(UnitCodec(), [SAMPLE])
    ensures ReadFrames(UnitCodec(), TORN) == Some([])
    ensures ReadFrames(UnitCodec(), TORN + Frames(UnitCodec(), [SAMPLE])) == None
  {
    hide ReadFrames, UnitCodec;
    var c := UnitCodec();
    SampleFrame();
    TornSample([]);
    assert TORN + [] == TORN;
    TornSample(SAMPLE_FRAME);
    var filled := TORN + SAMPLE_FRAME[..11];
    assert |TORN| == 5 && filled[4..][1] == filled[5] == SAMPLE_FRAME[..11][0] == 12;
    NoSuchVariant(filled[4..]);
  }

  lemma TornSample(tail: seq<Byte>)
    ensures ReadFrames(UnitCodec(), TORN + tail) == TornRead(UnitCodec(), SAMPLE, 5, tail)
  {
    hide ReadFrames, UnitCodec, TornRead;
    SampleFrame();
    CutInEntry(UnitCodec(), SAMPLE, 5, tail);
  }

  lemma NoSuchVariant(b: seq<Byte>)
    requires |b| >= 4 && b[1] != 0
    ensures UnitCodec().decode(b) == None
  {
    assert b[..4][1] == b[1];
  }

  // ---------------------------------------------------------------- the writer

  const MAX_PENDING: nat := 1024 * 1024
  const TRIGGER: nat := 512 * 1024

  /** `entrySize` is the in-memory size by which pending bytes are estimated. */
  class LogWriter {
    const codec: Codec
    const entrySize: nat
    var buffer: seq<Byte>
    var file: seq<Byte>
    var pendingBytes: nat

    constructor (codec: Codec, entrySize: nat, file: seq<Byte>)
      ensures this.codec == codec && this.entrySize == entrySize
      ensures buffer == [] && this.file == file && pendingBytes == 0
    {
      this.codec, this.entrySize := codec, entrySize;
      buffer, pendingBytes := [], 0;
      this.file := file;
    }

    /** Everything handed to the writer, on disk or not. */
    ghost function Stream(): seq<Byte>
      reads this
    {
      file + buffer
    }

    method Flush()
      modifies this
      ensures Stream() == old(Stream()) && buffer == []
      ensures pendingBytes == if old(buffer) == [] then old(pendingBytes) else 0
    {
      if buffer == [] {
        return;
      }
      var taken := buffer;
      buffer := [];
      file := file + taken;
      pendingBytes := 0;
    }

    /** The estimate of the bytes that `n` entries will take. */
    function Estimate(n: nat): nat {
      n * (entrySize + 4)
    }

    /** Returns whether the background flusher is woken. */
    method AppendBatch(entries: seq<LogEntry>) returns (wake: bool)
      modifies this
      ensures Stream() == old(Stream()) + Frames(codec, entries)
      ensures wake <==> |buffer| > 524288
      ensures var size := Estimate(|entries|);
              if old(pendingBytes) + size > 1048576
              then && file == old(Stream()) && buffer == Frames(codec, entries)
                   && pendingBytes == (if old(buffer) == [] then old(pendingBytes) else 0) + size
              else file == old(file) && pendingBytes == old(pendingBytes) + size
    {
      hide Estimate, Frames;
      var size := Estimate(|entries|);
      if pendingBytes + size > MAX_PENDING {
        Flush();
      }
      Extend(entries);
      pendingBytes := pendingBytes + size;
      wake := |buffer| > TRIGGER;
    }

    method Extend(entries: seq<LogEntry>)
      modifies this`buffer
      ensures buffer == old(buffer) + Frames(codec, entries)
    {
      for i := 0 to |entries|
        invariant buffer == old(buffer) + Frames(codec, entries[..i])
      {
        FramesSnoc(codec, entries, i);
        var encoded := codec.encode(entries[i]);
        buffer := buffer + LengthBytes(|encoded|);
        buffer := buffer + encoded;
      }
      assert entries[..|entries|] == entries;
    }
  }

  lemma FramesSnoc(c: Codec, es: seq<LogEntry>, i: nat)
    requires i < |es|
    ensures Frames(c, es[..i + 1]) == Frames(c, es[..i]) + LengthBytes(|c.encode(es[i])|) + c.encode(es[i])
  {
    assert es[..i + 1] == es[..i] + [es[i]];
    FramesConcat(c, es[..i], [es[i]]);
    assert Frames(c, [es[i]]) == Frame(c, es[i]) + Frames(c, [es[i]][1..]);
  }

  // ---------------------------------------------------------------- interleaved flushes

  /** A flush takes the buffer under one lock and writes it under another; in between it holds it. */
  datatype Writer = Writer(file: seq<Byte>, taken: seq<seq<Byte>>, buffer: seq<Byte>, appended: seq<LogEntry>)

  datatype Step = Append(entries: seq<LogEntry>) | Take | Write(k: nat)

  const EMPTY: Writer := Writer([], [], [], [])

  predicate Enabled(w: Writer, s: Step) {
    match s
    case Append(_) => true
    case Take => w.buffer != []
    case Write(k) => k < |w.taken|
  }

  function After(c: Codec, w: Writer, s: Step): Writer
    requires Enabled(w, s)
  {
    match s
    case Append(es) => w.(buffer := w.buffer + Frames(c, es), appended := w.appended + es)
    case Take => w.(taken := w.taken + [w.buffer], buffer := [])
    case Write(k) => w.(file := w.file + w.taken[k], taken := w.taken[..k] + w.taken[k + 1..])
  }

  function Flat(parts: seq<seq<Byte>>): seq<Byte> {
    if |parts| == 0 then [] else parts[0] + Flat(parts[1..])
  }

  lemma {:induction false} FlatConcat(a: seq<seq<Byte>>, b: seq<seq<Byte>>)
    ensures Flat(a + b) == Flat(a) + Flat(b)
  {
    if |a| == 0 {
      assert a + b == b;
    } else {
      assert (a + b)[1..] == a[1..] + b;
      FlatConcat(a[1..], b);
    }
  }

  /** File, held buffers and pending buffer together are the frames of every appended entry, in order. */
  predicate Conserved(c: Codec, w: Writer) {
    w.file + Flat(w.taken) + w.buffer == Frames(c, w.appended)
  }

  lemma AppendConserves(c: Codec, w: Writer, es: seq<LogEntry>)
    requires Conserved(c, w)
    ensures Conserved(c, After(c, w, Append(es)))
  {
    FramesConcat(c, w.appended, es);
  }

  lemma TakeConserves(c: Codec, w: Writer)
    requires Conserved(c, w) && Enabled(w, Take)
    ensures Conserved(c, After(c, w, Take))
  {
    hide Frames;
    FlatConcat(w.taken, [w.buffer]);
    assert Flat([w.buffer]) == w.buffer + Flat([w.buffer][1..]) == w.buffer;
    hide Flat;
    assert w.file + (Flat(w.taken) + w.buffer) + [] == w.file + Flat(w.taken) + w.buffer;
  }

  /** A write keeps the order exactly when the bytes written commute with those held before them. */
  lemma WriteConserves(c: Codec, w: Writer, k: nat)
    requires Conserved(c, w) && Enabled(w, Write(k))
    ensures Conserved(c, After(c, w, Write(k)))
       <==> w.taken[k] + Flat(w.taken[..k]) == Flat(w.taken[..k]) + w.taken[k]
  {
    hide Flat, Frames;
    var before, t, after := Flat(w.taken[..k]), w.taken[k], Flat(w.taken[k + 1..]);
    FlatSplit(w.taken, k);
    FlatConcat(w.taken[..k], w.taken[k + 1..]);
    Commute(w.file, before, t, after + w.buffer);
    Regroup(w.file, before, t, after, w.buffer);
    Regroup(w.file, t, before, after, w.buffer);
    assert w.file + t + (before + after) + w.buffer == w.file + (t + before + after) + w.buffer;
  }

  lemma {:induction false} FlatSplit(parts: seq<seq<Byte>>, k: nat)
    requires k < |parts|
    ensures Flat(parts) == Flat(parts[..k]) + parts[k] + Flat(parts[k + 1..])
    decreases k
  {
    if k == 0 {
      assert [] + parts[0] == parts[0];
    } else {
      FlatSplit(parts[1..], k - 1);
      assert parts[1..][..k - 1] == parts[..k][1..] && parts[1..][k..] == parts[k + 1..];
      assert Flat(parts[..k]) == parts[0] + Flat(parts[..k][1..]);
    }
  }

  lemma Regroup(file: seq<Byte>, a: seq<Byte>, b: seq<Byte>, d: seq<Byte>, e: seq<Byte>)
    ensures file + (a + b + d) + e == file + (a + b) + (d + e)
  {
  }

  lemma Commute(file: seq<Byte>, a: seq<Byte>, b: seq<Byte>, rest: seq<Byte>)
    ensures file + (b + a) + rest == file + (a + b) + rest <==> b + a == a + b
  {
    var x, y := file + (b + a) + rest, file + (a + b) + rest;
    assert x[|file|..|file| + |a| + |b|] == b + a;
    assert y[|file|..|file| + |a| + |b|] == a + b;
  }

  // ---------------------------------------------------------------- whole runs

  /** Flushes finish in the order in which they took the buffer; without overlap there is only one. */
  predicate InOrder(steps: seq<Step>) {
    forall i :: 0 <= i < |steps| && steps[i].Write? ==> steps[i].k == 0
  }

  predicate Possible(c: Codec, w: Writer, steps: seq<Step>)
    decreases |steps|
  {
    |steps| == 0 || (Enabled(w, steps[0]) && Possible(c, After(c, w, steps[0]), steps[1..]))
  }

  function Final(c: Codec, w: Writer, steps: seq<Step>): Writer
    requires Possible(c, w, steps)
    decreases |steps|
  {
    if |steps| == 0 then w else Final(c, After(c, w, steps[0]), steps[1..])
  }

  /** No interleaving of appends and in-order flushes loses, repeats or reorders a byte. */
  lemma {:induction false} RunConserves(c: Codec, w: Writer, steps: seq<Step>)
    requires Conserved(c, w) && Possible(c, w, steps) && InOrder(steps)
    ensures Conserved(c, Final(c, w, steps))
    decreases |steps|
  {
    if |steps| > 0 {
      match steps[0] {
        case Append(es) => AppendConserves(c, w, es);
        case Take => TakeConserves(c, w);
        case Write(k) => WriteConserves(c, w, k);
      }
      RunConserves(c, After(c, w, steps[0]), steps[1..]);
    }
  }

  /** A process that starts on a file of whole frames. */
  function Opened(c: Codec, before: seq<LogEntry>): Writer {
    Writer(Frames(c, before), [], [], before)
  }

  /**
   Whenever a process stops that started on a file of whole frames, and wherever the file is cut, the reader
   returns a prefix of what the file held and the process appended.
   */
  lemma CrashRecovery(c: Codec, before: seq<LogEntry>, steps: seq<Step>, cut: nat)
    requires Possible(c, Opened(c, before), steps) && InOrder(steps)
    requires forall e :: e in Final(c, Opened(c, before), steps).appended ==> Encodable(c, e)
    requires cut <= |Final(c, Opened(c, before), steps).file|
    ensures var w := Final(c, Opened(c, before), steps);
            ReadFrames(c, w.file[..cut]) == Some(w.appended[..WholeFrames(c, w.appended, cut)])
    ensures var w := Final(c, Opened(c, before), steps);
            w.taken == [] && w.buffer == [] ==> ReadFrames(c, w.file) == Some(w.appended)
    ensures before <= Final(c, Opened(c, before), steps).appended
  {
    hide ReadFrames, WholeFrames, Encodable, Frames;
    assert Conserved(c, Opened(c, before));
    RunConserves(c, Opened(c, before), steps);
    AppendedGrows(c, Opened(c, before), steps);
    var w := Final(c, Opened(c, before), steps);
    hide Possible, Final;
    assert Frames(c, w.appended)[..cut] == w.file[..cut];
    TornTail(c, w.appended, cut);
    if w.taken == [] && w.buffer == [] {
      assert w.file == Frames(c, w.appended);
      WholeFile(c, w.appended);
    }
  }

  lemma {:induction false} AppendedGrows(c: Codec, w: Writer, steps: seq<Step>)
    requires Possible(c, w, steps)
    ensures w.appended <= Final(c, w, steps).appended
    decreases |steps|
  {
    if |steps| > 0 { AppendedGrows(c, After(c, w, steps[0]), steps[1..]); }
  }

  /** Two overlapping flushes can put later entries first. */
  lemma OverlappingFlushesReorder(c: Codec, a: LogEntry, b: LogEntry)
    requires Encodable(c, a) && Encodable(c, b)
    ensures var steps := [Append([a]), Take, Append([b]), Take, Write(1), Write(0)];
            Possible(c, EMPTY, steps) && ReadFrames(c, Final(c, EMPTY, steps).file) == Some([b, a])
  {
    var fa, fb := Frames(c, [a]), Frames(c, [b]);
    OneFrame(c, a);
    OneFrame(c, b);
    var w1 := Writer([], [], fa, [a]);
    var w2 := Writer([], [fa], [], [a]);
    var w3 := Writer([], [fa], fb, [a, b]);
    var w4 := Writer([], [fa, fb], [], [a, b]);
    var w5 := Writer(fb, [fa], [], [a, b]);
    var w6 := Writer(fb + fa, [], [], [a, b]);
    var steps := [Append([a]), Take, Append([b]), Take, Write(1), Write(0)];
    assert After(c, EMPTY, steps[0]) == w1;
    assert After(c, w1, steps[1]) == w2;
    assert After(c, w2, steps[2]) == w3;
    assert After(c, w3, steps[3]) == w4;
    assert After(c, w4, steps[4]) == w5;
    assert After(c, w5, steps[5]) == w6;
    SixSteps(c, steps, w1, w2, w3, w4, w5, w6);
    FramesConcat(c, [b], [a]);
    WholeFile(c, [b, a]);
  }

  /** One append and one flush put the frames of a batch behind whatever the file holds. */
  lemma WrittenBehind(c: Codec, held: seq<Byte>, es: seq<LogEntry>)
    requires Frames(c, es) != []
    ensures var w, steps := Writer(held, [], [], []), [Append(es), Take, Write(0)];
            Possible(c, w, steps) && Final(c, w, steps).file == held + Frames(c, es)
  {
    hide Frames;
    var w, steps := Writer(held, [], [], []), [Append(es), Take, Write(0)];
    var w1 := After(c, w, steps[0]);
    var w2 := After(c, w1, steps[1]);
    var w3 := After(c, w2, steps[2]);
    assert steps[1..][1..] == [steps[2]] && steps[1..][0] == steps[1] && [steps[2]][1..] == [];
    assert Possible(c, w3, []) && Final(c, w3, []) == w3;
    assert Possible(c, w2, [steps[2]]) && Final(c, w2, [steps[2]]) == w3;
    assert Possible(c, w1, steps[1..]) && Final(c, w1, steps[1..]) == w3;
  }

  lemma OneFrame(c: Codec, e: LogEntry)
    ensures Frames(c, [e]) == Frame(c, e) != []
  {
    assert Frames(c, [e]) == Frame(c, e) + Frames(c, [e][1..]);
  }

  lemma SixSteps(c: Codec, s: seq<Step>, w1: Writer, w2: Writer, w3: Writer, w4: Writer, w5: Writer, w6: Writer)
    requires |s| == 6
    requires Enabled(EMPTY, s[0]) && After(c, EMPTY, s[0]) == w1
    requires Enabled(w1, s[1]) && After(c, w1, s[1]) == w2
    requires Enabled(w2, s[2]) && After(c, w2, s[2]) == w3
    requires Enabled(w3, s[3]) && After(c, w3, s[3]) == w4
    requires Enabled(w4, s[4]) && After(c, w4, s[4]) == w5
    requires Enabled(w5, s[5]) && After(c, w5, s[5]) == w6
    ensures Possible(c, EMPTY, s) && Final(c, EMPTY, s) == w6
  {
    hide Enabled, After;
    assert Possible(c, w6, s[6..]) && Final(c, w6, s[6..]) == w6;
    assert Possible(c, w5, s[5..]) && Final(c, w5, s[5..]) == w6 by { assert s[5..][1..] == s[6..]; }
    assert Possible(c, w4, s[4..]) && Final(c, w4, s[4..]) == w6 by { assert s[4..][1..] == s[5..]; }
    assert Possible(c, w3, s[3..]) && Final(c, w3, s[3..]) == w6 by { assert s[3..][1..] == s[4..]; }
    assert Possible(c, w2, s[2..]) && Final(c, w2, s[2..]) == w6 by { assert s[2..][1..] == s[3..]; }
    assert Possible(c, w1, s[1..]) && Final(c, w1, s[1..]) == w6 by { assert s[1..][1..] == s[2..]; }
    assert s[0..] == s;
  }
}
