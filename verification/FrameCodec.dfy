/**
 The frame layout of the wire protocol, the encoder that fills a buffer in place and the
 stream decoder that keeps incomplete bytes between pushes.
 */
module FrameCodec {
  import opened Bytes
  import opened Results

  const HEADER_SIZE: nat := 24
  const MAX_PAYLOAD_SIZE: nat := 1024 * 1024
  const FRAME_VERSION: uint16 := 1
  const MAGIC: Bytes := [67, 68, 83, 75]  // "CDSK"

  /** A message type as the C++ enumeration holds it: any 16-bit value, known or not. */
  type MessageType = uint16

  const HELLO: MessageType := 100
  const HELLO_ACK: MessageType := 101
  const FILE_OFFER: MessageType := 110
  const FILE_ACCEPT: MessageType := 111
  const FILE_REJECT: MessageType := 112
  const FILE_CHUNK: MessageType := 113
  const FILE_FINISH: MessageType := 114
  const FILE_RESULT: MessageType := 115

  datatype Frame = Frame(kind: MessageType, flags: uint32, requestId: uint64, payload: Bytes)

  predicate IsKnownMessageType(kind: MessageType) {
    || kind == 1 || kind == 2
    || 10 <= kind <= 15
    || kind == 20 || kind == 21
    || kind == 30 || kind == 31
    || 40 <= kind <= 50
    || kind == 100 || kind == 101
    || 110 <= kind <= 115
  }

  const BAD_MAGIC := Error(ProtocolError, "bad frame magic")
  const BAD_VERSION := Error(ProtocolError, "bad frame version")
  const UNKNOWN_TYPE := Error(ProtocolError, "unknown message type")
  const TOO_LARGE := Error(PayloadTooLarge, "frame payload exceeds 1 MiB")

  /* ---------------------------------------------------------------- wire format */

  predicate Encodable(frame: Frame) {
    IsKnownMessageType(frame.kind) && |frame.payload| <= MAX_PAYLOAD_SIZE
  }

  /** The 24 header bytes. */
  function Header(kind: MessageType, flags: uint32, requestId: uint64, length: nat): (b: Bytes)
    ensures |b| == HEADER_SIZE
  {
    MAGIC + BigEndian(FRAME_VERSION, 2) + BigEndian(kind, 2) + BigEndian(flags, 4)
    + BigEndian(requestId, 8) + BigEndian(length, 4)
  }

  function Layout(frame: Frame): (b: Bytes)
    ensures |b| == HEADER_SIZE + |frame.payload|
  {
    Header(frame.kind, frame.flags, frame.requestId, |frame.payload|) + frame.payload
  }

  function LayoutAll(frames: seq<Frame>): Bytes {
    if frames == [] then [] else Layout(frames[0]) + LayoutAll(frames[1..])
  }

  lemma {:induction false} LayoutAllConcat(a: seq<Frame>, b: seq<Frame>)
    ensures LayoutAll(a + b) == LayoutAll(a) + LayoutAll(b)
  {
    if a == [] {
      assert a + b == b;
    } else {
      assert (a + b)[1..] == a[1..] + b;
      LayoutAllConcat(a[1..], b);
    }
  }

  lemma LayoutAllAppend(a: seq<Frame>, f: Frame)
    ensures LayoutAll(a + [f]) == LayoutAll(a) + Layout(f)
  {
    LayoutAllConcat(a, [f]);
    assert [f][1..] == [];
    assert LayoutAll([f]) == Layout(f) + LayoutAll([]);
  }

  /** What the front of the buffer holds. */
  datatype Head = Incomplete | Bad(error: Error) | Complete(frame: Frame, size: nat)

  function HeadOf(buffer: Bytes): (h: Head)
    ensures h.Complete? ==> HEADER_SIZE <= h.size <= |buffer|
  {
    if |buffer| < HEADER_SIZE then Incomplete
    else if buffer[..4] != MAGIC then Bad(BAD_MAGIC)
    else if FromBigEndian(buffer[4..6]) != FRAME_VERSION then Bad(BAD_VERSION)
    else
      Widths();
      var kind := FromBigEndian(buffer[6..8]);
      var length := FromBigEndian(buffer[20..24]);
      if !IsKnownMessageType(kind) then Bad(UNKNOWN_TYPE)
      else if length > MAX_PAYLOAD_SIZE then Bad(TOO_LARGE)
      else if |buffer| < HEADER_SIZE + length then Incomplete
      else
        Complete(Frame(kind, FromBigEndian(buffer[8..12]), FromBigEndian(buffer[12..20]),
                       buffer[HEADER_SIZE..HEADER_SIZE + length]),
                 HEADER_SIZE + length)
  }

  /** Everything that can be taken off the front of a buffer, and the header that stopped it. */
  datatype Drained = Drained(frames: seq<Frame>, rest: Bytes, error: Option<Error>)

  function Drain(buffer: Bytes): Drained
    decreases |buffer|
  {
    match HeadOf(buffer)
    case Incomplete => Drained([], buffer, None)
    case Bad(e) => Drained([], buffer, Some(e))
    case Complete(frame, size) =>
      var d := Drain(buffer[size..]);
      d.(frames := [frame] + d.frames)
  }

  /* ---------------------------------------------------------------- one frame */

  lemma HeaderFields(kind: MessageType, flags: uint32, requestId: uint64, length: uint32, tail: Bytes)
    ensures var b := Header(kind, flags, requestId, length) + tail;
      && b[..4] == MAGIC
      && FromBigEndian(b[4..6]) == FRAME_VERSION
      && FromBigEndian(b[6..8]) == kind
      && FromBigEndian(b[8..12]) == flags
      && FromBigEndian(b[12..20]) == requestId
      && FromBigEndian(b[20..24]) == length
      && b[24..] == tail
  {
    Widths();
    hide BigEndian, FromBigEndian, Pow256;
    var b := Header(kind, flags, requestId, length) + tail;
    assert b[4..6] == BigEndian(FRAME_VERSION, 2);
    assert b[6..8] == BigEndian(kind, 2);
    assert b[8..12] == BigEndian(flags, 4);
    assert b[12..20] == BigEndian(requestId, 8);
    assert b[20..24] == BigEndian(length, 4);
    ReadAfterWrite(FRAME_VERSION, 2);
    ReadAfterWrite(kind, 2);
    ReadAfterWrite(flags, 4);
    ReadAfterWrite(requestId, 8);
    ReadAfterWrite(length, 4);
  }

  /** An encoded frame is read back, and nothing past it is touched. */
  lemma HeadOfLayout(frame: Frame, tail: Bytes)
    requires Encodable(frame)
    ensures HeadOf(Layout(frame) + tail) == Complete(frame, |Layout(frame)|)
  {
    var b := Layout(frame) + tail;
    assert b == Header(frame.kind, frame.flags, frame.requestId, |frame.payload|) + (frame.payload + tail);
    HeaderFields(frame.kind, frame.flags, frame.requestId, |frame.payload|, frame.payload + tail);
    assert b[HEADER_SIZE..HEADER_SIZE + |frame.payload|] == frame.payload;
  }

  lemma HeaderParts(b: Bytes)
    requires |b| >= HEADER_SIZE
    ensures b[..HEADER_SIZE] == b[..4] + b[4..6] + b[6..8] + b[8..12] + b[12..20] + b[20..24]
  {}

  /** A frame the decoder accepts encodes to exactly the bytes it was read from. */
  lemma LayoutOfHead(buffer: Bytes)
    requires HeadOf(buffer).Complete?
    ensures var h := HeadOf(buffer);
      Encodable(h.frame) && Layout(h.frame) == buffer[..h.size]
  {
    Widths();
    hide Pow256, BigEndian, FromBigEndian;
    var h := HeadOf(buffer);
    WriteAfterRead(buffer[4..6]);
    WriteAfterRead(buffer[6..8]);
    WriteAfterRead(buffer[8..12]);
    WriteAfterRead(buffer[12..20]);
    WriteAfterRead(buffer[20..24]);
    HeaderParts(buffer);
    assert buffer[..h.size] == buffer[..HEADER_SIZE] + buffer[HEADER_SIZE..h.size];
  }

  /** More input never changes a decision already taken. */
  lemma HeadStable(a: Bytes, b: Bytes)
    ensures HeadOf(a).Bad? ==> HeadOf(a + b) == HeadOf(a)
    ensures HeadOf(a).Complete? ==> HeadOf(a + b) == HeadOf(a)
  {
    if |a| >= HEADER_SIZE {
      var c := a + b;
      assert c[..4] == a[..4] && c[4..6] == a[4..6] && c[6..8] == a[6..8] && c[8..12] == a[8..12];
      assert c[12..20] == a[12..20] && c[20..24] == a[20..24];
      if HeadOf(a).Complete? {
        assert c[HEADER_SIZE..HeadOf(a).size] == a[HEADER_SIZE..HeadOf(a).size];
      }
    }
  }

  /** Whether a header is bad depends on its 24 bytes only. */
  lemma BadHeadIsLocal(a: Bytes, b: Bytes)
    requires |a| >= HEADER_SIZE && HeadOf(a + b).Bad?
    ensures HeadOf(a) == HeadOf(a + b)
  {
    var c := a + b;
    assert c[..4] == a[..4] && c[4..6] == a[4..6] && c[6..8] == a[6..8] && c[20..24] == a[20..24];
  }

  /** Some frame has this header. */
  ghost predicate StartsFrame(header: Bytes) {
    exists f: Frame :: Encodable(f) && Layout(f)[..HEADER_SIZE] == header
  }

  lemma GoodHeader(header: Bytes)
    requires |header| == HEADER_SIZE && !HeadOf(header).Bad?
    ensures StartsFrame(header)
  {
    Widths();
    hide Pow256, BigEndian, FromBigEndian;
    var payload: Bytes := seq(FromBigEndian(header[20..24]), _ => 0);
    var f := Frame(FromBigEndian(header[6..8]), FromBigEndian(header[8..12]), FromBigEndian(header[12..20]), payload);
    WriteAfterRead(header[4..6]);
    WriteAfterRead(header[6..8]);
    WriteAfterRead(header[8..12]);
    WriteAfterRead(header[12..20]);
    WriteAfterRead(header[20..24]);
    HeaderParts(header);
    assert header[..HEADER_SIZE] == header;
    assert Layout(f)[..HEADER_SIZE] == header;
  }

  /** A header is bad exactly if no frame starts with it, and the error names the first field that is wrong. */
  lemma BadHeader(buffer: Bytes)
    requires |buffer| >= HEADER_SIZE
    ensures HeadOf(buffer).Bad? <==> !StartsFrame(buffer[..HEADER_SIZE])
    ensures HeadOf(buffer).Bad? ==>
      HeadOf(buffer).error == if buffer[..4] != MAGIC then BAD_MAGIC
                              else if FromBigEndian(buffer[4..6]) != FRAME_VERSION then BAD_VERSION
                              else if !IsKnownMessageType(FromBigEndian(buffer[6..8])) then UNKNOWN_TYPE
                              else TOO_LARGE
  {
    Widths();
    var header := buffer[..HEADER_SIZE];
    assert header + buffer[HEADER_SIZE..] == buffer;
    HeadStable(header, buffer[HEADER_SIZE..]);
    if HeadOf(buffer).Bad? {
      BadHeadIsLocal(header, buffer[HEADER_SIZE..]);
      forall f: Frame | Encodable(f) ensures Layout(f)[..HEADER_SIZE] != header {
        hide HeadOf, Layout;
        HeadOfLayout(f, []);
        assert Layout(f) + [] == Layout(f)[..HEADER_SIZE] + Layout(f)[HEADER_SIZE..];
        HeadStable(header, Layout(f)[HEADER_SIZE..]);
      }
    } else {
      GoodHeader(header);
    }
  }

  /* ---------------------------------------------------------------- streams */

  /** Draining goes by what the front of the buffer holds. */
  lemma DrainByHead(buffer: Bytes)
    ensures var h := HeadOf(buffer);
      && (h.Incomplete? ==> Drain(buffer) == Drained([], buffer, None))
      && (h.Bad? ==> Drain(buffer) == Drained([], buffer, Some(h.error)))
      && (h.Complete? ==> var d := Drain(buffer[h.size..]); Drain(buffer) == d.(frames := [h.frame] + d.frames))
  {
    hide HeadOf;
  }

  /** Draining in two goes is draining at once. */
  lemma {:induction false} DrainSplit(a: Bytes, b: Bytes)
    ensures var d := Drain(a);
      Drain(a + b) ==
        if d.error.Some? then d.(rest := d.rest + b)
        else var more := Drain(d.rest + b); more.(frames := d.frames + more.frames)
    decreases |a|
  {
    HeadStable(a, b);
    match HeadOf(a)
    case Incomplete =>
      assert [] + Drain(a + b).frames == Drain(a + b).frames;
    case Bad(e) =>
    case Complete(frame, size) =>
      assert (a + b)[size..] == a[size..] + b;
      DrainSplit(a[size..], b);
      var inner := Drain(a[size..]);
      if inner.error.None? {
        var more := Drain(inner.rest + b);
        assert [frame] + (inner.frames + more.frames) == ([frame] + inner.frames) + more.frames;
      }
  }

  /** What the frames and residual taken off a buffer have to do with its bytes. */
  ghost predicate Canonical(buffer: Bytes, d: Drained) {
    && (forall f :: f in d.frames ==> Encodable(f))
    && LayoutAll(d.frames) + d.rest == buffer
    && HeadOf(d.rest) == (if d.error.Some? then Bad(d.error.value) else Incomplete)
    && (d.error.None? ==> |d.rest| < HEADER_SIZE + MAX_PAYLOAD_SIZE)
  }

  lemma CanonicalStep(buffer: Bytes, frame: Frame, size: nat, d: Drained)
    requires size <= |buffer| && Layout(frame) == buffer[..size]
    requires Encodable(frame) && Canonical(buffer[size..], d)
    ensures Canonical(buffer, d.(frames := [frame] + d.frames))
  {
    hide HeadOf, Layout, Encodable;
    assert ([frame] + d.frames)[1..] == d.frames;
    assert LayoutAll([frame] + d.frames) + d.rest == buffer[..size] + (LayoutAll(d.frames) + d.rest);
    assert buffer == buffer[..size] + buffer[size..];
  }

  /** Canonical coding: the emitted frames, encoded again, and the residual are all the bytes fed. */
  lemma {:induction false} DrainCanonical(buffer: Bytes)
    ensures Canonical(buffer, Drain(buffer))
    decreases |buffer|
  {
    hide HeadOf, Layout, Encodable;
    match HeadOf(buffer)
    case Incomplete =>
      ResidualBound(buffer);
    case Bad(e) =>
    case Complete(frame, size) =>
      LayoutOfHead(buffer);
      DrainCanonical(buffer[size..]);
      CanonicalStep(buffer, frame, size, Drain(buffer[size..]));
  }

  lemma ResidualBound(buffer: Bytes)
    requires HeadOf(buffer).Incomplete?
    ensures |buffer| < HEADER_SIZE + MAX_PAYLOAD_SIZE
  {
    if |buffer| >= HEADER_SIZE {
      Widths();
    }
  }

  lemma DrainOfLayout(frame: Frame, more: Bytes)
    requires Encodable(frame)
    ensures var d := Drain(more);
      Drain(Layout(frame) + more) == d.(frames := [frame] + d.frames)
  {
    hide HeadOf, Layout;
    var b := Layout(frame) + more;
    HeadOfLayout(frame, more);
    assert b[|Layout(frame)|..] == more;
  }

  /** The decoder inverts the encoder over any number of frames, whatever follows them. */
  lemma {:induction false} DrainOfLayouts(frames: seq<Frame>, tail: Bytes)
    requires forall f :: f in frames ==> Encodable(f)
    ensures var d := Drain(tail);
      Drain(LayoutAll(frames) + tail) == d.(frames := frames + d.frames)
  {
    hide HeadOf, Layout, Drain;
    if frames == [] {
      assert LayoutAll(frames) + tail == tail;
      assert frames + Drain(tail).frames == Drain(tail).frames;
    } else {
      var more := LayoutAll(frames[1..]) + tail;
      assert LayoutAll(frames) + tail == Layout(frames[0]) + more;
      DrainOfLayout(frames[0], more);
      DrainOfLayouts(frames[1..], tail);
      assert frames + Drain(tail).frames == [frames[0]] + (frames[1..] + Drain(tail).frames);
    }
  }

  /** A prefix of an encoded stream decodes, without error, to a prefix of the frames. */
  lemma {:induction false} DrainOfPrefix(frames: seq<Frame>, stream: Bytes)
    requires forall f :: f in frames ==> Encodable(f)
    requires stream <= LayoutAll(frames)
    ensures var d := Drain(stream);
      && d.error.None?
      && d.frames <= frames
      && (stream == LayoutAll(frames) ==> d.frames == frames && d.rest == [])
  {
    var tail := LayoutAll(frames)[|stream|..];
    assert stream + tail == LayoutAll(frames);
    DrainOfLayouts(frames, []);
    assert LayoutAll(frames) + [] == LayoutAll(frames);
    assert frames + Drain([]).frames == frames;
    DrainSplit(stream, tail);
    var d := Drain(stream);
    if stream == LayoutAll(frames) {
      assert Drain(stream) == Drain(LayoutAll(frames) + []);
    }
    if d.error.None? {
      assert frames == d.frames + Drain(d.rest + tail).frames;
    }
  }

  /* ---------------------------------------------------------------- pushes */

  /** One push: the result it returns and the buffer it leaves. */
  function PushResult(buffer: Bytes, bytes: Bytes): (Result<seq<Frame>>, Bytes) {
    var d := Drain(buffer + bytes);
    if d.error.Some? then (Failure(d.error.value), [])
    else (Success(d.frames), d.rest)
  }

  /** What a connection has obtained after feeding pieces until the first failing push. */
  datatype Feeding = Feeding(emitted: seq<Frame>, buffer: Bytes, error: Option<Error>, pushes: nat)

  function Feed(buffer: Bytes, pieces: seq<Bytes>): Feeding
    decreases |pieces|
  {
    if pieces == [] then Feeding([], buffer, None, 0)
    else
      var (r, rest) := PushResult(buffer, pieces[0]);
      match r
      case Failure(e) => Feeding([], [], Some(e), 1)
      case Success(frames) =>
        var f := Feed(rest, pieces[1..]);
        f.(emitted := frames + f.emitted, pushes := f.pushes + 1)
  }

  function Join(pieces: seq<Bytes>): Bytes {
    if pieces == [] then [] else pieces[0] + Join(pieces[1..])
  }

  /** Any way of cutting a stream without bad headers gives the same frames and residual. */
  lemma {:induction false} ChunkingIndependence(buffer: Bytes, pieces: seq<Bytes>)
    requires HeadOf(buffer).Incomplete?
    requires Drain(buffer + Join(pieces)).error.None?
    ensures var d := Drain(buffer + Join(pieces));
      Feed(buffer, pieces) == Feeding(d.frames, d.rest, None, |pieces|)
    decreases |pieces|
  {
    if pieces == [] {
      assert buffer + Join(pieces) == buffer;
    } else {
      var now := buffer + pieces[0];
      assert buffer + Join(pieces) == now + Join(pieces[1..]);
      DrainSplit(now, Join(pieces[1..]));
      DrainCanonical(now);
      ChunkingIndependence(Drain(now).rest, pieces[1..]);
    }
  }

  /** Bytes before the bad header of a stream that has one. */
  function BadHeaderAt(stream: Bytes): (at: nat)
    requires Drain(stream).error.Some?
    ensures at + HEADER_SIZE <= |stream|
  {
    DrainCanonical(stream);
    |LayoutAll(Drain(stream).frames)|
  }

  /**
   Feeding failed with the stream's error, at the push that brings the last byte of the bad header
   and at no earlier one, having emitted exactly what the earlier pushes completed.
   */
  ghost predicate FailsAtHeader(buffer: Bytes, pieces: seq<Bytes>, f: Feeding)
    requires Drain(buffer + Join(pieces)).error.Some?
  {
    var all := buffer + Join(pieces);
    && f.error == Drain(all).error
    && 1 <= f.pushes <= |pieces|
    && |buffer + Join(pieces[..f.pushes - 1])| < BadHeaderAt(all) + HEADER_SIZE
    && |buffer + Join(pieces[..f.pushes])| >= BadHeaderAt(all) + HEADER_SIZE
    && f.emitted == Drain(buffer + Join(pieces[..f.pushes - 1])).frames
    && f.emitted <= Drain(all).frames
  }

  /** A stream with a bad header fails under every cutting in that one way. */
  lemma {:induction false} BadHeaderUnderEveryCutting(buffer: Bytes, pieces: seq<Bytes>)
    requires HeadOf(buffer).Incomplete?
    requires Drain(buffer + Join(pieces)).error.Some?
    ensures FailsAtHeader(buffer, pieces, Feed(buffer, pieces))
    decreases |pieces|
  {
    hide HeadOf, Drain, FailsAtHeader;
    assert pieces == [] ==> buffer + Join(pieces) == buffer;
    if pieces == [] {
      DrainByHead(buffer);
      assert false;
    } else {
      var now, later := buffer + pieces[0], Join(pieces[1..]);
      assert buffer + Join(pieces) == now + later;
      DrainSplit(now, later);
      var d := Drain(now);
      if d.error.Some? {
        FirstPushFails(buffer, pieces);
      } else {
        DrainCanonical(now);
        RestIncomplete(now);
        BadHeaderUnderEveryCutting(d.rest, pieces[1..]);
        LaterPushFails(buffer, pieces, Feed(d.rest, pieces[1..]));
      }
    }
  }

  lemma {:induction false} JoinConcat(a: seq<Bytes>, b: seq<Bytes>)
    ensures Join(a + b) == Join(a) + Join(b)
  {
    if a == [] {
      assert a + b == b;
    } else {
      assert (a + b)[1..] == a[1..] + b;
      JoinConcat(a[1..], b);
    }
  }

  /** A prefix of a stream with a bad header yields all of its good frames exactly if it reaches that header. */
  lemma AllFramesOfPrefix(prefix: Bytes, more: Bytes)
    requires Drain(prefix + more).error.Some?
    ensures Drain(prefix).frames == Drain(prefix + more).frames <==> |prefix| >= BadHeaderAt(prefix + more)
  {
    hide HeadOf, Drain, Layout, LayoutAll, Encodable;
    var all := Drain(prefix + more);
    DrainCanonical(prefix + more);
    DrainCanonical(prefix);
    DrainSplit(prefix, more);
    var at := BadHeaderAt(prefix + more);
    if |prefix| >= at {
      var tail := prefix[at..];
      assert prefix == (LayoutAll(all.frames) + all.rest)[..|prefix|] == LayoutAll(all.frames) + tail;
      DrainOfLayouts(all.frames, tail);
      assert |Drain(prefix).frames| >= |all.frames|;
    }
  }

  /** No good frame is lost exactly if the pushes before the failing one reach the bad header. */
  lemma NoFrameIsLostIff(buffer: Bytes, pieces: seq<Bytes>)
    requires HeadOf(buffer).Incomplete?
    requires Drain(buffer + Join(pieces)).error.Some?
    ensures var all, f := buffer + Join(pieces), Feed(buffer, pieces);
      && 1 <= f.pushes <= |pieces|
      && (f.emitted == Drain(all).frames <==> |buffer + Join(pieces[..f.pushes - 1])| >= BadHeaderAt(all))
  {
    hide HeadOf, Drain, BadHeaderAt;
    BadHeaderUnderEveryCutting(buffer, pieces);
    var earlier := Feed(buffer, pieces).pushes - 1;
    assert pieces == pieces[..earlier] + pieces[earlier..];
    JoinConcat(pieces[..earlier], pieces[earlier..]);
    var prefix, more := buffer + Join(pieces[..earlier]), Join(pieces[earlier..]);
    assert buffer + Join(pieces) == prefix + more;
    AllFramesOfPrefix(prefix, more);
  }

  /** Any good frame is lost when it shares a push with a bad header. */
  lemma GoodFrameIsLost(frame: Frame, bad: Bytes)
    requires Encodable(frame) && HeadOf(bad).Bad?
    ensures Feed([], [Layout(frame) + bad]).emitted == []
    ensures Drain([] + Join([Layout(frame) + bad])).frames == [frame]
  {
    hide HeadOf, Layout, Encodable;
    DrainOfLayout(frame, bad);
    var piece := Layout(frame) + bad;
    assert [] + Join([piece]) == piece == [] + piece;
    assert [frame] + Drain(bad).frames == [frame] by { DrainByHead(bad); }
    DrainByHead(bad);
  }

  lemma RestIncomplete(buffer: Bytes)
    requires Drain(buffer).error.None?
    ensures HeadOf(Drain(buffer).rest).Incomplete?
  {
    hide HeadOf, Drain;
    DrainCanonical(buffer);
  }

  lemma LaterPushFails(buffer: Bytes, pieces: seq<Bytes>, f: Feeding)
    requires pieces != []
    requires Drain(buffer + Join(pieces)).error.Some?
    requires Drain(buffer + pieces[0]).error.None?
    requires Drain(Drain(buffer + pieces[0]).rest + Join(pieces[1..])).error.Some?
    requires FailsAtHeader(Drain(buffer + pieces[0]).rest, pieces[1..], f)
    ensures FailsAtHeader(buffer, pieces,
              f.(emitted := Drain(buffer + pieces[0]).frames + f.emitted, pushes := f.pushes + 1))
  {
    hide HeadOf, Drain, Layout, LayoutAll;
    var now, later := buffer + pieces[0], Join(pieces[1..]);
    var d := Drain(now);
    assert buffer + Join(pieces) == now + later;
    DrainSplit(now, later);
    LayoutAllConcat(d.frames, Drain(d.rest + later).frames);
    ShiftCut(buffer, pieces, f.pushes);
    ShiftCut(buffer, pieces, f.pushes - 1);
  }

  lemma FirstPushFails(buffer: Bytes, pieces: seq<Bytes>)
    requires HeadOf(buffer).Incomplete? && pieces != []
    requires Drain(buffer + pieces[0]).error.Some?
    requires Drain(buffer + Join(pieces)).error.Some?
    ensures FailsAtHeader(buffer, pieces, Feeding([], [], Drain(buffer + pieces[0]).error, 1))
  {
    hide HeadOf, Drain, Layout, LayoutAll;
    var now, later := buffer + pieces[0], Join(pieces[1..]);
    assert buffer + Join(pieces) == now + later;
    DrainSplit(now, later);
    assert pieces[..1][1..] == [];
    assert buffer + Join(pieces[..1]) == now;
    assert buffer + Join(pieces[..0]) == buffer;
    DrainByHead(buffer);
    BadHeaderIsAhead(buffer, pieces[0]);
  }

  lemma BadHeaderIsAhead(buffer: Bytes, more: Bytes)
    requires HeadOf(buffer).Incomplete?
    requires Drain(buffer + more).error.Some?
    ensures |buffer| < BadHeaderAt(buffer + more) + HEADER_SIZE <= |buffer + more|
  {
    hide HeadOf;
    var now := buffer + more;
    DrainCanonical(now);
    var d := Drain(now);
    if d.frames == [] {
      assert d.rest == now;
      if |buffer| >= HEADER_SIZE {
        BadHeadIsLocal(buffer, more);
      }
    } else {
      LayoutOfHead(now);
      IncompleteIsShort(buffer, more);
      assert LayoutAll(d.frames) == Layout(d.frames[0]) + LayoutAll(d.frames[1..]);
    }
  }

  /** If more bytes complete a frame, the buffer before them was shorter than that frame. */
  lemma IncompleteIsShort(a: Bytes, b: Bytes)
    requires HeadOf(a).Incomplete? && HeadOf(a + b).Complete?
    ensures |a| < HeadOf(a + b).size
  {
    if |a| >= HEADER_SIZE {
      var c := a + b;
      assert c[..4] == a[..4] && c[4..6] == a[4..6] && c[6..8] == a[6..8] && c[20..24] == a[20..24];
    }
  }

  lemma ShiftCut(buffer: Bytes, pieces: seq<Bytes>, n: nat)
    requires pieces != [] && n < |pieces|
    requires Drain(buffer + pieces[0]).error.None?
    ensures var d := Drain(buffer + pieces[0]);
      var shorter := d.rest + Join(pieces[1..][..n]);
      var cut := buffer + Join(pieces[..n + 1]);
      && |cut| == |LayoutAll(d.frames)| + |shorter|
      && Drain(cut).frames == d.frames + Drain(shorter).frames
  {
    var now := buffer + pieces[0];
    var tail := Join(pieces[1..][..n]);
    assert pieces[..n + 1][0] == pieces[0] && pieces[..n + 1][1..] == pieces[1..][..n];
    assert buffer + Join(pieces[..n + 1]) == now + tail;
    DrainSplit(now, tail);
    DrainCanonical(now);
  }

  /* ---------------------------------------------------------------- encoder */

  lemma BigEndian16(value: uint16)
    ensures BigEndian(value, 2) == [value / 256 % 256, value % 256]
  {
    Widths();
    BigEndianAt(value, 2, 0);
    BigEndianAt(value, 2, 1);
  }

  lemma BigEndian32(value: uint32)
    ensures BigEndian(value, 4)
         == [value / 0x100_0000 % 256, value / 0x1_0000 % 256, value / 0x100 % 256, value % 256]
  {
    Widths();
    assert Pow256(3) == 0x100_0000;
    BigEndianAt(value, 4, 0);
    BigEndianAt(value, 4, 1);
    BigEndianAt(value, 4, 2);
    BigEndianAt(value, 4, 3);
  }

  method WriteU16(bytes: array<byte>, offset: nat, value: uint16)
    requires offset + 2 <= bytes.Length
    modifies bytes
    ensures bytes[..offset + 2] == old(bytes[..offset]) + BigEndian(value, 2)
    ensures bytes[offset + 2..] == old(bytes[offset + 2..])
  {
    BigEndian16(value);
    hide BigEndian;
    bytes[offset] := value / 256 % 256;
    bytes[offset + 1] := value % 256;
  }

  method WriteU32(bytes: array<byte>, offset: nat, value: uint32)
    requires offset + 4 <= bytes.Length
    modifies bytes
    ensures bytes[..offset + 4] == old(bytes[..offset]) + BigEndian(value, 4)
    ensures bytes[offset + 4..] == old(bytes[offset + 4..])
  {
    BigEndian32(value);
    hide BigEndian;
    bytes[offset] := value / 0x100_0000 % 256;
    bytes[offset + 1] := value / 0x1_0000 % 256;
    bytes[offset + 2] := value / 0x100 % 256;
    bytes[offset + 3] := value % 256;
  }

  method WriteU64(bytes: array<byte>, offset: nat, value: uint64)
    requires offset + 8 <= bytes.Length
    modifies bytes
    ensures bytes[..offset + 8] == old(bytes[..offset]) + BigEndian(value, 8)
    ensures bytes[offset + 8..] == old(bytes[offset + 8..])
  {
    var i := 0;
    while i < 8
      invariant 0 <= i <= 8
      invariant bytes[..offset + i] == old(bytes[..offset]) + BigEndian(value, 8)[..i]
      invariant bytes[offset + i..] == old(bytes[offset + i..])
    {
      BigEndianAt(value, 8, i);
      ghost var front, back := bytes[..offset + i], bytes[offset + i..];
      bytes[offset + i] := value / Pow256(7 - i) % 256;
      i := i + 1;
      assert bytes[..offset + i] == front + [BigEndian(value, 8)[i - 1]];
      assert bytes[offset + i..] == back[1..] == old(bytes[offset + i..]);
    }
  }

  /** Replace the bytes from `offset` on, as std::copy does. */
  method CopyInto(bytes: array<byte>, offset: nat, source: Bytes)
    requires offset + |source| <= bytes.Length
    modifies bytes
    ensures bytes[..offset + |source|] == old(bytes[..offset]) + source
    ensures bytes[offset + |source|..] == old(bytes[offset + |source|..])
  {
    var i := 0;
    while i < |source|
      invariant 0 <= i <= |source|
      invariant bytes[..offset + i] == old(bytes[..offset]) + source[..i]
      invariant bytes[offset + i..] == old(bytes[offset + i..])
    {
      ghost var front, back := bytes[..offset + i], bytes[offset + i..];
      bytes[offset + i] := source[i];
      i := i + 1;
      assert bytes[..offset + i] == front + [source[i - 1]];
      assert bytes[offset + i..] == back[1..] == old(bytes[offset + i..]);
      assert source[..i] == source[..i - 1] + [source[i - 1]];
    }
    assert source[..i] == source;
  }

  method Encode(frame: Frame) returns (r: Result<Bytes>)
    ensures r.Success? <==> Encodable(frame)
    ensures r.Success? ==> r.value == Layout(frame)
    ensures !IsKnownMessageType(frame.kind) ==> r == Failure(UNKNOWN_TYPE)
    ensures IsKnownMessageType(frame.kind) && !Encodable(frame) ==> r == Failure(TOO_LARGE)
  {
    if !IsKnownMessageType(frame.kind) {
      return Failure(UNKNOWN_TYPE);
    }
    if |frame.payload| > MAX_PAYLOAD_SIZE {
      return Failure(TOO_LARGE);
    }
    hide BigEndian, IsKnownMessageType;
    var bytes := new byte[HEADER_SIZE + |frame.payload|](_ => 0);
    CopyInto(bytes, 0, MAGIC);
    WriteU16(bytes, 4, FRAME_VERSION);
    WriteU16(bytes, 6, frame.kind);
    WriteU32(bytes, 8, frame.flags);
    WriteU64(bytes, 12, frame.requestId);
    WriteU32(bytes, 20, |frame.payload|);
    assert bytes[..HEADER_SIZE] == Header(frame.kind, frame.flags, frame.requestId, |frame.payload|);
    CopyInto(bytes, HEADER_SIZE, frame.payload);
    assert bytes[..] == bytes[..HEADER_SIZE + |frame.payload|];
    return Success(bytes[..]);
  }

  /* ---------------------------------------------------------------- decoder */

  method ReadU64(bytes: Bytes, offset: nat) returns (value: uint64)
    requires offset + 8 <= |bytes|
    ensures value == FromBigEndian(bytes[offset..offset + 8])
  {
    Widths();
    value := 0;
    var i := 0;
    while i < 8
      invariant 0 <= i <= 8
      invariant value == FromBigEndian(bytes[offset..offset + i])
    {
      var read := bytes[offset..offset + i + 1];
      assert read[..|read| - 1] == bytes[offset..offset + i];
      FitsInEight(read);
      value := value * 256 + bytes[offset + i];
      i := i + 1;
    }
  }

  lemma {:induction false} FitsInEight(b: Bytes)
    requires |b| <= 8
    ensures FromBigEndian(b) < 0x1_0000_0000_0000_0000
  {
    Widths();
    PowMonotone(|b|, 8);
  }

  lemma {:induction false} PowMonotone(m: nat, n: nat)
    requires m <= n
    ensures Pow256(m) <= Pow256(n)
  {
    if m < n {
      PowMonotone(m, n - 1);
    }
  }

  function ReadU16(bytes: Bytes, offset: nat): (value: uint16)
    requires offset + 2 <= |bytes|
    ensures value == FromBigEndian(bytes[offset..offset + 2])
  {
    var s := bytes[offset..offset + 2];
    assert s[..1] == [bytes[offset]] && [bytes[offset]][..0] == [];
    (bytes[offset] as int) * 256 + bytes[offset + 1] as int
  }

  function ReadU32(bytes: Bytes, offset: nat): (value: uint32)
    requires offset + 4 <= |bytes|
    ensures value == FromBigEndian(bytes[offset..offset + 4])
  {
    var three := bytes[offset..offset + 3];
    assert bytes[offset..offset + 4][..3] == three;
    assert three[..2] == bytes[offset..offset + 2];
    assert FromBigEndian(three) == ReadU16(bytes, offset) * 256 + three[2];
    (bytes[offset] as int) * 0x100_0000 + (bytes[offset + 1] as int) * 0x1_0000
    + (bytes[offset + 2] as int) * 256 + bytes[offset + 3] as int
  }

  class FrameDecoder {
    var buffer: Bytes

    constructor ()
      ensures buffer == []
    {
      buffer := [];
    }

    method Push(bytes: Bytes) returns (r: Result<seq<Frame>>)
      modifies this
      ensures (r, buffer) == PushResult(old(buffer), bytes)
    {
      hide FromBigEndian, Drain;
      buffer := buffer + bytes;
      var frames: seq<Frame> := [];
      ghost var whole := Drain(buffer);
      while |buffer| >= HEADER_SIZE
        invariant whole == Drain(buffer).(frames := frames + Drain(buffer).frames)
        decreases |buffer|
      {
        ghost var head := HeadOf(buffer);
        DrainByHead(buffer);
        if buffer[..4] != MAGIC {
          buffer := [];
          return Failure(BAD_MAGIC);
        }
        var version := ReadU16(buffer, 4);
        if version != FRAME_VERSION {
          buffer := [];
          return Failure(BAD_VERSION);
        }
        var kind := ReadU16(buffer, 6);
        if !IsKnownMessageType(kind) {
          buffer := [];
          return Failure(UNKNOWN_TYPE);
        }
        var flags := ReadU32(buffer, 8);
        var requestId := ReadU64(buffer, 12);
        var length := ReadU32(buffer, 20);
        if length > MAX_PAYLOAD_SIZE {
          buffer := [];
          return Failure(TOO_LARGE);
        }
        var total := HEADER_SIZE + length;
        if |buffer| < total {
          assert head == Incomplete;
          break;
        }
        var frame := Frame(kind, flags, requestId, buffer[HEADER_SIZE..total]);
        assert head == Complete(frame, total);
        ghost var more := Drain(buffer[total..]).frames;
        assert (frames + [frame]) + more == frames + ([frame] + more);
        frames := frames + [frame];
        buffer := buffer[total..];
      }
      DrainByHead(buffer);
      assert HeadOf(buffer) == Incomplete;
      assert frames + [] == frames;
      return Success(frames);
    }

    method Reset()
      modifies this
      ensures buffer == []
    {
      buffer := [];
    }
  }
}
