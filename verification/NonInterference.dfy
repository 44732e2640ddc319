/**
 While a connection owns the active transfer, nothing any other connection does, whether it sends
 frames, fails or disconnects, has a bearing on the transfer, its part file or its target.
 */
module NonInterference {
  import opened Bytes
  import opened ChunkCodec
  import opened FrameCodec
  import opened Messages
  import opened Results
  import opened TransferServer

  /** The two servers look the same to connection o: transfer, directory, publications and its own connection. */
  predicate SameView(s: Server, t: Server, o: Socket) {
    && s.active == t.active && s.files == t.files && s.published == t.published && s.setbacks == t.setbacks
    && (o in s.connections <==> o in t.connections)
    && ConnectionOf(s, o) == ConnectionOf(t, o)
  }

  /* ---------------------------------------------------------------- what others do */

  lemma OthersRemove(s: Server, c: Socket, o: Socket)
    requires c != o && !Owns(s, c)
    ensures SameView(RemoveConnection(s, c), s, o)
  {}

  lemma OthersSend(w: World, s: Server, c: Socket, m: Message, requestId: uint64, io: Io, o: Socket)
    requires c != o && !Owns(s, c)
    ensures SameView(SendMessage(w, s, c, m, requestId, io), s, o)
  {
    hide Layout, Encodable;
    OthersRemove(s, c, o);
  }

  lemma OthersReject(w: World, s: Server, c: Socket, requestId: uint64, id: Bytes, error: Error, io: Io, o: Socket)
    requires c != o && !Owns(s, c)
    ensures SameView(RejectConnectionReceive(w, s, c, requestId, id, error, io), s, o)
  {
    var m := FileResult(id, false, error);
    OthersSend(w, s, c, m, requestId, io, o);
    hide SendMessage;
    OthersRemove(SendMessage(w, s, c, m, requestId, io), c, o);
  }

  lemma OthersDispatch(w: World, s: Server, c: Socket, frame: Frame, io: Io, o: Socket)
    requires c != o && Owns(s, o)
    ensures SameView(DispatchFrame(w, s, c, frame, io), s, o)
  {
    hide SendMessage, RejectConnectionReceive, DecodeChunk, FailReceive, StoreChunk, CompleteReceive, RemoveConnection;
    OthersRemove(s, c, o);
    if frame.kind == HELLO {
      var greeted := WithConnection(s, c, ConnectionOf(s, c).(helloComplete := true));
      OthersSend(w, greeted, c, HelloAck, frame.requestId, io, o);
    } else if frame.kind == FILE_OFFER {
      OthersOffer(w, s, c, frame, io, o);
    } else if frame.kind == FILE_CHUNK {
      OthersChunk(w, s, c, frame, io, o);
    } else if frame.kind == FILE_FINISH {
      OthersFinish(w, s, c, frame, io, o);
    }
  }

  lemma OthersOffer(w: World, s: Server, c: Socket, frame: Frame, io: Io, o: Socket)
    requires c != o && Owns(s, o)
    ensures SameView(HandleOffer(w, s, c, frame, io), s, o)
  {
    hide SendMessage;
    var id := match Decode(w, frame) case Failure(_) => UNKNOWN_TRANSFER_ID
                                     case Success(m) => if m.Offer? then m.transferId else UNKNOWN_TRANSFER_ID;
    var e := match Decode(w, frame) case Failure(e) => e case Success(m) => if m.Offer? then BUSY else BAD_PAYLOAD;
    OthersSend(w, s, c, Reject(id, e), frame.requestId, io, o);
  }

  lemma OthersChunk(w: World, s: Server, c: Socket, frame: Frame, io: Io, o: Socket)
    requires c != o && Owns(s, o)
    ensures SameView(HandleChunk(w, s, c, frame, io), s, o)
  {
    hide RejectConnectionReceive, DecodeChunk, FailReceive, StoreChunk;
    match DecodeChunk(frame.payload)
    case Failure(e) => OthersReject(w, s, c, frame.requestId, UNKNOWN_TRANSFER_ID, e, io, o);
    case Success(chunk) => OthersReject(w, s, c, frame.requestId, chunk.transferId, NOT_OWNER, io, o);
  }

  lemma OthersFinish(w: World, s: Server, c: Socket, frame: Frame, io: Io, o: Socket)
    requires c != o && Owns(s, o)
    ensures SameView(HandleFinish(w, s, c, frame, io), s, o)
  {
    hide RejectConnectionReceive, FailReceive, CompleteReceive;
    match Decode(w, frame)
    case Failure(e) => OthersReject(w, s, c, frame.requestId, UNKNOWN_TRANSFER_ID, e, io, o);
    case Success(m) =>
      OthersReject(w, s, c, frame.requestId, UNKNOWN_TRANSFER_ID, BAD_PAYLOAD, io, o);
      if m.Finish? {
        OthersReject(w, s, c, frame.requestId, m.transferId, NOT_OWNER, io, o);
      }
  }

  lemma {:induction false} OthersDispatchAll(w: World, s: Server, c: Socket, frames: seq<Frame>, ios: seq<Io>, o: Socket)
    requires c != o && Owns(s, o)
    ensures SameView(DispatchAll(w, s, c, frames, ios), s, o)
    decreases |frames|
  {
    hide DispatchFrame;
    if frames != [] {
      var before := frames[..|frames| - 1];
      OthersDispatchAll(w, s, c, before, ios, o);
      OthersDispatch(w, DispatchAll(w, s, c, before, ios), c, frames[|frames| - 1], IoAt(ios, |frames| - 1), o);
    }
  }

  /** The event belongs to connection o or to none. */
  predicate Concerns(e: Event, o: Socket) {
    e.Close? || e.c == o
  }

  lemma OthersEvent(w: World, s: Server, e: Event, o: Socket)
    requires Owns(s, o) && !Concerns(e, o)
    ensures SameView(Apply(w, s, e), s, o)
  {
    hide DispatchAll, PushResult, RemoveConnection;
    OthersRemove(s, e.c, o);
    match e
    case Connect(c) =>
    case Receive(c, bytes, ios) =>
      var conn := ConnectionOf(s, c);
      if conn.open {
        var (frames, rest) := PushResult(conn.buffer, bytes);
        var pushed := WithConnection(s, c, conn.(buffer := rest));
        OthersRemove(pushed, c, o);
        if frames.Success? {
          OthersDispatchAll(w, pushed, c, frames.value, ios, o);
        }
      }
    case BytesWritten(c, closes) =>
    case FlushFires(c, connected, io) =>
      var conn := ConnectionOf(s, c);
      var accepted := BytesTaken(io.accepts, |conn.remainder|);
      if conn.open && accepted >= 0 {
        OthersRemove(WithConnection(s, c, conn.(
          flushScheduled := accepted < |conn.remainder|,
          remainder := conn.remainder[accepted..],
          wire := conn.wire + conn.remainder[..accepted])), c, o);
      }
    case Disconnected(c) =>
  }

  /* ---------------------------------------------------------------- what the owner does depends on its view only */

  lemma OwnRemove(s: Server, t: Server, o: Socket)
    requires SameView(s, t, o)
    ensures SameView(RemoveConnection(s, o), RemoveConnection(t, o), o)
  {}

  lemma OwnSend(w: World, s: Server, t: Server, m: Message, requestId: uint64, io: Io, o: Socket)
    requires SameView(s, t, o)
    ensures SameView(SendMessage(w, s, o, m, requestId, io), SendMessage(w, t, o, m, requestId, io), o)
  {
    hide Layout, Encodable, RemoveConnection;
    OwnRemove(s, t, o);
  }

  lemma OwnFail(w: World, s: Server, t: Server, requestId: uint64, error: Error, io: Io, o: Socket)
    requires SameView(s, t, o)
    ensures SameView(FailReceive(w, s, o, requestId, error, io), FailReceive(w, t, o, requestId, error, io), o)
  {
    hide SendMessage;
    var id := if s.active.Some? then s.active.value.transferId else UNKNOWN_TRANSFER_ID;
    OwnSend(w, s.(setbacks := s.setbacks + [Setback(o, error)]), t.(setbacks := t.setbacks + [Setback(o, error)]),
            FileResult(id, false, error), requestId, io, o);
  }

  lemma OwnReject(w: World, s: Server, t: Server, requestId: uint64, id: Bytes, error: Error, io: Io, o: Socket)
    requires SameView(s, t, o)
    ensures SameView(RejectConnectionReceive(w, s, o, requestId, id, error, io),
                     RejectConnectionReceive(w, t, o, requestId, id, error, io), o)
  {
    var m := FileResult(id, false, error);
    OwnSend(w, s, t, m, requestId, io, o);
    hide SendMessage, RemoveConnection;
    OwnRemove(SendMessage(w, s, o, m, requestId, io), SendMessage(w, t, o, m, requestId, io), o);
  }

  lemma OwnHello(w: World, s: Server, t: Server, frame: Frame, io: Io, o: Socket)
    requires SameView(s, t, o)
    ensures SameView(HandleHello(w, s, o, frame, io), HandleHello(w, t, o, frame, io), o)
  {
    hide SendMessage, RemoveConnection;
    OwnRemove(s, t, o);
    var conn := ConnectionOf(s, o).(helloComplete := true);
    OwnSend(w, WithConnection(s, o, conn), WithConnection(t, o, conn), HelloAck, frame.requestId, io, o);
  }

  lemma OwnOffer(w: World, s: Server, t: Server, frame: Frame, io: Io, o: Socket)
    requires SameView(s, t, o)
    ensures SameView(HandleOffer(w, s, o, frame, io), HandleOffer(w, t, o, frame, io), o)
  {
    hide SendMessage;
    match Decode(w, frame)
    case Failure(e) => OwnSend(w, s, t, Reject(UNKNOWN_TRANSFER_ID, e), frame.requestId, io, o);
    case Success(m) =>
      OwnSend(w, s, t, Reject(UNKNOWN_TRANSFER_ID, BAD_PAYLOAD), frame.requestId, io, o);
      if m.Offer? {
        var valid := ValidateOfferTarget(s, m.fileName, io);
        if valid.Failure? {
          OwnSend(w, s, t, Reject(m.transferId, valid.error), frame.requestId, io, o);
        } else {
          OwnBegin(w, s, t, m, frame.requestId, io, o);
        }
      }
  }

  lemma OwnBegin(w: World, s: Server, t: Server, m: Message, requestId: uint64, io: Io, o: Socket)
    requires SameView(s, t, o) && m.Offer?
    ensures var s1, t1 := Cleared(s, m.fileName), Cleared(t, m.fileName);
      if io.opens then
        SameView(SendMessage(w, BeginReceive(s1, o, requestId, m, io).value, o, Accept(m.transferId), requestId, io),
                 SendMessage(w, BeginReceive(t1, o, requestId, m, io).value, o, Accept(m.transferId), requestId, io), o)
      else
        SameView(SendMessage(w, s1, o, Reject(m.transferId, OPEN_FAILED), requestId, io),
                 SendMessage(w, t1, o, Reject(m.transferId, OPEN_FAILED), requestId, io), o)
  {
    hide SendMessage;
    var s1, t1 := Cleared(s, m.fileName), Cleared(t, m.fileName);
    if io.opens {
      OwnSend(w, BeginReceive(s1, o, requestId, m, io).value, BeginReceive(t1, o, requestId, m, io).value,
              Accept(m.transferId), requestId, io, o);
    } else {
      OwnSend(w, s1, t1, Reject(m.transferId, OPEN_FAILED), requestId, io, o);
    }
  }

  lemma OwnStore(w: World, s: Server, t: Server, data: Bytes, requestId: uint64, io: Io, o: Socket)
    requires SameView(s, t, o) && s.active.Some?
    ensures SameView(StoreChunk(w, s, o, requestId, data, io), StoreChunk(w, t, o, requestId, data, io), o)
  {
    hide FailReceive;
    var part := PartName(s.active.value.target);
    var written := if io.writes < |data| then data[..io.writes] else data;
    var content := (if part in s.files then s.files[part] else []) + written;
    OwnFail(w, s.(files := s.files[part := content]), t.(files := t.files[part := content]), requestId, WRITE_FAILED, io, o);
  }

  lemma OwnChunk(w: World, s: Server, t: Server, frame: Frame, io: Io, o: Socket)
    requires SameView(s, t, o)
    ensures SameView(HandleChunk(w, s, o, frame, io), HandleChunk(w, t, o, frame, io), o)
  {
    hide FailReceive, RejectConnectionReceive, StoreChunk, DecodeChunk;
    match DecodeChunk(frame.payload)
    case Failure(e) =>
      OwnFail(w, s, t, frame.requestId, e, io, o);
      OwnReject(w, s, t, frame.requestId, UNKNOWN_TRANSFER_ID, e, io, o);
    case Success(chunk) =>
      OwnReject(w, s, t, frame.requestId, chunk.transferId, NOT_OWNER, io, o);
      OwnFail(w, s, t, frame.requestId, WRONG_TRANSFER, io, o);
      OwnFail(w, s, t, frame.requestId, WRONG_OFFSET, io, o);
      OwnFail(w, s, t, frame.requestId, OFFSET_BEYOND_SIZE, io, o);
      OwnFail(w, s, t, frame.requestId, BEYOND_SIZE, io, o);
      if s.active.Some? {
        OwnStore(w, s, t, chunk.data, frame.requestId, io, o);
      }
  }

  lemma OwnComplete(w: World, s: Server, t: Server, requestId: uint64, io: Io, o: Socket)
    requires SameView(s, t, o) && s.active.Some?
    ensures SameView(CompleteReceive(w, s, o, requestId, io), CompleteReceive(w, t, o, requestId, io), o)
  {
    hide FailReceive, SendMessage;
    OwnFail(w, s, t, requestId, WRONG_SIZE, io, o);
    OwnFail(w, s, t, requestId, FLUSH_FAILED, io, o);
    OwnFail(w, s, t, requestId, WRONG_HASH, io, o);
    OwnFail(w, s, t, requestId, RENAME_FAILED, io, o);
    var a := s.active.value;
    OwnSend(w, Rename(s, a), Rename(t, a), FileResult(a.transferId, true, NO_ERROR), requestId, io, o);
  }

  lemma OwnFinish(w: World, s: Server, t: Server, frame: Frame, io: Io, o: Socket)
    requires SameView(s, t, o)
    ensures SameView(HandleFinish(w, s, o, frame, io), HandleFinish(w, t, o, frame, io), o)
  {
    hide FailReceive, RejectConnectionReceive, CompleteReceive;
    match Decode(w, frame)
    case Failure(e) =>
      OwnFail(w, s, t, frame.requestId, e, io, o);
      OwnReject(w, s, t, frame.requestId, UNKNOWN_TRANSFER_ID, e, io, o);
    case Success(m) =>
      OwnFail(w, s, t, frame.requestId, BAD_PAYLOAD, io, o);
      OwnFail(w, s, t, frame.requestId, WRONG_TRANSFER, io, o);
      OwnReject(w, s, t, frame.requestId, UNKNOWN_TRANSFER_ID, BAD_PAYLOAD, io, o);
      if m.Finish? {
        OwnReject(w, s, t, frame.requestId, m.transferId, NOT_OWNER, io, o);
        if s.active.Some? {
          var finishing := Some(s.active.value.(state := Finishing));
          OwnComplete(w, s.(active := finishing), t.(active := finishing), frame.requestId, io, o);
        }
      }
  }

  lemma OwnDispatch(w: World, s: Server, t: Server, frame: Frame, io: Io, o: Socket)
    requires SameView(s, t, o)
    ensures SameView(DispatchFrame(w, s, o, frame, io), DispatchFrame(w, t, o, frame, io), o)
  {
    hide HandleHello, HandleOffer, HandleChunk, HandleFinish, RemoveConnection;
    OwnHello(w, s, t, frame, io, o);
    OwnOffer(w, s, t, frame, io, o);
    OwnChunk(w, s, t, frame, io, o);
    OwnFinish(w, s, t, frame, io, o);
    OwnRemove(s, t, o);
  }

  lemma {:induction false} OwnDispatchAll(w: World, s: Server, t: Server, frames: seq<Frame>, ios: seq<Io>, o: Socket)
    requires SameView(s, t, o)
    ensures SameView(DispatchAll(w, s, o, frames, ios), DispatchAll(w, t, o, frames, ios), o)
    decreases |frames|
  {
    hide DispatchFrame, SameView;
    if frames != [] {
      var before := frames[..|frames| - 1];
      OwnDispatchAll(w, s, t, before, ios, o);
      OwnDispatch(w, DispatchAll(w, s, o, before, ios), DispatchAll(w, t, o, before, ios), frames[|frames| - 1],
                  IoAt(ios, |frames| - 1), o);
    }
  }

  lemma OwnFlush(s: Server, t: Server, connected: bool, io: Io, o: Socket)
    requires SameView(s, t, o)
    ensures SameView(FlushWriteRemainder(s, o, connected, io), FlushWriteRemainder(t, o, connected, io), o)
  {
    hide RemoveConnection;
    OwnRemove(s, t, o);
    var conn := ConnectionOf(s, o);
    var accepted := BytesTaken(io.accepts, |conn.remainder|);
    if accepted >= 0 {
      var flushed := conn.(flushScheduled := accepted < |conn.remainder|, remainder := conn.remainder[accepted..],
                           wire := conn.wire + conn.remainder[..accepted]);
      OwnRemove(WithConnection(s, o, flushed), WithConnection(t, o, flushed), o);
    }
  }

  lemma OwnEvent(w: World, s: Server, t: Server, e: Event, o: Socket)
    requires SameView(s, t, o) && Concerns(e, o)
    ensures SameView(Apply(w, s, e), Apply(w, t, e), o)
  {
    hide DispatchAll, PushResult, RemoveConnection, FlushWriteRemainder;
    OwnRemove(s, t, o);
    var conn := ConnectionOf(s, o);
    match e
    case Connect(_) =>
    case Receive(_, bytes, ios) =>
      var (frames, rest) := PushResult(conn.buffer, bytes);
      var s1, t1 := WithConnection(s, o, conn.(buffer := rest)), WithConnection(t, o, conn.(buffer := rest));
      OwnRemove(s1, t1, o);
      if frames.Success? {
        OwnDispatchAll(w, s1, t1, frames.value, ios, o);
      }
    case BytesWritten(_, closes) =>
    case FlushFires(_, connected, io) => OwnFlush(s, t, connected, io, o);
    case Disconnected(_) =>
    case Close =>
  }

  /* ---------------------------------------------------------------- runs */

  /** Connection o owns the active transfer before every event of the run; the last one may end it. */
  ghost predicate OwnedThroughout(w: World, s: Server, es: seq<Event>, o: Socket)
    decreases |es|
  {
    es == [] || (Owns(s, o) && OwnedThroughout(w, Apply(w, s, es[0]), es[1..], o))
  }

  /** The run without what other connections do. */
  function OnlyOwner(es: seq<Event>, o: Socket): seq<Event> {
    if es == [] then []
    else if Concerns(es[0], o) then [es[0]] + OnlyOwner(es[1..], o)
    else OnlyOwner(es[1..], o)
  }

  /** Deleting all that other connections do changes nothing for the owner, from accept to terminal result. */
  lemma {:induction false} OthersDoNotInterfere(w: World, s: Server, t: Server, es: seq<Event>, o: Socket)
    requires SameView(s, t, o) && OwnedThroughout(w, s, es, o)
    ensures SameView(After(w, s, es), After(w, t, OnlyOwner(es, o)), o)
    decreases |es|
  {
    hide Apply;
    if es != [] {
      var e := es[0];
      if Concerns(e, o) {
        OwnEvent(w, s, t, e, o);
        hide SameView;
        OthersDoNotInterfere(w, Apply(w, s, e), Apply(w, t, e), es[1..], o);
        assert OnlyOwner(es, o)[0] == e && OnlyOwner(es, o)[1..] == OnlyOwner(es[1..], o);
      } else {
        OthersEvent(w, s, e, o);
        assert SameView(Apply(w, s, e), t, o);
        OthersDoNotInterfere(w, Apply(w, s, e), t, es[1..], o);
      }
    }
  }
}
