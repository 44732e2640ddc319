/** How the receiving end's histories grow: publications stay, wires lengthen, closed connections stay closed. */
module ServerHistory {
  import opened Bytes
  import opened ChunkCodec
  import opened FrameCodec
  import opened Messages
  import opened Results
  import opened TransferServer

  ghost predicate Steady(s: Server, t: Server, me: Socket) {
    && s.published <= t.published
    && (me in s.connections ==> me in t.connections)
    && ConnectionOf(s, me).wire <= ConnectionOf(t, me).wire
    && (IsOpen(t, me) ==> IsOpen(s, me) && ConnectionOf(t, me).buffer == ConnectionOf(s, me).buffer)
  }

  lemma SteadyTwice(s: Server, t: Server, u: Server, me: Socket)
    requires Steady(s, t, me) && Steady(t, u, me)
    ensures Steady(s, u, me)
  {}

  lemma SelfSteady(s: Server, me: Socket)
    ensures Steady(s, s, me)
  {}

  /** Connections and publications are all that counts. */
  lemma SetSteady(s: Server, u: Server, t: Server, me: Socket)
    requires Steady(u, t, me) && u.connections == s.connections && s.published <= u.published
    ensures Steady(s, t, me)
  {}

  lemma RemoveSteady(s: Server, c: Socket, me: Socket)
    ensures Steady(s, RemoveConnection(s, c), me)
  {}

  lemma SendSteady(w: World, s: Server, c: Socket, m: Message, requestId: uint64, io: Io, me: Socket)
    ensures Steady(s, SendMessage(w, s, c, m, requestId, io), me)
  {
    hide Layout, Encodable, RemoveConnection;
    RemoveSteady(s, c, me);
  }

  lemma FailSteady(w: World, s: Server, c: Socket, requestId: uint64, error: Error, io: Io, me: Socket)
    ensures Steady(s, FailReceive(w, s, c, requestId, error, io), me)
  {
    hide SendMessage;
    var id := if s.active.Some? then s.active.value.transferId else UNKNOWN_TRANSFER_ID;
    var noted := s.(setbacks := s.setbacks + [Setback(c, error)]);
    SendSteady(w, noted, c, FileResult(id, false, error), requestId, io, me);
  }

  lemma RejectSteady(w: World, s: Server, c: Socket, requestId: uint64, id: Bytes, error: Error, io: Io, me: Socket)
    ensures Steady(s, RejectConnectionReceive(w, s, c, requestId, id, error, io), me)
  {
    var m := FileResult(id, false, error);
    SendSteady(w, s, c, m, requestId, io, me);
    hide SendMessage, RemoveConnection;
    RemoveSteady(SendMessage(w, s, c, m, requestId, io), c, me);
  }

  lemma HelloSteady(w: World, s: Server, c: Socket, frame: Frame, io: Io, me: Socket)
    ensures Steady(s, HandleHello(w, s, c, frame, io), me)
  {
    hide SendMessage, RemoveConnection;
    RemoveSteady(s, c, me);
    SendSteady(w, WithConnection(s, c, ConnectionOf(s, c).(helloComplete := true)), c, HelloAck, frame.requestId, io, me);
  }

  lemma OfferSteady(w: World, s: Server, c: Socket, frame: Frame, io: Io, me: Socket)
    ensures Steady(s, HandleOffer(w, s, c, frame, io), me)
  {
    hide SendMessage;
    match Decode(w, frame)
    case Failure(e) => SendSteady(w, s, c, Reject(UNKNOWN_TRANSFER_ID, e), frame.requestId, io, me);
    case Success(m) =>
      SendSteady(w, s, c, Reject(UNKNOWN_TRANSFER_ID, BAD_PAYLOAD), frame.requestId, io, me);
      if m.Offer? {
        var valid := ValidateOfferTarget(s, m.fileName, io);
        if valid.Failure? {
          SendSteady(w, s, c, Reject(m.transferId, valid.error), frame.requestId, io, me);
        } else {
          var cleared := Cleared(s, m.fileName);
          SendSteady(w, cleared, c, Reject(m.transferId, OPEN_FAILED), frame.requestId, io, me);
          if io.opens {
            SendSteady(w, BeginReceive(cleared, c, frame.requestId, m, io).value, c, Accept(m.transferId),
                       frame.requestId, io, me);
          }
        }
      }
  }

  lemma StoreSteady(w: World, s: Server, c: Socket, requestId: uint64, data: Bytes, io: Io, me: Socket)
    requires s.active.Some?
    ensures Steady(s, StoreChunk(w, s, c, requestId, data, io), me)
  {
    hide FailReceive;
    var part := PartName(s.active.value.target);
    var written := if io.writes < |data| then data[..io.writes] else data;
    var stored := s.(files := s.files[part := (if part in s.files then s.files[part] else []) + written]);
    FailSteady(w, stored, c, requestId, WRITE_FAILED, io, me);
  }

  lemma ChunkSteady(w: World, s: Server, c: Socket, frame: Frame, io: Io, me: Socket)
    ensures Steady(s, HandleChunk(w, s, c, frame, io), me)
  {
    hide Steady, FailReceive, RejectConnectionReceive, StoreChunk, DecodeChunk;
    match DecodeChunk(frame.payload)
    case Failure(e) =>
      FailSteady(w, s, c, frame.requestId, e, io, me);
      RejectSteady(w, s, c, frame.requestId, UNKNOWN_TRANSFER_ID, e, io, me);
    case Success(chunk) =>
      RejectSteady(w, s, c, frame.requestId, chunk.transferId, NOT_OWNER, io, me);
      FailSteady(w, s, c, frame.requestId, WRONG_TRANSFER, io, me);
      FailSteady(w, s, c, frame.requestId, WRONG_OFFSET, io, me);
      FailSteady(w, s, c, frame.requestId, OFFSET_BEYOND_SIZE, io, me);
      FailSteady(w, s, c, frame.requestId, BEYOND_SIZE, io, me);
      if s.active.Some? {
        StoreSteady(w, s, c, frame.requestId, chunk.data, io, me);
      }
  }

  lemma CompleteSteady(w: World, s: Server, c: Socket, requestId: uint64, io: Io, me: Socket)
    requires s.active.Some?
    ensures Steady(s, CompleteReceive(w, s, c, requestId, io), me)
  {
    hide FailReceive, SendMessage;
    var t := s.active.value;
    FailSteady(w, s, c, requestId, WRONG_SIZE, io, me);
    FailSteady(w, s, c, requestId, FLUSH_FAILED, io, me);
    FailSteady(w, s, c, requestId, WRONG_HASH, io, me);
    FailSteady(w, s, c, requestId, RENAME_FAILED, io, me);
    SendSteady(w, Rename(s, t), c, FileResult(t.transferId, true, NO_ERROR), requestId, io, me);
  }

  lemma FinishSteady(w: World, s: Server, c: Socket, frame: Frame, io: Io, me: Socket)
    ensures Steady(s, HandleFinish(w, s, c, frame, io), me)
  {
    hide FailReceive, RejectConnectionReceive, CompleteReceive;
    match Decode(w, frame)
    case Failure(e) =>
      FailSteady(w, s, c, frame.requestId, e, io, me);
      RejectSteady(w, s, c, frame.requestId, UNKNOWN_TRANSFER_ID, e, io, me);
    case Success(m) =>
      FailSteady(w, s, c, frame.requestId, BAD_PAYLOAD, io, me);
      FailSteady(w, s, c, frame.requestId, WRONG_TRANSFER, io, me);
      RejectSteady(w, s, c, frame.requestId, UNKNOWN_TRANSFER_ID, BAD_PAYLOAD, io, me);
      if m.Finish? {
        RejectSteady(w, s, c, frame.requestId, m.transferId, NOT_OWNER, io, me);
        if s.active.Some? {
          var finishing := s.(active := Some(s.active.value.(state := Finishing)));
          CompleteSteady(w, finishing, c, frame.requestId, io, me);
          SetSteady(s, finishing, CompleteReceive(w, finishing, c, frame.requestId, io), me);
        }
      }
  }

  lemma DispatchSteady(w: World, s: Server, c: Socket, frame: Frame, io: Io, me: Socket)
    ensures Steady(s, DispatchFrame(w, s, c, frame, io), me)
  {
    hide Steady, HandleHello, HandleOffer, HandleChunk, HandleFinish, RemoveConnection;
    SelfSteady(s, me);
    RemoveSteady(s, c, me);
    HelloSteady(w, s, c, frame, io, me);
    OfferSteady(w, s, c, frame, io, me);
    ChunkSteady(w, s, c, frame, io, me);
    FinishSteady(w, s, c, frame, io, me);
  }

  lemma {:induction false} DispatchAllSteady(w: World, s: Server, c: Socket, frames: seq<Frame>, ios: seq<Io>, me: Socket)
    ensures Steady(s, DispatchAll(w, s, c, frames, ios), me)
    decreases |frames|
  {
    hide Steady, DispatchFrame;
    if frames == [] {
      SelfSteady(s, me);
    } else {
      var before := frames[..|frames| - 1];
      var t := DispatchAll(w, s, c, before, ios);
      DispatchAllSteady(w, s, c, before, ios, me);
      DispatchSteady(w, t, c, frames[|frames| - 1], IoAt(ios, |frames| - 1), me);
      SteadyTwice(s, t, DispatchFrame(w, t, c, frames[|frames| - 1], IoAt(ios, |frames| - 1)), me);
    }
  }

  /** Every event but the arrival of bytes on connection me. */
  lemma EventSteady(w: World, s: Server, e: Event, me: Socket)
    requires !(e.Receive? && e.c == me) && me in s.connections
    ensures Steady(s, Apply(w, s, e), me)
  {
    hide DispatchAll, PushResult, RemoveConnection;
    SelfSteady(s, me);
    match e
    case Connect(c) =>
    case Receive(c, bytes, ios) =>
      var conn := ConnectionOf(s, c);
      var (frames, rest) := PushResult(conn.buffer, bytes);
      var pushed := WithConnection(s, c, conn.(buffer := rest));
      RemoveSteady(pushed, c, me);
      if frames.Success? {
        DispatchAllSteady(w, pushed, c, frames.value, ios, me);
      }
    case BytesWritten(c, closes) => RemoveSteady(s, c, me);
    case FlushFires(c, connected, io) =>
      RemoveSteady(s, c, me);
      var conn := ConnectionOf(s, c);
      var accepted := BytesTaken(io.accepts, |conn.remainder|);
      if conn.open && conn.remainder != [] && accepted >= 0 {
        RemoveSteady(WithConnection(s, c, conn.(
          flushScheduled := accepted < |conn.remainder|,
          remainder := conn.remainder[accepted..],
          wire := conn.wire + conn.remainder[..accepted])), c, me);
      }
    case Disconnected(c) => RemoveSteady(s, c, me);
    case Close =>
  }
}
