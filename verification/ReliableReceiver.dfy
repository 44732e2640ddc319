/** What each frame of a transfer does at a receiving end whose file system and sockets do not fail. */
module ReliableReceiver {
  import opened Bytes
  import opened ChunkCodec
  import opened FrameCodec
  import opened Messages
  import opened Results
  import opened TransferServer
  import opened ReceiverInvariant

  /** Longer than any answer of the receiving end. */
  const ANSWER_LIMIT: nat := 64 * 1024

  /** Every file operation succeeds, and the socket has room for an answer, of which it takes any part. */
  predicate Reliable(io: Io) {
    && io.directory && !io.statFails && io.opens && io.writes >= MAX_PAYLOAD_SIZE && io.flushes && io.renames
    && io.accepts >= 0 && io.pending + ANSWER_LIMIT <= PENDING_CONTROL_WRITE_LIMIT
  }

  predicate Sayable(w: World, m: Message) {
    w.encode(m).Success? && HEADER_SIZE + |w.encode(m).value| <= ANSWER_LIMIT
  }

  /** The connection once the answer has been handed to its socket. */
  function Answered(w: World, conn: Connection, m: Message, requestId: uint64, io: Io): Connection
    requires Sayable(w, m) && Reliable(io)
  {
    var f := FrameOf(m, requestId, w.encode(m).value);
    Sent(conn, f, BytesTaken(io.accepts, |Layout(f)|))
  }

  lemma AnswerGoesOut(w: World, s: Server, c: Socket, m: Message, requestId: uint64, io: Io)
    requires IsOpen(s, c) && ConnectionOf(s, c).remainder == [] && Sayable(w, m) && Reliable(io)
    requires IsKnownMessageType(KindOf(m))
    ensures SendMessage(w, s, c, m, requestId, io)
         == WithConnection(s, c, Answered(w, ConnectionOf(s, c), m, requestId, io))
  {
    hide Layout, RemoveConnection;
  }

  lemma HelloIsAnswered(w: World, s: Server, c: Socket, frame: Frame, io: Io)
    requires IsOpen(s, c) && !ConnectionOf(s, c).helloComplete && ConnectionOf(s, c).remainder == []
    requires frame.kind == HELLO && Decode(w, frame).Success? && Sayable(w, HelloAck) && Reliable(io)
    ensures DispatchFrame(w, s, c, frame, io)
         == WithConnection(s, c, Answered(w, ConnectionOf(s, c).(helloComplete := true), HelloAck, frame.requestId, io))
  {
    hide SendMessage, Answered;
    var conn := ConnectionOf(s, c).(helloComplete := true);
    AnswerGoesOut(w, WithConnection(s, c, conn), c, HelloAck, frame.requestId, io);
  }

  lemma OfferIsAccepted(w: World, s: Server, c: Socket, frame: Frame, io: Io)
    requires IsOpen(s, c) && ConnectionOf(s, c).helloComplete && ConnectionOf(s, c).remainder == []
    requires frame.kind == FILE_OFFER && Decode(w, frame).Success? && Decode(w, frame).value.Offer?
    requires var m := Decode(w, frame).value; m.fileName !in s.files && Sayable(w, Accept(m.transferId))
    requires s.active.None? && Reliable(io)
    ensures var m := Decode(w, frame).value;
      DispatchFrame(w, s, c, frame, io)
      == WithConnection(BeginReceive(Cleared(s, m.fileName), c, frame.requestId, m, io).value, c,
                        Answered(w, ConnectionOf(s, c), Accept(m.transferId), frame.requestId, io))
  {
    hide SendMessage, Answered;
    var m := Decode(w, frame).value;
    var begun := BeginReceive(Cleared(s, m.fileName), c, frame.requestId, m, io).value;
    AnswerGoesOut(w, begun, c, Accept(m.transferId), frame.requestId, io);
  }

  /** The server with a chunk appended to the part file. */
  function Appended(s: Server, data: Bytes): Server
    requires s.active.Some? && PartName(s.active.value.target) in s.files
  {
    var t := s.active.value;
    s.(files := s.files[PartName(t.target) := s.files[PartName(t.target)] + data],
       active := Some(t.(hashed := t.hashed + data, offset := t.offset + |data|, state := Receiving)))
  }

  lemma ChunkIsStored(w: World, s: Server, c: Socket, frame: Frame, io: Io)
    requires IsOpen(s, c) && ConnectionOf(s, c).helloComplete && Owns(s, c) && s.active.value.state != Finishing
    requires PartName(s.active.value.target) in s.files
    requires frame.kind == FILE_CHUNK && DecodeChunk(frame.payload).Success? && Reliable(io)
    requires var t, chunk := s.active.value, DecodeChunk(frame.payload).value;
      && chunk.transferId == t.transferId && chunk.offset == t.offset
      && t.offset + |chunk.data| <= t.fileSize && |chunk.data| <= MAX_PAYLOAD_SIZE
    ensures DispatchFrame(w, s, c, frame, io) == Appended(s, DecodeChunk(frame.payload).value.data)
  {
    hide DecodeChunk, FailReceive, RejectConnectionReceive;
  }

  lemma FinishPublishes(w: World, s: Server, c: Socket, frame: Frame, io: Io)
    requires IsOpen(s, c) && ConnectionOf(s, c).helloComplete && ConnectionOf(s, c).remainder == []
    requires Owns(s, c) && s.active.value.state != Finishing && s.active.value.target !in s.files
    requires frame.kind == FILE_FINISH && Decode(w, frame).Success? && Decode(w, frame).value.Finish? && Reliable(io)
    requires var t := s.active.value;
      && Decode(w, frame).value.transferId == t.transferId && t.offset == t.fileSize && w.sha256(t.hashed) == t.sha256
      && Sayable(w, FileResult(t.transferId, true, NO_ERROR))
    ensures var t := s.active.value;
      DispatchFrame(w, s, c, frame, io)
      == WithConnection(Rename(s, t), c,
                        Answered(w, ConnectionOf(s, c), FileResult(t.transferId, true, NO_ERROR), frame.requestId, io))
         .(active := None)
  {
    hide SendMessage, Answered, FailReceive, RejectConnectionReceive, Rename;
    var t := s.active.value;
    var finishing := s.(active := Some(t.(state := Finishing)));
    var renamed := Rename(finishing, t.(state := Finishing));
    RenameIsFor(s, t);
    AnswerGoesOut(w, renamed, c, FileResult(t.transferId, true, NO_ERROR), frame.requestId, io);
  }

  lemma RenameIsFor(s: Server, t: Transfer)
    requires s.active == Some(t)
    ensures var r := Rename(s.(active := Some(t.(state := Finishing))), t.(state := Finishing));
      r == Rename(s, t).(active := Some(t.(state := Finishing))) && r.connections == s.connections
  {}
}
