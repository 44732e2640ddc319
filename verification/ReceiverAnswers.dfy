/** What the receiving end answers to each frame, and when the answer goes out. */
module ReceiverAnswers {
  import opened Bytes
  import opened ChunkCodec
  import opened FrameCodec
  import opened Messages
  import opened Results
  import opened TransferServer

  /** Nothing is left over, the message can be encoded, all that is pending stays within the limit and the socket does not fail. */
  predicate CanSend(w: World, before: Connection, requestId: uint64, m: Message, io: Io) {
    && before.open && before.remainder == [] && io.accepts >= 0 && w.encode(m).Success?
    && var frame := FrameOf(m, requestId, w.encode(m).value);
       Encodable(frame) && io.pending + |Layout(frame)| <= PENDING_CONTROL_WRITE_LIMIT
  }

  /** The frame carries this message and answers that request. */
  predicate Carries(w: World, f: Frame, requestId: uint64, m: Message) {
    f.kind == KindOf(m) && f.requestId == requestId && Decode(w, f) == Success(m)
  }

  /** One frame has been sent to the connection, and it is this answer. */
  predicate GotAnswer(w: World, before: Connection, after: Connection, requestId: uint64, m: Message) {
    && |after.sent| == |before.sent| + 1 && after.sent[..|before.sent|] == before.sent
    && Carries(w, after.sent[|before.sent|], requestId, m)
  }

  /** The answer goes out if it can be sent; a connection it cannot be sent to is lost. */
  predicate Answered(w: World, before: Connection, after: Connection, requestId: uint64, m: Message, io: Io) {
    if CanSend(w, before, requestId, m, io) then after.open && GotAnswer(w, before, after, requestId, m)
    else !after.open && after.sent == before.sent
  }

  /** The socket takes the whole frame at once. */
  predicate TakesAll(w: World, requestId: uint64, m: Message, io: Io)
    requires w.encode(m).Success?
  {
    io.accepts >= |Layout(FrameOf(m, requestId, w.encode(m).value))|
  }

  /** The answer goes out if it can be sent, and the connection is closed once nothing of it is left. */
  predicate Dismissed(w: World, before: Connection, after: Connection, requestId: uint64, m: Message, io: Io) {
    if CanSend(w, before, requestId, m, io) then
      && GotAnswer(w, before, after, requestId, m)
      && (after.open <==> !(TakesAll(w, requestId, m, io) && io.closes))
      && (!TakesAll(w, requestId, m, io) ==> after.disconnectAfterWrite)
    else !after.open && after.sent == before.sent
  }

  lemma SendAnswers(w: World, s: Server, c: Socket, requestId: uint64, m: Message, io: Io)
    requires Faithful(w) && IsOpen(s, c)
    ensures var t := SendMessage(w, s, c, m, requestId, io);
      && Answered(w, ConnectionOf(s, c), ConnectionOf(t, c), requestId, m, io)
      && (IsOpen(t, c) ==> (ConnectionOf(t, c).remainder == [] <==> TakesAll(w, requestId, m, io)))
      && (IsOpen(t, c) ==> ConnectionOf(t, c).disconnectAfterWrite == ConnectionOf(s, c).disconnectAfterWrite
                           && ConnectionOf(t, c).helloComplete == ConnectionOf(s, c).helloComplete)
  {
    hide Layout, Encodable, Faithful;
    if w.encode(m).Success? {
      DecodeWhatWasSent(w, m, requestId);
    }
  }

  /** Who fails a transfer is told so, with the reason. */
  lemma FailAnswers(w: World, s: Server, c: Socket, requestId: uint64, error: Error, io: Io)
    requires Faithful(w) && IsOpen(s, c) && Owns(s, c)
    ensures Answered(w, ConnectionOf(s, c), ConnectionOf(FailReceive(w, s, c, requestId, error, io), c), requestId,
                     FileResult(s.active.value.transferId, false, error), io)
  {
    hide SendMessage, Answered, Faithful;
    var noted := s.(setbacks := s.setbacks + [Setback(c, error)]);
    SendAnswers(w, noted, c, requestId, FileResult(s.active.value.transferId, false, error), io);
  }

  /** Who owns no transfer is told so before the connection is closed. */
  lemma RejectDismisses(w: World, s: Server, c: Socket, requestId: uint64, id: Bytes, error: Error, io: Io)
    requires Faithful(w) && IsOpen(s, c)
    ensures Dismissed(w, ConnectionOf(s, c), ConnectionOf(RejectConnectionReceive(w, s, c, requestId, id, error, io), c),
                      requestId, FileResult(id, false, error), io)
  {
    hide SendMessage, Faithful, CanSend, TakesAll, Carries;
    SendAnswers(w, s, c, requestId, FileResult(id, false, error), io);
  }
}
