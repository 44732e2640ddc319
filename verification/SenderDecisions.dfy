/** Exactly which frames move the sending end on, and what each firing of the pump sends. */
module SenderDecisions {
  import opened Bytes
  import opened ChunkCodec
  import opened FrameCodec
  import opened Messages
  import opened Results
  import opened TransferClient
  import opened SenderInvariant

  /** The frame accepts the offer that is pending. */
  predicate AcceptsOffer(w: World, s: Sender, f: Frame) {
    && f.kind == FILE_ACCEPT && f.requestId == s.client.offerId
    && Decode(w, f).Success? && Decode(w, f).value.Accept? && Decode(w, f).value.transferId == s.client.transferId
  }

  /** The frame is a result for the finish that is pending. */
  predicate ResolvesFinish(w: World, s: Sender, f: Frame) {
    && f.kind == FILE_RESULT && f.requestId == s.client.finishId
    && Decode(w, f).Success? && Decode(w, f).value.FileResult? && Decode(w, f).value.transferId == s.client.transferId
  }

  predicate Acknowledges(w: World, s: Sender, f: Frame) {
    && f.kind == HELLO_ACK && f.requestId == s.client.helloId && Decode(w, f).Success? && Decode(w, f).value.HelloAck?
  }

  /** The frame rejects the offer that is pending. */
  predicate RejectsOffer(w: World, s: Sender, f: Frame) {
    && f.kind == FILE_REJECT && f.requestId == s.client.offerId
    && Decode(w, f).Success? && Decode(w, f).value.Reject? && Decode(w, f).value.transferId == s.client.transferId
  }

  /** The error a frame of a kind that is not awaited ends a send with. */
  function OutOfTurn(kind: MessageType): Error {
    if kind in {HELLO_ACK, FILE_ACCEPT, FILE_REJECT, FILE_RESULT} then UNEXPECTED_STATE else CONNECTION_ERROR
  }

  /** The client holds neither the socket nor the file, and has nothing left to do. */
  predicate LetsGo(c: Client) {
    !c.connected && !c.fileOpen && c.remainder == [] && !c.pumpScheduled && !c.flushScheduled
  }

  /** One completion more, and this is it; the client lets go of everything. */
  predicate Concludes(s: Sender, t: Sender, r: Result<()>) {
    !t.active && t.completions == s.completions + [r] && LetsGo(t.client)
  }

  /**
   While the offer is out, sending starts with exactly the frame that accepts it; any other ends the send,
   the one that rejects it with the error given there.
   */
  predicate OfferSettled(w: World, s: Sender, f: Frame, t: Sender) {
    if AcceptsOffer(w, s, f) then t.active && t.client.state == Sending && t.completions == s.completions
    else if RejectsOffer(w, s, f) then Concludes(s, t, Failure(Decode(w, f).value.error))
    else if f.kind == FILE_ACCEPT || f.kind == FILE_REJECT then Concludes(s, t, Failure(CONNECTION_ERROR))
    else Concludes(s, t, Failure(OutOfTurn(f.kind)))
  }

  lemma AcceptDecision(w: World, s: Sender, f: Frame, io: Io)
    requires Faithful(w) && Inv(w, s) && s.client.state == Offering
    ensures OfferSettled(w, s, f, DispatchFrame(w, s, f, io))
  {
    OfferingFacts(w, s);
    if (f.kind == FILE_ACCEPT || f.kind == FILE_REJECT) && Decode(w, f).Success? {
      DecodedIsValid(w, f);
    }
    hide Inv, FailTransfer, TransferClient.HandleError, SocketDown;
    FailConcludes(s, UNEXPECTED_STATE);
  }

  lemma OfferingFacts(w: World, s: Sender)
    requires Inv(w, s) && s.client.state == Offering
    ensures s.active && (!s.client.fileOpen ==> s.client.transferId == [])
  {
    hide Core, ChunksOnly;
  }

  lemma FailConcludes(s: Sender, error: Error)
    requires s.active && !Ended(s.client.state)
    ensures Concludes(s, FailTransfer(s, error), Failure(error))
    ensures Concludes(s, SocketDown(FailTransfer(s, error)), Failure(error))
    ensures Concludes(s, SocketDown(TransferClient.HandleError(s)), Failure(CONNECTION_ERROR))
  {}

  /** How a frame ends a send whose result is awaited. */
  function Verdict(w: World, s: Sender, f: Frame): (r: Result<()>)
    ensures r.Success? <==> ResolvesFinish(w, s, f) && Decode(w, f).value.ok
  {
    if f.kind != FILE_RESULT then Failure(OutOfTurn(f.kind))
    else if Decode(w, f).Failure? then Failure(Decode(w, f).error)
    else if !ResolvesFinish(w, s, f) then Failure(UNEXPECTED_RESULT)
    else if Decode(w, f).value.ok then Success(())
    else Failure(Decode(w, f).value.error)
  }

  lemma ResultConcludes(w: World, s: Sender, f: Frame)
    requires s.active && s.client.state == Finishing && f.kind == FILE_RESULT
    ensures Concludes(s, HandleFileResult(w, s, f), Verdict(w, s, f))
  {
    hide FailTransfer, SocketDown;
    FailConcludes(s, UNEXPECTED_RESULT);
    if Decode(w, f).Failure? {
      FailConcludes(s, Decode(w, f).error);
    }
  }

  /**
   While the result is awaited, any frame ends the send: with success exactly the one that says so for
   this very finish, with the error given there the one that denies it, and with an error of its own any other.
   */
  lemma ResultDecision(w: World, s: Sender, f: Frame, io: Io)
    requires Inv(w, s) && s.client.state == Finishing
    ensures Concludes(s, DispatchFrame(w, s, f, io), Verdict(w, s, f))
  {
    FinishingIsActive(w, s);
    hide Inv, FailTransfer, TransferClient.HandleError, SocketDown, HandleFileResult, Concludes;
    if f.kind == FILE_RESULT {
      ResultConcludes(w, s, f);
    }
    FailConcludes(s, UNEXPECTED_STATE);
  }

  /** Where no frame is awaited, any frame ends the send. */
  lemma SurpriseDecision(w: World, s: Sender, f: Frame, io: Io)
    requires Inv(w, s) && s.active && (s.client.state == Connecting || s.client.state == Sending)
    ensures Concludes(s, DispatchFrame(w, s, f, io), Failure(OutOfTurn(f.kind)))
  {
    hide Inv, FailTransfer, TransferClient.HandleError, SocketDown, Concludes;
    FailConcludes(s, UNEXPECTED_STATE);
  }

  lemma FinishingIsActive(w: World, s: Sender)
    requires Inv(w, s) && (s.client.state == Finishing || s.client.state == HelloSent || s.client.state == Sending)
    ensures s.active
  {
    hide Core, ChunksOnly;
  }

  /**
   The handshake is answered by exactly the acknowledgement of this hello; then hashing starts if the file
   is there. Any other frame ends the send.
   */
  predicate HandshakeSettled(w: World, s: Sender, f: Frame, io: Io, t: Sender) {
    if Acknowledges(w, s, f) then
      if io.fileExists then
        && t.active && t.completions == s.completions
        && t.client.state == Offering && t.client.handshakeComplete && t.client.hashing.Some?
      else Concludes(s, t, Failure(NO_FILE))
    else if f.kind == HELLO_ACK && f.requestId == s.client.helloId then Concludes(s, t, Failure(CONNECTION_ERROR))
    else Concludes(s, t, Failure(OutOfTurn(f.kind)))
  }

  lemma HandshakeDecision(w: World, s: Sender, f: Frame, io: Io)
    requires Inv(w, s) && s.client.state == HelloSent
    ensures HandshakeSettled(w, s, f, io, DispatchFrame(w, s, f, io))
  {
    FinishingIsActive(w, s);
    HelloSentFacts(w, s);
    hide Inv, FailTransfer, TransferClient.HandleError, SocketDown;
    FailConcludes(s, UNEXPECTED_STATE);
  }

  lemma HelloSentFacts(w: World, s: Sender)
    requires Inv(w, s) && s.client.state == HelloSent
    ensures s.client.hashing.None?
  {
    hide Core;
  }

  /** A frame handed to a socket that takes anything at all is sent. */
  lemma SocketTakes(c: Client, f: Frame, io: Io)
    requires c.connected && c.remainder == [] && Encodable(f) && io.accepts >= 0
    ensures SendFrame(c, f, io).Success?
    ensures SendFrame(c, f, io).value.sent == c.sent + [f] && SendFrame(c, f, io).value.state == c.state
  {
    hide Layout, Encodable;
  }

  lemma ChunkGoesOut(s: Sender, payload: Bytes, size: nat, io: Io)
    requires s.client.connected && s.client.remainder == [] && io.accepts >= 0
    requires Encodable(Frame(FILE_CHUNK, 0, s.client.nextRequestId, payload))
    ensures var t := SendChunk(s, payload, size, io);
      && t.client.sent == s.client.sent + [Frame(FILE_CHUNK, 0, s.client.nextRequestId, payload)]
      && t.client.state == s.client.state
  {
    hide SendFrame, Encodable, NextId;
    SocketTakes(NextRequest(s.client), Frame(FILE_CHUNK, 0, s.client.nextRequestId, payload), io);
  }

  lemma FinishGoesOut(w: World, s: Sender, io: Io)
    requires SmallControl(w) && s.client.state == Sending && s.client.connected && s.client.remainder == []
    requires io.accepts >= 0 && w.encode(Finish(s.client.transferId)).Success?
    ensures var t := SendFileFinish(w, s, io);
      && t.client.state == Finishing && |t.client.sent| == |s.client.sent| + 1 && s.client.sent <= t.client.sent
      && IsMessage(w, t.client.sent[|s.client.sent|], Finish(s.client.transferId))
  {
    hide SendFrame, Encodable, NextId, IsMessage, SmallControl;
    var m := Finish(s.client.transferId);
    var id := s.client.nextRequestId;
    MessageFits(w, m, id);
    SocketTakes(s.client.(fileOpen := false, state := Finishing, finishId := id, nextRequestId := NextId(id)),
                FrameOf(m, id, w.encode(m).value), io);
  }

  /** What one firing adds to the script: the n-th chunk, or the finish once there are no more. */
  predicate SendsNext(w: World, s: Sender, t: Sender, n: nat) {
    && |s.client.sent| == n + 2 && |t.client.sent| == n + 3 && s.client.sent <= t.client.sent
    && (if n * CHUNK_SIZE < |s.job.source|
        then t.client.state == Sending && IsChunk(s.job, s.client.transferId, t.client.sent[n + 2], n)
        else t.client.state == Finishing && IsMessage(w, t.client.sent[n + 2], Finish(s.client.transferId)))
  }

  /**
   Below the mark, with a readable file and a socket that takes anything at all, a firing sends the
   next chunk of the source or, after the last one, the finish.
   */
  lemma PumpSendsNext(w: World, s: Sender, io: Io)
    requires SmallControl(w) && Inv(w, s) && s.client.pumpScheduled && Pending(s.client) < HIGH_WATER_MARK
    requires io.accepts >= 0
    requires if (|s.client.sent| - 2) * CHUNK_SIZE < |s.job.source| then !io.readFails
             else w.encode(Finish(s.client.transferId)).Success?
    ensures |s.client.sent| >= 2 && SendsNext(w, s, SendNextChunk(w, s, io), |s.client.sent| - 2)
  {
    hide Inv, SendFrame, Encodable, IsChunk, IsMessage, NextId, EncodeChunk, IsLowerHex, ReadAt, FailTransfer, SmallControl,
      SendChunk, SendFileFinish;
    PumpFacts(w, s);
    var c := s.client;
    var n := |c.sent| - 2;
    if n * CHUNK_SIZE < |s.job.source| {
      NextChunk(s.job, c.transferId, n, c.nextRequestId);
      var data := ReadAt(s.job.source, n * CHUNK_SIZE);
      var payload := EncodeChunk(FileChunk(c.transferId, n * CHUNK_SIZE, data)).value;
      var read := s.(client := c.(pumpScheduled := false, position := c.position + |data|));
      ChunkGoesOut(read, payload, |data|, io);
      assert (n * CHUNK_SIZE) % WORD == n * CHUNK_SIZE;
    } else {
      FinishGoesOut(w, s.(client := c.(pumpScheduled := false)), io);
    }
  }

  lemma PumpFacts(w: World, s: Sender)
    requires Inv(w, s) && s.client.pumpScheduled
    ensures var c := s.client;
      && c.state == Sending && c.fileOpen && c.connected && c.remainder == [] && |c.sent| >= 2
      && |s.job.source| < WORD && IsLowerHex(c.transferId, TRANSFER_ID_LENGTH) && c.fileSize == |s.job.source|
      && c.position == c.sendOffset
         == (if (|c.sent| - 2) * CHUNK_SIZE < |s.job.source| then (|c.sent| - 2) * CHUNK_SIZE else |s.job.source|)
  {
    hide Script, LayoutAll, ChunksOnly;
  }
}
