/** How what the sending end does by itself moves a send on or ends it, and with which result. */
module SenderEndings {
  import opened Bytes
  import opened ChunkCodec
  import opened FrameCodec
  import opened Messages
  import opened Results
  import opened TransferClient
  import opened SenderInvariant
  import opened SenderDecisions

  /** The first thing that keeps a frame from being sent. */
  function SendError(c: Client, f: Frame, io: Io): Option<Error> {
    if !c.connected then Some(NOT_CONNECTED)
    else if c.remainder != [] then Some(NOT_ACCEPTED)
    else if !Encodable(f) then Some(NOT_ENCODABLE)
    else if io.accepts < 0 then Some(WRITE_ERROR)
    else None
  }

  /** A frame goes out unless something keeps it, and nothing else of the client changes but what is on the wire. */
  lemma SendOrError(c: Client, f: Frame, io: Io)
    ensures match SendError(c, f, io)
            case Some(e) => SendFrame(c, f, io) == Failure(e)
            case None =>
              && SendFrame(c, f, io).Success?
              && var t := SendFrame(c, f, io).value;
                 && t.sent == c.sent + [f] && t.wire + t.remainder == c.wire + Layout(f)
                 && t == c.(wire := t.wire, remainder := t.remainder, sent := t.sent, flushScheduled := t.flushScheduled)
  {
    hide Layout, Encodable;
    if SendError(c, f, io).None? {
      var taken := BytesTaken(io.accepts, |Layout(f)|);
      assert Layout(f)[..taken] + Layout(f)[taken..] == Layout(f);
    }
  }

  /** The send goes on in this state with one frame more on its script. */
  predicate SendsOn(s: Sender, t: Sender, state: TransferState, f: Frame) {
    t.active && t.completions == s.completions && t.client.state == state && t.client.sent == s.client.sent + [f]
  }

  /** Once connected the client greets, unless the greeting cannot be encoded or the socket fails. */
  predicate GreetingTaken(w: World, s: Sender, io: Io, t: Sender) {
    match w.encode(Hello)
    case Failure(_) => Concludes(s, t, Failure(CONNECTION_ERROR))
    case Success(payload) =>
      if io.accepts < 0 then Concludes(s, t, Failure(WRITE_ERROR))
      else
        SendsOn(s, t, HelloSent, Frame(HELLO, 0, s.client.nextRequestId, payload)) && t.client.helloId == s.client.nextRequestId
  }

  lemma GreetingDecision(w: World, s: Sender, io: Io)
    requires SmallControl(w) && Inv(w, s) && s.client.state == Connecting
    ensures GreetingTaken(w, s, io, SendHello(w, s.(client := s.client.(connected := true)), io))
  {
    ConnectingFacts(w, s);
    hide Inv, SendFrame, Encodable, NextId, SmallControl, Layout;
    if w.encode(Hello).Success? {
      var id := s.client.nextRequestId;
      var f := FrameOf(Hello, id, w.encode(Hello).value);
      MessageFits(w, Hello, id);
      SendOrError(s.client.(connected := true, state := HelloSent, helloId := id, nextRequestId := NextId(id)), f, io);
    }
  }

  lemma ConnectingFacts(w: World, s: Sender)
    requires Inv(w, s) && s.client.state == Connecting
    ensures s.active && s.client.remainder == []
  {
    hide Core;
  }

  /** The hash that comes in is the one being waited for. */
  predicate HashWanted(c: Client) {
    c.state == Offering && c.hashing == Some(c.hashGeneration)
  }

  /** The client when the offer is about to go out. */
  function AboutToOffer(s: Sender, io: Io): Client {
    var id := s.client.nextRequestId;
    s.client.(hashing := None, fileOpen := true, sendOffset := 0, position := 0, fileSize := |s.job.source|,
              nextRequestId := NextId(id), offerId := id, transferId := io.transferId, offeredId := io.transferId)
  }

  /**
   A hash that is not waited for is dropped. Otherwise the file is opened and offered by name, size and
   hash under the identifier drawn for it, or the send ends with the first thing in the way.
   */
  predicate HashTaken(w: World, s: Sender, hashed: bool, io: Io, t: Sender) {
    var offer := OfferFor(w, s.job, io.transferId);
    if !HashWanted(s.client) then t == s.(client := s.client.(hashing := None))
    else if !hashed || !io.opens then Concludes(s, t, Failure(FILE_ERROR))
    else
      match w.encode(offer)
      case Failure(_) => Concludes(s, t, Failure(CONNECTION_ERROR))
      case Success(payload) =>
        var f := Frame(FILE_OFFER, 0, s.client.nextRequestId, payload);
        match SendError(s.client, f, io)
        case Some(e) => Concludes(s, t, Failure(e))
        case None =>
          && SendsOn(s, t, Offering, f) && t.client.fileOpen && t.client.position == 0
          && t.client.offerId == f.requestId && t.client.transferId == io.transferId
  }

  lemma HashDecision(w: World, s: Sender, hashed: bool, io: Io)
    requires SmallControl(w) && Inv(w, s) && s.client.hashing.Some?
    ensures HashTaken(w, s, hashed, io, HandleHashResult(w, s, hashed, io))
  {
    if HashWanted(s.client) {
      HashingFacts(w, s);
      hide Inv, SendFrame, Encodable, NextId, SmallControl, Layout;
      var offer := OfferFor(w, s.job, io.transferId);
      if w.encode(offer).Success? {
        SendOrError(AboutToOffer(s, io), FrameOf(offer, s.client.nextRequestId, w.encode(offer).value), io);
      }
    }
  }

  lemma HashingFacts(w: World, s: Sender)
    requires Inv(w, s) && HashWanted(s.client)
    ensures s.active && s.client.handshakeComplete && s.client.nextRequestId != 0
  {
    hide Core, ChunksOnly;
  }

  /**
   The pump at or above the mark leaves everything for later. Below it a firing sends the next chunk or,
   after the last one, the finish, unless the file cannot be read, the finish encoded or the socket written.
   */
  predicate PumpTaken(w: World, s: Sender, io: Io, t: Sender) {
    var n := |s.client.sent| - 2;
    && n >= 0
    && var finish := w.encode(Finish(s.client.transferId));
       if Pending(s.client) >= HIGH_WATER_MARK then t == s.(client := s.client.(pumpScheduled := false))
       else if n * CHUNK_SIZE < |s.job.source| && io.readFails then Concludes(s, t, Failure(FILE_ERROR))
       else if n * CHUNK_SIZE >= |s.job.source| && finish.Failure? then Concludes(s, t, Failure(finish.error))
       else if io.accepts < 0 then Concludes(s, t, Failure(WRITE_ERROR))
       else SendsNext(w, s, t, n) && t.active && t.completions == s.completions
  }

  lemma PumpDecision(w: World, s: Sender, io: Io)
    requires SmallControl(w) && Inv(w, s) && s.client.pumpScheduled
    ensures PumpTaken(w, s, io, SendNextChunk(w, s, io))
  {
    PumpFacts(w, s);
    FinishingIsActive(w, s);
    hide Inv, Encodable, NextId, SmallControl, IsLowerHex, SendNextChunk, SendsNext, SendFileFinish, SendChunk;
    var n := |s.client.sent| - 2;
    if Pending(s.client) < HIGH_WATER_MARK {
      if io.accepts >= 0 && (if n * CHUNK_SIZE < |s.job.source| then !io.readFails
                             else w.encode(Finish(s.client.transferId)).Success?) {
        PumpSendsNext(w, s, io);
        PumpGoesOn(w, s, io);
      } else {
        PumpFails(w, s, io);
      }
    } else {
      PumpRests(w, s, io);
    }
  }

  lemma PumpRests(w: World, s: Sender, io: Io)
    requires s.client.state == Sending && s.client.fileOpen && s.client.connected && Pending(s.client) >= HIGH_WATER_MARK
    ensures SendNextChunk(w, s, io) == s.(client := s.client.(pumpScheduled := false))
  {
    hide SendFileFinish, SendChunk, EncodeChunk;
  }

  lemma PumpGoesOn(w: World, s: Sender, io: Io)
    requires SmallControl(w) && Inv(w, s) && s.client.pumpScheduled && Pending(s.client) < HIGH_WATER_MARK
    requires io.accepts >= 0
    requires if (|s.client.sent| - 2) * CHUNK_SIZE < |s.job.source| then !io.readFails
             else w.encode(Finish(s.client.transferId)).Success?
    ensures SendNextChunk(w, s, io).active && SendNextChunk(w, s, io).completions == s.completions
  {
    PumpSendsNext(w, s, io);
    PumpKeeps(w, s, io);
    OnlyEndingsComplete(w, s, io);
    LiveIsActive(w, SendNextChunk(w, s, io));
    hide Inv, SendNextChunk, SmallControl, IsChunk, IsMessage;
  }

  lemma LiveIsActive(w: World, s: Sender)
    requires Inv(w, s) && Live(s.client.state)
    ensures s.active
  {
    hide Core;
  }

  lemma OnlyEndingsComplete(w: World, s: Sender, io: Io)
    ensures SendNextChunk(w, s, io).active ==> SendNextChunk(w, s, io).completions == s.completions
  {
    hide SendFrame, EncodeChunk, ReadAt, NextId;
  }

  lemma PumpFails(w: World, s: Sender, io: Io)
    requires SmallControl(w) && Inv(w, s) && s.client.pumpScheduled && Pending(s.client) < HIGH_WATER_MARK
    requires |s.client.sent| >= 2
    requires io.accepts < 0 || if (|s.client.sent| - 2) * CHUNK_SIZE < |s.job.source| then io.readFails
                               else w.encode(Finish(s.client.transferId)).Failure?
    ensures Concludes(s, SendNextChunk(w, s, io), Failure(
      if (|s.client.sent| - 2) * CHUNK_SIZE < |s.job.source| then if io.readFails then FILE_ERROR else WRITE_ERROR
      else if w.encode(Finish(s.client.transferId)).Failure? then w.encode(Finish(s.client.transferId)).error
      else WRITE_ERROR))
  {
    PumpFacts(w, s);
    FinishingIsActive(w, s);
    hide Inv, SmallControl, IsLowerHex, SendNextChunk, Concludes;
    if (|s.client.sent| - 2) * CHUNK_SIZE >= |s.job.source| {
      LastFiringFails(w, s, io);
    } else if io.readFails {
      ReadFails(w, s, io);
    } else {
      ChunkFiringFails(w, s, |s.client.sent| - 2, io);
    }
  }

  /** The pump may send. */
  predicate Ready(s: Sender) {
    && s.active && s.client.state == Sending && s.client.fileOpen && s.client.connected && s.client.remainder == []
    && Pending(s.client) < HIGH_WATER_MARK
  }

  lemma LastFiringFails(w: World, s: Sender, io: Io)
    requires SmallControl(w) && Ready(s) && s.client.sendOffset >= s.client.fileSize
    requires io.accepts < 0 || w.encode(Finish(s.client.transferId)).Failure?
    ensures var payload := w.encode(Finish(s.client.transferId));
      Concludes(s, SendNextChunk(w, s, io), Failure(if payload.Failure? then payload.error else WRITE_ERROR))
  {
    hide SendFileFinish, SendChunk, EncodeChunk, SmallControl;
    FinishFails(w, s.(client := s.client.(pumpScheduled := false)), io);
  }

  lemma ReadFails(w: World, s: Sender, io: Io)
    requires Ready(s) && s.client.sendOffset < s.client.fileSize && s.client.position < |s.job.source| && io.readFails
    ensures Concludes(s, SendNextChunk(w, s, io), Failure(FILE_ERROR))
  {
    hide SendFileFinish, SendChunk, EncodeChunk, FailTransfer;
    FailConcludes(s.(client := s.client.(pumpScheduled := false)), FILE_ERROR);
  }

  lemma ChunkFiringFails(w: World, s: Sender, n: nat, io: Io)
    requires Ready(s) && n * CHUNK_SIZE < |s.job.source| < WORD && IsLowerHex(s.client.transferId, TRANSFER_ID_LENGTH)
    requires s.client.position == s.client.sendOffset == n * CHUNK_SIZE && s.client.fileSize == |s.job.source|
    requires !io.readFails && io.accepts < 0
    ensures Concludes(s, SendNextChunk(w, s, io), Failure(WRITE_ERROR))
  {
    hide SendFileFinish, SendChunk, EncodeChunk, ReadAt, IsLowerHex, Encodable, IsChunk;
    var c := s.client;
    NextChunk(s.job, c.transferId, n, c.nextRequestId);
    var data := ReadAt(s.job.source, c.position);
    var payload := EncodeChunk(FileChunk(c.transferId, c.sendOffset % WORD, data));
    assert c.sendOffset % WORD == c.sendOffset;
    ChunkFails(s.(client := c.(pumpScheduled := false, position := c.position + |data|)), payload.value, |data|, io);
  }

  lemma ChunkFails(s: Sender, payload: Bytes, size: nat, io: Io)
    requires s.active && s.client.state == Sending && s.client.connected && s.client.remainder == [] && io.accepts < 0
    requires Encodable(Frame(FILE_CHUNK, 0, s.client.nextRequestId, payload))
    ensures Concludes(s, SendChunk(s, payload, size, io), Failure(WRITE_ERROR))
  {
    hide SendFrame, Encodable, NextId;
    SendOrError(NextRequest(s.client), Frame(FILE_CHUNK, 0, s.client.nextRequestId, payload), io);
  }

  lemma FinishFails(w: World, s: Sender, io: Io)
    requires SmallControl(w) && s.active && s.client.state == Sending && s.client.connected && s.client.remainder == []
    requires io.accepts < 0 || w.encode(Finish(s.client.transferId)).Failure?
    ensures var payload := w.encode(Finish(s.client.transferId));
      Concludes(s, SendFileFinish(w, s, io), Failure(if payload.Failure? then payload.error else WRITE_ERROR))
  {
    hide SendFrame, Encodable, NextId, SmallControl;
    var m := Finish(s.client.transferId);
    var id := s.client.nextRequestId;
    if w.encode(m).Success? {
      MessageFits(w, m, id);
      SendOrError(s.client.(fileOpen := false, state := Finishing, finishId := id, nextRequestId := NextId(id)),
                  FrameOf(m, id, w.encode(m).value), io);
    }
  }

  /** A flush ends an active send exactly if something is left over and the socket fails; otherwise no byte is lost. */
  predicate FlushTaken(s: Sender, io: Io, t: Sender) {
    if s.client.remainder != [] && io.accepts < 0 then Concludes(s, t, Failure(WRITE_ERROR))
    else
      && t.active && t.completions == s.completions && t.client.state == s.client.state && t.client.sent == s.client.sent
      && t.client.wire + t.client.remainder == s.client.wire + s.client.remainder
      && (t.client.remainder != [] ==> t.client.flushScheduled)
  }

  lemma FlushDecision(w: World, s: Sender, io: Io)
    requires Inv(w, s) && s.active && s.client.flushScheduled
    ensures FlushTaken(s, io, FlushWriteRemainder(s, io))
  {
    assert s.client.remainder != [] ==> Live(s.client.state) && s.client.connected by { hide Core, ChunksOnly, LayoutAll; }
    hide Inv, FlushTaken, FlushWriteRemainder;
    if s.client.remainder == [] {
      NothingLeftOver(s, io);
    } else if io.accepts < 0 {
      LeftOverFails(s, io);
    } else {
      LeftOverMoves(s, io);
    }
  }

  lemma NothingLeftOver(s: Sender, io: Io)
    requires s.active && s.client.remainder == []
    ensures FlushTaken(s, io, FlushWriteRemainder(s, io))
  {
    SchedulesOnly(s.client.(flushScheduled := false));
    hide ScheduleSendPump, ScheduleRemainderFlush;
  }

  lemma LeftOverFails(s: Sender, io: Io)
    requires s.active && s.client.remainder != [] && s.client.connected && Live(s.client.state) && io.accepts < 0
    ensures FlushTaken(s, io, FlushWriteRemainder(s, io))
  {
    hide ScheduleSendPump, ScheduleRemainderFlush, FailTransfer;
    FailConcludes(s.(client := s.client.(flushScheduled := false)), WRITE_ERROR);
  }

  lemma LeftOverMoves(s: Sender, io: Io)
    requires s.active && s.client.remainder != [] && s.client.connected && Live(s.client.state) && io.accepts >= 0
    ensures FlushTaken(s, io, FlushWriteRemainder(s, io))
  {
    var accepted := BytesTaken(io.accepts, |s.client.remainder|);
    FlushMoves(s, io, accepted);
    FlushedLosesNothing(s.client, accepted);
    var flushed := Flushed(s.client, accepted);
    hide FlushWriteRemainder, BytesTaken, Flushed;
    SchedulesOnly(flushed);
    hide ScheduleSendPump, ScheduleRemainderFlush;
  }

  lemma FlushMoves(s: Sender, io: Io, accepted: nat)
    requires s.client.remainder != [] && s.client.connected && Live(s.client.state)
    requires accepted == BytesTaken(io.accepts, |s.client.remainder|)
    ensures var flushed := Flushed(s.client, accepted);
      FlushWriteRemainder(s, io)
      == s.(client := if flushed.remainder != [] then ScheduleRemainderFlush(flushed) else ScheduleSendPump(flushed))
  {
    hide ScheduleSendPump, ScheduleRemainderFlush, FailTransfer, BytesTaken;
  }

  lemma FlushedLosesNothing(c: Client, accepted: nat)
    requires accepted <= |c.remainder|
    ensures var t := Flushed(c, accepted);
      && t.wire + t.remainder == c.wire + c.remainder
      && t.state == c.state && t.connected == c.connected && t.sent == c.sent
  {
    assert c.remainder[..accepted] + c.remainder[accepted..] == c.remainder;
  }

  lemma SchedulesOnly(c: Client)
    ensures ScheduleSendPump(c) == c.(pumpScheduled := ScheduleSendPump(c).pumpScheduled)
    ensures ScheduleRemainderFlush(c) == c.(flushScheduled := ScheduleRemainderFlush(c).flushScheduled)
    ensures c.remainder != [] && c.connected && Live(c.state) ==> ScheduleRemainderFlush(c).flushScheduled
  {}

  /** The result a send is ended with from outside. */
  function EndedBy(e: Event): (r: Option<Result<()>>)
  {
    match e
    case Stop => Some(Failure(STOPPED))
    case Disconnected => Some(Failure(CLOSED_EARLY))
    case SocketError => Some(Failure(CONNECTION_ERROR))
    case _ => None
  }

  /** Stopping it, losing the connection and a socket error end an active send, each with its own error, and no other. */
  lemma EndingDecision(w: World, s: Sender, e: Event)
    requires Inv(w, s) && EndedBy(e).Some?
    ensures var t := Apply(w, s, e);
      if s.active then Concludes(s, t, EndedBy(e).value) else !t.active && t.completions == s.completions
  {
    hide Core, ChunksOnly;
  }

  /** A stream that cannot be decoded ends the send. */
  lemma BadStreamEnds(w: World, s: Sender, bytes: Bytes, ios: seq<Io>)
    requires Inv(w, s) && s.active && PushResult(s.client.buffer, bytes).0.Failure?
    ensures Concludes(s, HandleReadyRead(w, s, bytes, ios), Failure(CONNECTION_ERROR))
  {
    hide Core, ChunksOnly, PushResult, DispatchAll;
  }
}
