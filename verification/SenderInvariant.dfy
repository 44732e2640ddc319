/**
 What every run of the sending end keeps, whatever the other side sends: the byte stream is the frames
 sent, the pump never stalls and never overruns, and every accepted send is completed exactly once.
 */
module SenderInvariant {
  import opened Bytes
  import opened ChunkCodec
  import opened FrameCodec
  import opened Messages
  import opened Results
  import opened TransferClient

  /** The longest frame a transfer sends: a full chunk with its prefix and header. */
  const MAX_FRAME: nat := HEADER_SIZE + PREFIX_SIZE + CHUNK_SIZE

  /** The control messages a client sends are no longer than a chunk. */
  ghost predicate SmallControl(w: World) {
    forall m: Message :: (m.Hello? || m.Offer? || m.Finish?) && w.encode(m).Success? ==>
      |w.encode(m).value| <= PREFIX_SIZE + CHUNK_SIZE
  }

  predicate Live(state: TransferState) {
    state == HelloSent || state == Offering || state == Sending || state == Finishing
  }

  /* ---------------------------------------------------------------- the frames an honest client sends */

  predicate IsMessage(w: World, f: Frame, m: Message) {
    w.encode(m).Success? && f == FrameOf(m, f.requestId, w.encode(m).value)
  }

  /** The frame carries the n-th chunk of the source. */
  predicate IsChunk(job: Job, id: Bytes, f: Frame, n: nat) {
    && n * CHUNK_SIZE < |job.source| < WORD
    && f.kind == FILE_CHUNK
    && DecodeChunk(f.payload) == Success(FileChunk(id, n * CHUNK_SIZE, ReadAt(job.source, n * CHUNK_SIZE)))
  }

  /** What follows hello and offer. */
  function Body(sent: seq<Frame>): seq<Frame> {
    if |sent| >= 2 then sent[2..] else []
  }

  predicate AllChunks(job: Job, id: Bytes, frames: seq<Frame>) {
    forall i :: 0 <= i < |frames| ==> IsChunk(job, id, frames[i], i)
  }

  predicate ChunksOnly(job: Job, id: Bytes, sent: seq<Frame>) {
    AllChunks(job, id, Body(sent))
  }

  /** The last frame finishes a transfer all of whose chunks were sent before it. */
  predicate EndsWithFinish(w: World, job: Job, id: Bytes, sent: seq<Frame>) {
    && |sent| >= 3 && (|sent| - 3) * CHUNK_SIZE >= |job.source|
    && IsMessage(w, sent[|sent| - 1], Finish(id))
    && AllChunks(job, id, Body(sent[..|sent| - 1]))
  }

  /** Hello, offer, the chunks in order and the finish, as far as they go. */
  predicate Script(w: World, job: Job, id: Bytes, sent: seq<Frame>) {
    && (|sent| >= 1 ==> IsMessage(w, sent[0], Hello))
    && (|sent| >= 2 ==> IsMessage(w, sent[1], OfferFor(w, job, id)))
    && (ChunksOnly(job, id, sent) || EndsWithFinish(w, job, id, sent))
  }

  /* ---------------------------------------------------------------- the invariant */

  /** What holds of the socket and its history whether or not a send is active. */
  ghost predicate Core(w: World, job: Job, c: Client) {
    && |job.source| < WORD
    && (forall f :: f in c.sent ==> Encodable(f))
    && c.wire <= LayoutAll(c.sent) && c.drained <= |c.wire|
    && Script(w, job, c.offeredId, c.sent)
  }

  /** The state of the client against what it has sent. */
  predicate Phase(job: Job, c: Client) {
    match c.state
    case Connecting =>
      && !c.connected && !c.handshakeComplete && c.hashing.None? && c.nextRequestId == 1
      && c.sent == [] && c.wire == [] && c.remainder == [] && c.transferId == [] && !c.fileOpen
    case HelloSent =>
      && !c.handshakeComplete && c.hashing.None? && c.nextRequestId == 2
      && |c.sent| == 1 && c.transferId == [] && !c.fileOpen
    case Offering =>
      && c.handshakeComplete
      && if c.fileOpen then
           |c.sent| == 2 && c.transferId == c.offeredId && IsLowerHex(c.transferId, TRANSFER_ID_LENGTH)
           && c.hashing.None? && c.sendOffset == 0 && c.position == 0 && c.fileSize == |job.source|
         else |c.sent| == 1 && c.transferId == [] && c.hashing == Some(c.hashGeneration) && c.nextRequestId == 2
    case Sending =>
      && c.fileOpen && |c.sent| >= 2 && ChunksOnly(job, c.offeredId, c.sent)
      && c.transferId == c.offeredId && IsLowerHex(c.transferId, TRANSFER_ID_LENGTH)
      && c.fileSize == |job.source| && c.position == c.sendOffset
      && c.sendOffset == (if (|c.sent| - 2) * CHUNK_SIZE < |job.source| then (|c.sent| - 2) * CHUNK_SIZE else |job.source|)
    case Finishing =>
      |c.sent| >= 3 && c.transferId == c.offeredId && (|c.sent| - 3) * CHUNK_SIZE >= |job.source|
    case _ => true
  }

  /** Accepted and not yet accepted bytes make up the frames sent, and are bounded. */
  ghost predicate Stream(c: Client) {
    && c.connected && c.wire + c.remainder == LayoutAll(c.sent)
    && (if c.state == HelloSent || c.state == Offering then Pending(c) <= |c.sent| * MAX_FRAME
        else Pending(c) < HIGH_WATER_MARK + MAX_FRAME)
  }

  /** A left-over is waiting for its flush. In the sending state the pump waits, or will be woken by a flush or a drain. */
  predicate Moving(c: Client) {
    && (c.remainder != [] ==> c.flushScheduled)
    && (c.pumpScheduled ==> c.state == Sending && c.remainder == [])
    && (c.state == Sending ==> c.pumpScheduled || c.remainder != [] || Pending(c) >= HIGH_WATER_MARK)
  }

  ghost predicate Going(job: Job, c: Client) {
    && (c.state == Connecting || Live(c.state))
    && Phase(job, c)
    && (Live(c.state) ==> Stream(c))
    && Moving(c)
  }

  /** Accepted sends are those completed and the active one. */
  predicate Counted(s: Sender) {
    s.accepted == |s.completions| + if s.active then 1 else 0
  }

  ghost predicate Inv(w: World, s: Sender) {
    && Counted(s)
    && Core(w, s.job, s.client)
    && (if s.active then Going(s.job, s.client)
        else (s.client.state == Idle || s.client.state == Failed) && !s.client.pumpScheduled)
  }

  /** An active send in a state from which it may be ended. */
  ghost predicate Endable(w: World, s: Sender) {
    && Counted(s) && Core(w, s.job, s.client)
    && (if s.active then !Ended(s.client.state)
        else (s.client.state == Idle || s.client.state == Failed) && !s.client.pumpScheduled)
  }

  lemma InvIsEndable(w: World, s: Sender)
    requires Inv(w, s)
    ensures Endable(w, s)
  {
    hide Core;
  }

  /* ---------------------------------------------------------------- endings */

  lemma FinishEnds(w: World, s: Sender, r: Result<()>)
    requires Counted(s) && Core(w, s.job, s.client)
    requires !s.active ==> (s.client.state == Idle || s.client.state == Failed) && !s.client.pumpScheduled
    ensures Inv(w, FinishOutgoing(s, r)) && !FinishOutgoing(s, r).active
  {
    hide Script, LayoutAll;
  }

  lemma FailEnds(w: World, s: Sender, error: Error)
    requires Endable(w, s)
    ensures Inv(w, FailTransfer(s, error)) && !FailTransfer(s, error).active
  {
    hide Script, LayoutAll;
    if !Ended(s.client.state) {
      var failed := s.(client := s.client.(fileOpen := false, pumpScheduled := false, remainder := [],
                                           flushScheduled := false, state := Failed));
      assert Core(w, failed.job, failed.client);
      FinishEnds(w, failed, Failure(error));
    }
  }

  lemma ErrorEnds(w: World, s: Sender)
    requires Endable(w, s)
    ensures Inv(w, HandleError(s)) && !HandleError(s).active
  {
    hide Core;
    FailEnds(w, s, CONNECTION_ERROR);
    FinishEnds(w, s, Failure(CONNECTION_ERROR));
  }

  lemma DownKeeps(w: World, s: Sender)
    requires Inv(w, s) && !s.active
    ensures Inv(w, SocketDown(s)) && !SocketDown(s).active
  {
    hide Script, LayoutAll;
  }

  lemma FailDown(w: World, s: Sender, error: Error)
    requires Endable(w, s)
    ensures Inv(w, SocketDown(FailTransfer(s, error)))
  {
    hide Inv, Endable, FailTransfer, SocketDown;
    FailEnds(w, s, error);
    DownKeeps(w, FailTransfer(s, error));
  }

  lemma ErrorDown(w: World, s: Sender)
    requires Endable(w, s)
    ensures Inv(w, SocketDown(HandleError(s)))
  {
    hide Inv, Endable, HandleError, SocketDown;
    ErrorEnds(w, s);
    DownKeeps(w, HandleError(s));
  }

  lemma DisconnectedEnds(w: World, s: Sender)
    requires Inv(w, s)
    ensures Inv(w, HandleDisconnected(s)) && !HandleDisconnected(s).active
  {
    hide Script, LayoutAll;
    var c := s.client;
    var failed := c.state == Offering || c.state == Sending || c.state == Finishing;
    var t := s.(client := c.(handshakeComplete := false, hashGeneration := c.hashGeneration + 1,
                      state := if failed then Failed else c.state, offerId := 0, finishId := 0, transferId := [],
                      pumpScheduled := false, remainder := [], flushScheduled := false, fileOpen := false,
                      buffer := [], connected := false));
    assert Core(w, t.job, t.client);
    hide Core;
    FinishEnds(w, t, Failure(CLOSED_EARLY));
  }

  /* ---------------------------------------------------------------- sending a frame */

  /** What sending a frame amounts to when it succeeds. */
  function WithFrame(c: Client, f: Frame, accepted: nat): Client
    requires accepted <= |Layout(f)|
  {
    c.(wire := c.wire + Layout(f)[..accepted], remainder := Layout(f)[accepted..], sent := c.sent + [f],
       flushScheduled := c.flushScheduled || accepted < |Layout(f)|)
  }

  lemma SendIsWithFrame(c: Client, f: Frame, io: Io)
    requires Live(c.state) && SendFrame(c, f, io).Success?
    ensures c.connected && c.remainder == [] && Encodable(f) && 0 <= BytesTaken(io.accepts, |Layout(f)|)
    ensures SendFrame(c, f, io).value == WithFrame(c, f, BytesTaken(io.accepts, |Layout(f)|))
  {
    hide Layout, Encodable;
    assert Layout(f)[|Layout(f)|..] == [];
  }

  lemma StreamGrows(c: Client, f: Frame, accepted: nat)
    requires accepted <= |Layout(f)| && c.remainder == []
    requires c.wire + c.remainder == LayoutAll(c.sent) && c.drained <= |c.wire|
    ensures var t := WithFrame(c, f, accepted);
      && t.wire + t.remainder == LayoutAll(t.sent) && t.wire <= LayoutAll(t.sent) && t.drained <= |t.wire|
      && Pending(t) == Pending(c) + HEADER_SIZE + |f.payload|
  {
    var bytes := Layout(f);
    LayoutAllAppend(c.sent, f);
    hide LayoutAll, Layout;
    assert c.wire + [] == c.wire;
    assert bytes[..accepted] + bytes[accepted..] == bytes;
    assert (c.wire + bytes[..accepted]) + bytes[accepted..] == c.wire + bytes;
  }

  lemma BodyGrows(sent: seq<Frame>, f: Frame)
    ensures Body(sent + [f]) == if |sent| >= 2 then Body(sent) + [f] else []
  {}

  lemma ScriptGrows(w: World, job: Job, id: Bytes, sent: seq<Frame>, f: Frame)
    requires Script(w, job, id, sent) && ChunksOnly(job, id, sent)
    requires |sent| == 0 ==> IsMessage(w, f, Hello)
    requires |sent| == 1 ==> IsMessage(w, f, OfferFor(w, job, id))
    requires |sent| >= 2 ==>
      IsChunk(job, id, f, |sent| - 2)
      || ((|sent| - 2) * CHUNK_SIZE >= |job.source| && IsMessage(w, f, Finish(id)))
    ensures Script(w, job, id, sent + [f])
    ensures |sent| < 2 || IsChunk(job, id, f, |sent| - 2) ==> ChunksOnly(job, id, sent + [f])
  {
    hide IsMessage, IsChunk, Body;
    BodyGrows(sent, f);
    assert (sent + [f])[..|sent|] == sent;
    assert |sent| >= 2 ==> |Body(sent)| == |sent| - 2 by { BodyLength(sent); }
  }

  lemma BodyLength(sent: seq<Frame>)
    ensures |sent| >= 2 ==> |Body(sent)| == |sent| - 2
  {}

  /** The script up to the offer does not depend on the transfer identifier. */
  lemma ScriptBeforeOffer(w: World, job: Job, a: Bytes, b: Bytes, sent: seq<Frame>)
    requires |sent| <= 1 && Script(w, job, a, sent)
    ensures Script(w, job, b, sent) && ChunksOnly(job, b, sent)
  {
    hide IsMessage, IsChunk;
  }

  /** A frame of the script goes out. */
  lemma FrameSent(w: World, job: Job, c: Client, f: Frame, accepted: nat)
    requires Core(w, job, c) && c.remainder == [] && c.wire + c.remainder == LayoutAll(c.sent)
    requires Encodable(f) && accepted <= |Layout(f)| && |f.payload| <= PREFIX_SIZE + CHUNK_SIZE
    requires ChunksOnly(job, c.offeredId, c.sent)
    requires |c.sent| == 0 ==> IsMessage(w, f, Hello)
    requires |c.sent| == 1 ==> IsMessage(w, f, OfferFor(w, job, c.offeredId))
    requires |c.sent| >= 2 ==>
      IsChunk(job, c.offeredId, f, |c.sent| - 2)
      || ((|c.sent| - 2) * CHUNK_SIZE >= |job.source| && IsMessage(w, f, Finish(c.offeredId)))
    ensures var t := WithFrame(c, f, accepted);
      && Core(w, job, t)
      && t.wire + t.remainder == LayoutAll(t.sent) && Pending(t) <= Pending(c) + MAX_FRAME
      && (t.remainder != [] ==> t.flushScheduled)
      && (|c.sent| < 2 || IsChunk(job, c.offeredId, f, |c.sent| - 2) ==> ChunksOnly(job, c.offeredId, t.sent))
  {
    StreamGrows(c, f, accepted);
    ScriptGrows(w, job, c.offeredId, c.sent, f);
    hide Script, LayoutAll, Layout, Encodable, IsMessage, IsChunk, ChunksOnly;
  }

  lemma MessageFits(w: World, m: Message, id: uint64)
    requires SmallControl(w) && (m.Hello? || m.Offer? || m.Finish?) && w.encode(m).Success?
    ensures var f := FrameOf(m, id, w.encode(m).value);
      Encodable(f) && IsMessage(w, f, m) && |f.payload| <= PREFIX_SIZE + CHUNK_SIZE
  {}

  /* ---------------------------------------------------------------- the steps */

  lemma HelloKeeps(w: World, s: Sender, io: Io)
    requires SmallControl(w) && Inv(w, s) && s.client.state == Connecting
    ensures Inv(w, SendHello(w, s.(client := s.client.(connected := true)), io))
  {
    var up := s.(client := s.client.(connected := true));
    assert Endable(w, up) by { hide Script, LayoutAll; }
    if w.encode(Hello).Failure? {
      ErrorEnds(w, up);
    } else {
      var id := s.client.nextRequestId;
      var c := up.client.(state := HelloSent, helloId := id, nextRequestId := NextId(id));
      var f := FrameOf(Hello, id, w.encode(Hello).value);
      MessageFits(w, Hello, id);
      assert Core(w, s.job, c) by { hide Script, LayoutAll; }
      hide Layout, Encodable;
      if SendFrame(c, f, io).Failure? {
        assert Endable(w, up.(client := c)) by { hide Core; }
        FailDown(w, up.(client := c), SendFrame(c, f, io).error);
      } else {
        SendIsWithFrame(c, f, io);
        assert LayoutAll(c.sent) == [];
        FrameSent(w, s.job, c, f, BytesTaken(io.accepts, |Layout(f)|));
        hide Core, SendFrame, ChunksOnly, LayoutAll;
      }
    }
  }

  lemma SendFileKeeps(w: World, s: Sender, io: Io)
    requires Endable(w, s) && s.client.state == Idle && s.client.handshakeComplete
    requires s.active ==>
      && s.client.hashing.None? && |s.client.sent| == 1 && s.client.transferId == [] && s.client.nextRequestId == 2
      && s.client.connected && s.client.wire + s.client.remainder == LayoutAll(s.client.sent)
      && Pending(s.client) <= MAX_FRAME && (s.client.remainder != [] ==> s.client.flushScheduled)
      && !s.client.pumpScheduled
    ensures Inv(w, SendFile(s, io))
  {
    hide Script, LayoutAll;
    FinishEnds(w, s, Failure(SEND_BUSY));
    FinishEnds(w, s, Failure(NO_FILE));
  }

  lemma HelloAckKeeps(w: World, s: Sender, frame: Frame, io: Io)
    requires Inv(w, s)
    ensures Inv(w, HandleHelloAck(w, s, frame, io))
  {
    InvIsEndable(w, s);
    FailDown(w, s, UNEXPECTED_STATE);
    ErrorDown(w, s);
    if s.client.state == HelloSent {
      hide Script, LayoutAll, SocketDown, FailTransfer, HandleError, SendFile;
      SendFileKeeps(w, s.(client := s.client.(handshakeComplete := true, helloId := 0, state := Idle)), io);
    }
  }

  lemma OfferKeeps(w: World, s: Sender, io: Io)
    requires SmallControl(w) && Inv(w, s) && s.client.state == Offering && !s.client.fileOpen
    requires IsLowerHex(io.transferId, TRANSFER_ID_LENGTH)
    ensures var ready := s.(client := s.client.(hashing := None, fileOpen := true, sendOffset := 0, position := 0,
                                                fileSize := |s.job.source|));
      var (offered, id) := SendFileOffer(w, ready, OfferFor(w, s.job, io.transferId), io);
      if id == 0 then Inv(w, offered.(client := offered.client.(fileOpen := false, state := Failed)))
      else Inv(w, offered)
  {
    var ready := s.(client := s.client.(hashing := None, fileOpen := true, sendOffset := 0, position := 0,
                                        fileSize := |s.job.source|));
    var offer := OfferFor(w, s.job, io.transferId);
    assert Endable(w, ready) by { hide Script, LayoutAll; }
    if w.encode(offer).Failure? {
      ErrorEnds(w, ready);
      hide Script, LayoutAll;
    } else {
      var id := ready.client.nextRequestId;
      var c := ready.client.(nextRequestId := NextId(id), offerId := id, transferId := offer.transferId,
                             offeredId := offer.transferId, state := Offering);
      var f := FrameOf(offer, id, w.encode(offer).value);
      MessageFits(w, offer, id);
      ScriptBeforeOffer(w, s.job, s.client.offeredId, c.offeredId, s.client.sent);
      assert Core(w, s.job, c) by { hide Script, LayoutAll; }
      hide Layout, Encodable;
      if SendFrame(c, f, io).Failure? {
        assert Endable(w, ready.(client := c)) by { hide Core; }
        FailEnds(w, ready.(client := c), SendFrame(c, f, io).error);
        hide Script, LayoutAll;
      } else {
        SendIsWithFrame(c, f, io);
        FrameSent(w, s.job, c, f, BytesTaken(io.accepts, |Layout(f)|));
        hide Core, SendFrame, ChunksOnly, LayoutAll, IsMessage;
      }
    }
  }

  lemma HashKeeps(w: World, s: Sender, hashed: bool, io: Io)
    requires SmallControl(w) && Inv(w, s) && s.client.hashing.Some? && IsLowerHex(io.transferId, TRANSFER_ID_LENGTH)
    ensures Inv(w, HandleHashResult(w, s, hashed, io))
  {
    hide Script, LayoutAll, SendFileOffer, FailTransfer;
    var idle := s.(client := s.client.(hashing := None));
    assert Endable(w, idle);
    FailEnds(w, idle, FILE_ERROR);
    if s.client.state == Offering {
      OfferKeeps(w, s, io);
    }
  }

  /** The client when the finish is about to go out. */
  function Concluding(c: Client): Client {
    c.(pumpScheduled := false, fileOpen := false, state := Finishing, finishId := c.nextRequestId,
       nextRequestId := NextId(c.nextRequestId))
  }

  /** Every chunk has been sent. */
  ghost predicate AllSent(w: World, s: Sender) {
    var c := s.client;
    && Counted(s) && s.active && Core(w, s.job, c) && c.state == Sending
    && c.connected && c.wire + c.remainder == LayoutAll(c.sent) && c.remainder == [] && Pending(c) < HIGH_WATER_MARK
    && |c.sent| >= 2 && ChunksOnly(s.job, c.offeredId, c.sent) && c.transferId == c.offeredId
    && (|c.sent| - 2) * CHUNK_SIZE >= |s.job.source|
  }

  lemma AllSentEndable(w: World, s: Sender)
    requires AllSent(w, s)
    ensures Endable(w, s.(client := s.client.(pumpScheduled := false)))
    ensures Endable(w, s.(client := Concluding(s.client))) && s.client.state == Sending
  {
    hide Core, ChunksOnly, NextId;
    CoreOfHistory(w, s.job, s.client, s.client.(pumpScheduled := false));
    CoreOfHistory(w, s.job, s.client, Concluding(s.client));
  }

  lemma FinishOut(w: World, s: Sender, f: Frame, accepted: nat)
    requires AllSent(w, s) && IsMessage(w, f, Finish(s.client.transferId))
    requires Encodable(f) && accepted <= |Layout(f)| && |f.payload| <= PREFIX_SIZE + CHUNK_SIZE
    ensures Inv(w, s.(client := WithFrame(Concluding(s.client), f, accepted)))
  {
    hide Core, Encodable, Layout, LayoutAll, IsChunk, ChunksOnly, IsMessage, NextId;
    CoreOfHistory(w, s.job, s.client, Concluding(s.client));
    FrameSent(w, s.job, Concluding(s.client), f, accepted);
  }

  lemma FinishSentKeeps(w: World, s: Sender, io: Io)
    requires SmallControl(w) && AllSent(w, s)
    ensures Inv(w, SendFileFinish(w, s.(client := s.client.(pumpScheduled := false)), io))
  {
    hide AllSent, Inv, Endable, SendFrame, Layout, Encodable, IsMessage, NextId, FailTransfer, SocketDown, SmallControl;
    AllSentEndable(w, s);
    var m := Finish(s.client.transferId);
    var fired := s.(client := s.client.(pumpScheduled := false));
    if w.encode(m).Failure? {
      FailEnds(w, fired, w.encode(m).error);
    } else {
      var c := Concluding(s.client);
      var f := FrameOf(m, s.client.nextRequestId, w.encode(m).value);
      MessageFits(w, m, s.client.nextRequestId);
      if SendFrame(c, f, io).Failure? {
        FailDown(w, s.(client := c), SendFrame(c, f, io).error);
      } else {
        SendIsWithFrame(c, f, io);
        FinishOut(w, s, f, BytesTaken(io.accepts, |Layout(f)|));
      }
    }
  }

  lemma ReadLength(source: Bytes, n: nat)
    requires n * CHUNK_SIZE < |source|
    ensures var data := ReadAt(source, n * CHUNK_SIZE);
      && 0 < |data| <= CHUNK_SIZE
      && n * CHUNK_SIZE + |data| == if (n + 1) * CHUNK_SIZE < |source| then (n + 1) * CHUNK_SIZE else |source|
  {}

  /** The frame is fit to be sent as the n-th chunk. */
  predicate IsNextChunk(job: Job, transferId: Bytes, f: Frame, n: nat) {
    Encodable(f) && |f.payload| <= PREFIX_SIZE + CHUNK_SIZE && IsChunk(job, transferId, f, n)
  }

  /** The chunk the pump reads next is the next one of the script. */
  lemma NextChunk(job: Job, transferId: Bytes, n: nat, id: uint64)
    requires n * CHUNK_SIZE < |job.source| < WORD && IsLowerHex(transferId, TRANSFER_ID_LENGTH)
    ensures var payload := EncodeChunk(FileChunk(transferId, n * CHUNK_SIZE, ReadAt(job.source, n * CHUNK_SIZE)));
      payload.Success? && IsNextChunk(job, transferId, Frame(FILE_CHUNK, 0, id, payload.value), n)
  {
    var data := ReadAt(job.source, n * CHUNK_SIZE);
    ReadLength(job.source, n);
    hide DecodeChunk, ReadAt, IsLowerHex;
    DecodeEncode(FileChunk(transferId, n * CHUNK_SIZE, data));
  }

  /** A chunk has been read that has yet to be sent. */
  ghost predicate Read(w: World, s: Sender, n: nat, size: nat) {
    var c := s.client;
    && Counted(s) && s.active && Core(w, s.job, c) && c.state == Sending && !c.pumpScheduled && c.fileOpen
    && c.connected && c.wire + c.remainder == LayoutAll(c.sent) && c.remainder == [] && Pending(c) < HIGH_WATER_MARK
    && |c.sent| == n + 2 && ChunksOnly(s.job, c.offeredId, c.sent)
    && c.transferId == c.offeredId && IsLowerHex(c.transferId, TRANSFER_ID_LENGTH)
    && c.fileSize == |s.job.source| && c.sendOffset == n * CHUNK_SIZE && c.position == c.sendOffset + size
    && c.position == (if (n + 1) * CHUNK_SIZE < |s.job.source| then (n + 1) * CHUNK_SIZE else |s.job.source|)
  }

  /** Core looks at the history only. */
  lemma CoreOfHistory(w: World, job: Job, a: Client, b: Client)
    requires Core(w, job, a)
    requires a.sent == b.sent && a.wire == b.wire && a.drained == b.drained && a.offeredId == b.offeredId
    ensures Core(w, job, b)
  {
    hide Script, LayoutAll;
  }

  function NextRequest(c: Client): Client {
    c.(nextRequestId := NextId(c.nextRequestId))
  }

  lemma ReadIsEndable(w: World, s: Sender, n: nat, size: nat)
    requires Read(w, s, n, size)
    ensures Endable(w, s.(client := NextRequest(s.client)))
    ensures s.client.state == Sending
  {
    hide Core, ChunksOnly, IsLowerHex, NextId;
    CoreOfHistory(w, s.job, s.client, NextRequest(s.client));
  }

  lemma SendChunkKeeps(w: World, s: Sender, payload: Bytes, n: nat, size: nat, io: Io)
    requires Read(w, s, n, size) && IsNextChunk(s.job, s.client.transferId, Frame(FILE_CHUNK, 0, s.client.nextRequestId, payload), n)
    ensures Inv(w, SendChunk(s, payload, size, io))
  {
    hide Read, IsNextChunk, Layout, Endable, SendFrame, Inv, NextId, SocketDown, FailTransfer, ScheduleSendPump, Encodable;
    var c := NextRequest(s.client);
    var f := Frame(FILE_CHUNK, 0, s.client.nextRequestId, payload);
    ReadIsEndable(w, s, n, size);
    if SendFrame(c, f, io).Failure? {
      FailDown(w, s.(client := c), SendFrame(c, f, io).error);
    } else {
      SendIsWithFrame(c, f, io);
      ChunkOut(w, s, f, BytesTaken(io.accepts, |Layout(f)|), n, size);
    }
  }

  lemma ChunkOut(w: World, s: Sender, f: Frame, accepted: nat, n: nat, size: nat)
    requires Read(w, s, n, size) && IsNextChunk(s.job, s.client.transferId, f, n) && accepted <= |Layout(f)|
    ensures var out := WithFrame(NextRequest(s.client), f, accepted);
      Inv(w, s.(client := ScheduleSendPump(out.(sendOffset := out.sendOffset + size))))
  {
    hide Core, Encodable, Layout, LayoutAll, IsChunk, ChunksOnly, IsLowerHex, NextId, Inv, ScheduleSendPump;
    var c := NextRequest(s.client);
    CoreOfHistory(w, s.job, s.client, c);
    FrameSent(w, s.job, c, f, accepted);
    var sent := WithFrame(c, f, accepted);
    var out := sent.(sendOffset := c.sendOffset + size);
    CoreOfHistory(w, s.job, sent, out);
    PumpedOn(w, s, out);
  }

  lemma ChunkSentKeeps(w: World, s: Sender, io: Io)
    requires Inv(w, s) && s.client.state == Sending && s.client.remainder == []
    requires s.client.sendOffset < s.client.fileSize && Pending(s.client) < HIGH_WATER_MARK && !io.readFails
    ensures Inv(w, SendNextChunk(w, s, io))
  {
    hide Inv, EncodeChunk, IsNextChunk, ReadAt, SendChunk, Read, FailTransfer, IsLowerHex, NextId, SendFileFinish;
    var c := s.client;
    ReadFacts(w, s);
    var n := |c.sent| - 2;
    var data := ReadAt(s.job.source, c.position);
    var read := s.(client := c.(pumpScheduled := false, position := c.position + |data|));
    NextChunk(s.job, c.transferId, n, c.nextRequestId);
    var payload := EncodeChunk(FileChunk(c.transferId, n * CHUNK_SIZE, data));
    assert c.sendOffset % WORD == c.sendOffset;
    SendChunkKeeps(w, read, payload.value, n, |data|, io);
  }

  lemma ReadFacts(w: World, s: Sender)
    requires Inv(w, s) && s.client.state == Sending && s.client.remainder == []
    requires s.client.sendOffset < s.client.fileSize && Pending(s.client) < HIGH_WATER_MARK
    ensures var c := s.client;
      && c.fileOpen && c.connected && |s.job.source| < WORD && c.fileSize == |s.job.source| && |c.sent| >= 2
      && IsLowerHex(c.transferId, TRANSFER_ID_LENGTH)
      && c.position == c.sendOffset == (|c.sent| - 2) * CHUNK_SIZE < |s.job.source|
      && var data := ReadAt(s.job.source, c.position);
         Read(w, s.(client := c.(pumpScheduled := false, position := c.position + |data|)), |c.sent| - 2, |data|)
  {
    var c := s.client;
    assert c.sendOffset == (|c.sent| - 2) * CHUNK_SIZE < |s.job.source| by { hide Core, ChunksOnly, IsLowerHex; }
    ReadLength(s.job.source, |c.sent| - 2);
    hide Script, LayoutAll, ChunksOnly, IsLowerHex, ReadAt;
  }

  /** After a chunk the pump is scheduled again unless something else will wake it. */
  lemma PumpedOn(w: World, s: Sender, t: Client)
    requires Counted(s) && s.active && Core(w, s.job, t) && t.state == Sending && Phase(s.job, t) && !t.pumpScheduled
    requires t.connected && t.wire + t.remainder == LayoutAll(t.sent) && Pending(t) < HIGH_WATER_MARK + MAX_FRAME
    requires t.remainder != [] ==> t.flushScheduled
    ensures Inv(w, s.(client := ScheduleSendPump(t)))
  {
    hide Script, LayoutAll, ChunksOnly;
  }

  lemma PumpKeeps(w: World, s: Sender, io: Io)
    requires SmallControl(w) && Inv(w, s) && s.client.pumpScheduled
    ensures Inv(w, SendNextChunk(w, s, io))
  {
    hide SendFileFinish, SendChunk, EncodeChunk, ReadAt, FailTransfer, IsLowerHex;
    var c := s.client.(pumpScheduled := false);
    var fired := s.(client := c);
    assert c.state == Sending && c.remainder == [] && c.fileOpen && c.connected by { hide Core, ChunksOnly; }
    assert Endable(w, fired) by { hide Script, LayoutAll; }
    if Pending(c) >= HIGH_WATER_MARK {
      hide Script, LayoutAll, ChunksOnly;
    } else if c.sendOffset >= c.fileSize {
      assert AllSent(w, s) by { hide Core, ChunksOnly; }
      FinishSentKeeps(w, s, io);
    } else {
      assert c.position < |s.job.source| by { hide Core, ChunksOnly; }
      if io.readFails {
        FailEnds(w, fired, FILE_ERROR);
      } else {
        ChunkSentKeeps(w, s, io);
      }
    }
  }

  /** The client after the socket has accepted so much of the left-over. */
  function Flushed(c: Client, accepted: nat): Client
    requires accepted <= |c.remainder|
  {
    c.(flushScheduled := false, wire := c.wire + c.remainder[..accepted], remainder := c.remainder[accepted..])
  }

  lemma FlushedStream(w: World, job: Job, c: Client, accepted: nat)
    requires Core(w, job, c) && accepted <= |c.remainder| && c.wire + c.remainder == LayoutAll(c.sent)
    ensures var t := Flushed(c, accepted);
      Core(w, job, t) && t.wire + t.remainder == LayoutAll(t.sent) && Pending(t) == Pending(c)
  {
    hide Script, LayoutAll;
    assert c.remainder[..accepted] + c.remainder[accepted..] == c.remainder;
    var t := Flushed(c, accepted);
    assert t.wire + t.remainder == c.wire + c.remainder;
  }

  lemma FlushedOn(w: World, s: Sender, accepted: nat)
    requires Inv(w, s) && s.active && Live(s.client.state) && accepted <= |s.client.remainder|
    ensures var t := Flushed(s.client, accepted);
      Inv(w, s.(client := if t.remainder != [] then ScheduleRemainderFlush(t) else ScheduleSendPump(t)))
  {
    hide Core, ChunksOnly;
    FlushedStream(w, s.job, s.client, accepted);
    var t := Flushed(s.client, accepted);
    CoreUnscheduled(w, s.job, t);
  }

  /** The schedules are not part of what the history is about. */
  lemma CoreUnscheduled(w: World, job: Job, c: Client)
    requires Core(w, job, c)
    ensures Core(w, job, ScheduleRemainderFlush(c)) && Core(w, job, ScheduleSendPump(c))
  {
    hide Script, LayoutAll;
  }

  lemma FlushKeeps(w: World, s: Sender, io: Io)
    requires Inv(w, s) && s.client.flushScheduled
    ensures Inv(w, FlushWriteRemainder(s, io))
  {
    hide Core, ChunksOnly, LayoutAll;
    var c := s.client.(flushScheduled := false);
    var accepted := BytesTaken(io.accepts, |c.remainder|);
    CoreOfHistory(w, s.job, s.client, c);
    if s.active && Live(c.state) {
      assert Endable(w, s.(client := c)) && c.connected;
      assert c.remainder == [] ==> Flushed(s.client, 0) == c;
      FlushedOn(w, s, if accepted >= 0 then accepted else 0);
      FailDown(w, s.(client := c), WRITE_ERROR);
      hide Inv, Endable, ScheduleSendPump, ScheduleRemainderFlush, FailTransfer;
    } else {
      CoreOfHistory(w, s.job, s.client, c.(remainder := []));
      CoreUnscheduled(w, s.job, c);
    }
  }

  lemma DrainKeeps(w: World, s: Sender, n: nat)
    requires Inv(w, s) && s.client.drained + n <= |s.client.wire|
    ensures Inv(w, s.(client := HandleBytesWritten(s.client.(drained := s.client.drained + n))))
  {
    hide Script, LayoutAll, ChunksOnly;
  }

  lemma AcceptKeeps(w: World, s: Sender, frame: Frame)
    requires Faithful(w) && Inv(w, s)
    ensures Inv(w, HandleFileAccept(w, s, frame))
  {
    InvIsEndable(w, s);
    FailDown(w, s, UNEXPECTED_STATE);
    ErrorDown(w, s);
    if s.client.state == Offering && Decode(w, frame).Success? && Decode(w, frame).value.Accept? {
      DecodedIsValid(w, frame);
      if Decode(w, frame).value.transferId == s.client.transferId {
        assert s.client.fileOpen && s.active;
        assert ChunksOnly(s.job, s.client.offeredId, s.client.sent);
        hide Script, LayoutAll, ChunksOnly, SocketDown, FailTransfer, HandleError;
        PumpedOn(w, s, s.client.(state := Sending));
      }
    }
  }

  lemma RejectKeeps(w: World, s: Sender, frame: Frame)
    requires Inv(w, s)
    ensures Inv(w, HandleFileReject(w, s, frame))
  {
    InvIsEndable(w, s);
    FailDown(w, s, UNEXPECTED_STATE);
    ErrorDown(w, s);
    if s.client.state == Offering && Decode(w, frame).Success? && Decode(w, frame).value.Reject? {
      hide Script, LayoutAll, ChunksOnly, SocketDown, FailTransfer, HandleError;
      var rejected := s.(client := s.client.(fileOpen := false, pumpScheduled := false, remainder := [],
                                            flushScheduled := false, state := if s.client.fileOpen then Failed else Idle));
      assert Core(w, rejected.job, rejected.client);
      FinishEnds(w, rejected, Failure(Decode(w, frame).value.error));
    }
  }

  lemma ResultKeeps(w: World, s: Sender, frame: Frame)
    requires Inv(w, s)
    ensures Inv(w, HandleFileResult(w, s, frame))
  {
    InvIsEndable(w, s);
    FailDown(w, s, UNEXPECTED_STATE);
    FailDown(w, s, UNEXPECTED_RESULT);
    if s.client.state == Finishing {
      if Decode(w, frame).Failure? {
        FailDown(w, s, Decode(w, frame).error);
      } else if Decode(w, frame).value.FileResult? {
        var m := Decode(w, frame).value;
        hide Script, LayoutAll, ChunksOnly, SocketDown, FailTransfer;
        var ended := s.(client := s.client.(fileOpen := false, state := if m.ok then Completed else Failed));
        assert Core(w, ended.job, ended.client);
        FinishEnds(w, ended, if m.ok then Success(()) else Failure(m.error));
      }
    }
  }

  lemma DispatchKeeps(w: World, s: Sender, frame: Frame, io: Io)
    requires Faithful(w) && Inv(w, s)
    ensures Inv(w, DispatchFrame(w, s, frame, io))
  {
    hide Inv, Endable, HandleHelloAck, HandleFileAccept, HandleFileReject, HandleFileResult, SocketDown, HandleError;
    HelloAckKeeps(w, s, frame, io);
    AcceptKeeps(w, s, frame);
    RejectKeeps(w, s, frame);
    ResultKeeps(w, s, frame);
    InvIsEndable(w, s);
    ErrorDown(w, s);
  }

  lemma {:induction false} DispatchAllKeeps(w: World, s: Sender, frames: seq<Frame>, ios: seq<Io>)
    requires Faithful(w) && Inv(w, s)
    ensures Inv(w, DispatchAll(w, s, frames, ios))
    decreases |frames|
  {
    hide Inv, DispatchFrame;
    if frames != [] {
      var before := frames[..|frames| - 1];
      DispatchAllKeeps(w, s, before, ios);
      DispatchKeeps(w, DispatchAll(w, s, before, ios), frames[|frames| - 1], IoAt(ios, |frames| - 1));
    }
  }

  lemma BufferKeeps(w: World, s: Sender, buffer: Bytes)
    requires Inv(w, s)
    ensures Inv(w, s.(client := s.client.(buffer := buffer)))
  {
    hide Script, LayoutAll, ChunksOnly;
  }

  lemma ReadyReadKeeps(w: World, s: Sender, bytes: Bytes, ios: seq<Io>)
    requires Faithful(w) && Inv(w, s)
    ensures Inv(w, HandleReadyRead(w, s, bytes, ios))
  {
    hide Inv, Endable, PushResult, DispatchAll, SocketDown, HandleError;
    var (frames, rest) := PushResult(s.client.buffer, bytes);
    BufferKeeps(w, s, rest);
    var pushed := s.(client := s.client.(buffer := rest));
    InvIsEndable(w, pushed);
    ErrorDown(w, pushed);
    if frames.Success? {
      DispatchAllKeeps(w, pushed, frames.value, ios);
    }
  }

  lemma StartKeeps(w: World, s: Sender, job: Job)
    requires Inv(w, s) && |job.source| < WORD
    ensures Inv(w, Apply(w, s, StartSend(job)))
  {
    assert LayoutAll([]) == [];
  }

  lemma InvStep(w: World, s: Sender, e: Event)
    requires Faithful(w) && SmallControl(w) && Inv(w, s) && Enabled(s, e)
    ensures Inv(w, Apply(w, s, e))
  {
    hide Inv, Endable, SendHello, HandleReadyRead, HandleHashResult, SendNextChunk, FlushWriteRemainder,
      HandleBytesWritten, HandleError, HandleDisconnected, FinishOutgoing;
    match e
    case StartSend(job) => StartKeeps(w, s, job);
    case Connected(io) => HelloKeeps(w, s, io);
    case Receive(bytes, ios) => ReadyReadKeeps(w, s, bytes, ios);
    case HashDone(hashed, io) => HashKeeps(w, s, hashed, io);
    case PumpFires(io) => PumpKeeps(w, s, io);
    case FlushFires(io) => FlushKeeps(w, s, io);
    case Drained(n) => DrainKeeps(w, s, n);
    case SocketError =>
      InvIsEndable(w, s);
      ErrorEnds(w, s);
    case Disconnected => DisconnectedEnds(w, s);
    case Stop =>
      OfEndable(w, s);
      FinishEnds(w, s, Failure(STOPPED));
  }

  lemma OfEndable(w: World, s: Sender)
    requires Inv(w, s)
    ensures Counted(s) && Core(w, s.job, s.client)
    ensures !s.active ==> (s.client.state == Idle || s.client.state == Failed) && !s.client.pumpScheduled
  {
    hide Core;
  }

  lemma {:induction false} InvRun(w: World, s: Sender, es: seq<Event>)
    requires Faithful(w) && SmallControl(w) && Inv(w, s) && Legal(w, s, es)
    ensures Inv(w, After(w, s, es))
    decreases |es|
  {
    hide Inv, Apply, Enabled;
    if es != [] {
      InvStep(w, s, es[0]);
      InvRun(w, Apply(w, s, es[0]), es[1..]);
    }
  }

  lemma InitInv(w: World)
    ensures Inv(w, Init())
  {
    assert LayoutAll([]) == [];
  }

  /* ---------------------------------------------------------------- what every run guarantees */

  /**
   Exactly-once completion: in every run, sends accepted are sends completed and the one still active,
   and a client that is done, one way or the other, leaves no send active.
   */
  lemma CompletedExactlyOnce(w: World, es: seq<Event>)
    requires Faithful(w) && SmallControl(w) && Legal(w, Init(), es)
    ensures var s := After(w, Init(), es);
      && s.accepted == |s.completions| + (if s.active then 1 else 0)
      && (s.active ==> s.client.state == Connecting || Live(s.client.state))
  {
    InitInv(w);
    hide Apply, Enabled, Legal, After, Core;
    InvRun(w, Init(), es);
  }

  /** The pump never stalls: while a file is being sent something is bound to move. */
  lemma PumpNeverStalls(w: World, es: seq<Event>)
    requires Faithful(w) && SmallControl(w) && Legal(w, Init(), es)
    ensures var c := After(w, Init(), es).client;
      c.state == Sending ==>
        && c.connected
        && (|| c.pumpScheduled
            || (c.remainder != [] && c.flushScheduled)
            || (c.remainder == [] && |c.wire| - c.drained >= HIGH_WATER_MARK))
  {
    InitInv(w);
    hide Apply, Enabled, Legal, After, Core;
    InvRun(w, Init(), es);
  }

  /** Waiting for the socket to drain, the pump is scheduled by the drain that brings it below the mark. */
  lemma DrainWakesPump(w: World, s: Sender, n: nat)
    requires Inv(w, s) && s.client.state == Sending && !s.client.pumpScheduled && s.client.remainder == []
    requires s.client.drained + n <= |s.client.wire|
    ensures var t := Apply(w, s, Event.Drained(n));
      t.client.pumpScheduled <==> |t.client.wire| - t.client.drained < HIGH_WATER_MARK
  {
    hide Core, ChunksOnly;
  }

  /** The pump, when it fires, finds the previous frame accepted. */
  lemma PumpIsNeverBusy(w: World, s: Sender, frame: Frame, io: Io)
    requires Inv(w, s) && Enabled(s, PumpFires(io))
    ensures SendFrame(s.client, frame, io) != Failure(NOT_ACCEPTED)
  {
    hide Core, ChunksOnly;
  }

  /** The socket's bytes and the left-over are the frames sent, in order, and what is pending is bounded. */
  lemma StreamIsConserved(w: World, es: seq<Event>)
    requires Faithful(w) && SmallControl(w) && Legal(w, Init(), es)
    ensures var c := After(w, Init(), es).client;
      && c.wire <= LayoutAll(c.sent)
      && (Live(c.state) ==>
            && c.wire + c.remainder == LayoutAll(c.sent)
            && Pending(c) < HIGH_WATER_MARK + MAX_FRAME
            && (c.remainder != [] ==> c.flushScheduled))
  {
    InitInv(w);
    hide Apply, Enabled, Legal, After, Script, LayoutAll;
    InvRun(w, Init(), es);
    assert Inv(w, After(w, Init(), es));
  }
}
