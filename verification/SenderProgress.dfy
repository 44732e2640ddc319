/**
 A sending end whose file can be read and whose socket goes on accepting: every step takes the send
 forward, and answers that fit lead through the handshake and the offer to a successful end.
 */
module SenderProgress {
  import opened Bytes
  import opened ChunkCodec
  import opened FrameCodec
  import opened Messages
  import opened Results
  import opened TransferClient
  import opened SenderInvariant
  import opened SenderDecisions

  /** The file is there and can be read, and the socket takes at least a byte. */
  predicate Serviceable(io: Io) {
    io.accepts >= 1 && io.fileExists && io.opens && !io.readFails && IsLowerHex(io.transferId, TRANSFER_ID_LENGTH)
  }

  /** The sending end can say all that a transfer of this file takes. */
  ghost predicate CanSay(w: World, job: Job) {
    && w.encode(Hello).Success?
    && forall id: Bytes :: IsLowerHex(id, TRANSFER_ID_LENGTH) ==>
         w.encode(OfferFor(w, job, id)).Success? && w.encode(Finish(id)).Success?
  }

  /** The identifiers the client waits for are those of the frames it sent. */
  predicate Ids(c: Client) {
    && (c.state == HelloSent ==> |c.sent| == 1 && c.sent[0].requestId == c.helloId)
    && (c.state == Offering && c.fileOpen ==> |c.sent| == 2 && c.sent[1].requestId == c.offerId)
    && (c.state == Finishing ==> |c.sent| >= 3 && c.sent[|c.sent| - 1].requestId == c.finishId)
  }

  /** How many answers have come in by this state. */
  function Heard(state: TransferState): nat {
    if state == Offering then 1 else if state == Sending || state == Finishing then 2 else 0
  }

  /** Frames a whole transfer takes: hello, offer, the chunks and the finish. */
  function ScriptLength(job: Job): nat {
    (|job.source| + CHUNK_SIZE - 1) / CHUNK_SIZE + 3
  }

  const FRAME_COST: nat := 5 * MAX_FRAME + 8

  /** What the send may still cost: frames to come, the bytes of those under way, and what is scheduled. */
  function SendRank(job: Job, c: Client): int {
    FRAME_COST * (ScriptLength(job) - |c.sent|) + 5 * |c.remainder| + 4 * (|c.wire| - c.drained) + c.drained
    + (if c.pumpScheduled then 1 else 0) + if c.flushScheduled then 2 else 0
  }

  /** The send goes on: nothing has been completed, no answer has come in, and there is less to do. */
  predicate GoesOn(s: Sender, t: Sender) {
    && t.active && t.job == s.job && t.completions == s.completions && Ids(t.client)
    && Heard(t.client.state) == Heard(s.client.state)
    && SendRank(s.job, t.client) < SendRank(s.job, s.client)
  }

  /** A frame costs less than is set aside for it. */
  lemma FrameRank(job: Job, c: Client, f: Frame, accepted: nat, pumped: Client)
    requires accepted <= |Layout(f)| && |f.payload| <= PREFIX_SIZE + CHUNK_SIZE && c.remainder == []
    requires var d := WithFrame(c, f, accepted);
      pumped.sent == d.sent && pumped.remainder == d.remainder && pumped.wire == d.wire && pumped.drained == d.drained
    ensures SendRank(job, pumped) < SendRank(job, c)
  {
    hide Layout, ScriptLength;
    var d := WithFrame(c, f, accepted);
    assert FRAME_COST * (ScriptLength(job) - |d.sent|) == FRAME_COST * (ScriptLength(job) - |c.sent|) - FRAME_COST;
    assert |Layout(f)| <= MAX_FRAME;
  }

  lemma ConnectedGoesOn(w: World, s: Sender, io: Io)
    requires SmallControl(w) && CanSay(w, s.job) && Inv(w, s) && s.active && s.client.state == Connecting && Serviceable(io)
    ensures GoesOn(s, SendHello(w, s.(client := s.client.(connected := true)), io))
  {
    var up := s.client.(connected := true);
    assert up.sent == [] && up.remainder == [] by { hide Core; }
    hide Inv, Layout, Encodable, SendRank, NextId;
    var id := up.nextRequestId;
    var c := up.(state := HelloSent, helloId := id, nextRequestId := NextId(id));
    var f := FrameOf(Hello, id, w.encode(Hello).value);
    MessageFits(w, Hello, id);
    SendIsWithFrame(c, f, io);
    var next := WithFrame(c, f, BytesTaken(io.accepts, |Layout(f)|));
    FrameRank(s.job, s.client, f, BytesTaken(io.accepts, |Layout(f)|), next);
  }

  /** The offer goes out once the hash is there and the hello has left the client. */
  lemma HashedGoesOn(w: World, s: Sender, io: Io)
    requires SmallControl(w) && CanSay(w, s.job) && Inv(w, s) && s.active && s.client.state == Offering && !s.client.fileOpen
    requires s.client.remainder == [] && Serviceable(io)
    ensures GoesOn(s, HandleHashResult(w, s, true, io))
  {
    assert s.client.hashing == Some(s.client.hashGeneration) && |s.client.sent| == 1 && s.client.nextRequestId == 2
      && s.client.handshakeComplete && s.client.connected by { hide Core; }
    hide Inv, Layout, Encodable, SendRank, CanSay, SmallControl;
    var offer := OfferFor(w, s.job, io.transferId);
    assert w.encode(offer).Success? by { CanOffer(w, s.job, io.transferId); }
    var c := s.client.(hashing := None, fileOpen := true, sendOffset := 0, position := 0, fileSize := |s.job.source|,
                       nextRequestId := 3, offerId := 2, transferId := io.transferId, offeredId := io.transferId);
    var f := FrameOf(offer, 2, w.encode(offer).value);
    MessageFits(w, offer, 2);
    SendIsWithFrame(c, f, io);
    FrameRank(s.job, s.client, f, BytesTaken(io.accepts, |Layout(f)|), WithFrame(c, f, BytesTaken(io.accepts, |Layout(f)|)));
  }

  lemma CanOffer(w: World, job: Job, id: Bytes)
    requires CanSay(w, job) && IsLowerHex(id, TRANSFER_ID_LENGTH)
    ensures w.encode(OfferFor(w, job, id)).Success? && w.encode(Finish(id)).Success?
  {}

  lemma ChunkGoesOn(s: Sender, payload: Bytes, size: nat, io: Io)
    requires s.active && s.client.state == Sending && s.client.connected && s.client.remainder == [] && io.accepts >= 0
    requires |payload| <= PREFIX_SIZE + CHUNK_SIZE && Encodable(Frame(FILE_CHUNK, 0, s.client.nextRequestId, payload))
    ensures GoesOn(s, SendChunk(s, payload, size, io))
  {
    hide Layout, Encodable, SendRank, NextId;
    var c := NextRequest(s.client);
    var f := Frame(FILE_CHUNK, 0, s.client.nextRequestId, payload);
    SendIsWithFrame(c, f, io);
    var accepted := BytesTaken(io.accepts, |Layout(f)|);
    FrameRank(s.job, s.client, f, accepted, SendChunk(s, payload, size, io).client);
  }

  lemma FinishGoesOn(w: World, s: Sender, io: Io)
    requires SmallControl(w) && s.active && s.client.state == Sending && s.client.connected && s.client.remainder == []
    requires io.accepts >= 0 && w.encode(Finish(s.client.transferId)).Success? && |s.client.sent| >= 2
    ensures GoesOn(s, SendFileFinish(w, s, io))
  {
    hide Layout, Encodable, SendRank, NextId, SmallControl;
    var m, id := Finish(s.client.transferId), s.client.nextRequestId;
    var c := s.client.(fileOpen := false, state := Finishing, finishId := id, nextRequestId := NextId(id));
    var f := FrameOf(m, id, w.encode(m).value);
    MessageFits(w, m, id);
    SendIsWithFrame(c, f, io);
    FrameRank(s.job, s.client, f, BytesTaken(io.accepts, |Layout(f)|), SendFileFinish(w, s, io).client);
  }

  lemma PumpGoesOn(w: World, s: Sender, io: Io)
    requires SmallControl(w) && CanSay(w, s.job) && Inv(w, s) && s.active && s.client.pumpScheduled && Serviceable(io)
    ensures GoesOn(s, SendNextChunk(w, s, io))
  {
    hide Inv, EncodeChunk, IsLowerHex, ReadAt, SendChunk, SendFileFinish, FailTransfer, CanSay, IsNextChunk, SmallControl;
    PumpFacts(w, s);
    CanOffer(w, s.job, s.client.transferId);
    var c := s.client.(pumpScheduled := false);
    if Pending(c) < HIGH_WATER_MARK {
      var n := |c.sent| - 2;
      assert SendRank(s.job, c) < SendRank(s.job, s.client);
      hide SendRank;
      if n * CHUNK_SIZE < |s.job.source| {
        NextChunk(s.job, c.transferId, n, c.nextRequestId);
        var data := ReadAt(s.job.source, n * CHUNK_SIZE);
        var payload := EncodeChunk(FileChunk(c.transferId, n * CHUNK_SIZE, data)).value;
        var read := s.(client := c.(position := c.position + |data|));
        assert (n * CHUNK_SIZE) % WORD == n * CHUNK_SIZE;
        FitsFrame(s.job, c.transferId, Frame(FILE_CHUNK, 0, c.nextRequestId, payload), n);
        ChunkGoesOn(read, payload, |data|, io);
        PositionIsFree(s.job, c, c.(position := c.position + |data|));
      } else {
        FinishGoesOn(w, s.(client := c), io);
      }
    }
  }

  lemma FitsFrame(job: Job, id: Bytes, f: Frame, n: nat)
    requires IsNextChunk(job, id, f, n)
    ensures Encodable(f) && |f.payload| <= PREFIX_SIZE + CHUNK_SIZE
  {}

  lemma PositionIsFree(job: Job, c: Client, d: Client)
    requires d == c.(position := d.position)
    ensures SendRank(job, c) == SendRank(job, d)
  {}

  lemma LeftOverIsLive(w: World, s: Sender)
    requires Inv(w, s) && s.active && s.client.remainder != []
    ensures s.client.connected && Live(s.client.state)
  {
    hide Core, ChunksOnly, LayoutAll;
  }

  lemma FlushGoesOn(w: World, s: Sender, io: Io)
    requires Inv(w, s) && s.active && Ids(s.client) && s.client.flushScheduled && Serviceable(io)
    ensures GoesOn(s, FlushWriteRemainder(s, io))
  {
    hide Inv, SendRank, ScheduleSendPump, ScheduleRemainderFlush, Ids;
    var accepted := BytesTaken(io.accepts, |s.client.remainder|);
    if s.client.remainder != [] {
      LeftOverIsLive(w, s);
    }
    var flushed := Flushed(s.client, accepted);
    FlushedRank(s.job, s.client, accepted);
    ScheduleCosts(s.job, flushed);
    assert s.client.remainder == [] ==> flushed == s.client.(flushScheduled := false);
  }

  lemma FlushedRank(job: Job, c: Client, accepted: nat)
    requires accepted <= |c.remainder| && c.flushScheduled && (c.remainder != [] ==> accepted >= 1)
    ensures var d := Flushed(c, accepted);
      && SendRank(job, d) + (if c.remainder == [] then 2 else 3) <= SendRank(job, c)
      && (Ids(c) ==> Ids(d)) && d.state == c.state
  {
    hide ScriptLength;
  }

  /** Scheduling a flush costs two, a pump one; neither changes what Ids looks at. */
  lemma ScheduleCosts(job: Job, c: Client)
    ensures SendRank(job, ScheduleRemainderFlush(c)) <= SendRank(job, c) + 2
    ensures SendRank(job, ScheduleSendPump(c)) <= SendRank(job, c) + 1
    ensures Ids(c) ==> Ids(ScheduleRemainderFlush(c)) && Ids(ScheduleSendPump(c))
    ensures ScheduleRemainderFlush(c).state == c.state && ScheduleSendPump(c).state == c.state
  {
    hide ScriptLength;
  }

  lemma DrainGoesOn(w: World, s: Sender, n: nat)
    requires Inv(w, s) && s.active && Ids(s.client) && s.client.drained + n <= |s.client.wire| && n >= 1
    ensures GoesOn(s, s.(client := HandleBytesWritten(s.client.(drained := s.client.drained + n))))
  {
    hide Inv, ScriptLength;
  }

  /* ---------------------------------------------------------------- answers */

  /** So many answers have come in, and the send goes on. */
  predicate Hears(s: Sender, t: Sender, n: nat) {
    && t.active && t.job == s.job && t.completions == s.completions && Ids(t.client)
    && Heard(t.client.state) == Heard(s.client.state) + n
    && SendRank(s.job, t.client) <= SendRank(s.job, s.client) + 1
  }

  lemma AckIsHeard(w: World, s: Sender, f: Frame, io: Io)
    requires Inv(w, s) && s.client.state == HelloSent && Acknowledges(w, s, f) && io.fileExists
    ensures Hears(s, DispatchFrame(w, s, f, io), 1)
  {
    FinishingIsActive(w, s);
    HelloSentFacts(w, s);
    HandshakeDecision(w, s, f, io);
    hide Inv, FailTransfer, FinishOutgoing, ScriptLength;
  }

  lemma AcceptIsHeard(w: World, s: Sender, f: Frame, io: Io)
    requires Faithful(w) && Inv(w, s) && s.client.state == Offering && s.client.fileOpen && AcceptsOffer(w, s, f)
    ensures Hears(s, DispatchFrame(w, s, f, io), 1)
  {
    OfferingFacts(w, s);
    hide Inv, FailTransfer, SendRank, ScheduleSendPump, TransferClient.HandleError, SocketDown;
    var sending := s.client.(state := Sending);
    ScheduleCosts(s.job, sending);
    assert SendRank(s.job, sending) == SendRank(s.job, s.client) by { StateIsFree(s.job, s.client, sending); }
  }

  lemma StateIsFree(job: Job, c: Client, d: Client)
    requires d == c.(state := d.state, buffer := d.buffer)
    ensures SendRank(job, c) == SendRank(job, d)
  {}

  /** The frames that the bytes complete are dispatched in turn; here there is one at most. */
  lemma ReadsOne(w: World, s: Sender, bytes: Bytes, ios: seq<Io>, f: Frame)
    requires var d := Drain(s.client.buffer + bytes); d.error.None? && d.frames == [f]
    ensures var pushed := s.(client := s.client.(buffer := Drain(s.client.buffer + bytes).rest));
      HandleReadyRead(w, s, bytes, ios) == DispatchFrame(w, pushed, f, IoAt(ios, 0))
  {
    hide Drain, DispatchFrame;
    var pushed := s.(client := s.client.(buffer := Drain(s.client.buffer + bytes).rest));
    assert [f][..0] == [];
    assert DispatchAll(w, pushed, [], ios) == pushed;
  }

  lemma ReadsNothing(w: World, s: Sender, bytes: Bytes, ios: seq<Io>)
    requires var d := Drain(s.client.buffer + bytes); d.error.None? && d.frames == []
    ensures HandleReadyRead(w, s, bytes, ios) == s.(client := s.client.(buffer := Drain(s.client.buffer + bytes).rest))
  {
    hide Drain;
  }

  lemma NothingIsHeard(s: Sender, buffer: Bytes)
    requires s.active && Ids(s.client)
    ensures Hears(s, s.(client := s.client.(buffer := buffer)), 0)
  {
    StateIsFree(s.job, s.client, s.client.(buffer := buffer));
    hide SendRank;
  }
}
