/** How the sending end's histories grow from step to step, and which step may complete a send with success. */
module SenderHistory {
  import opened Bytes
  import opened ChunkCodec
  import opened FrameCodec
  import opened Messages
  import opened Results
  import opened TransferClient
  import opened SenderInvariant

  /** The stream and the script only grow; the offered identifier is settled with the offer. */
  predicate Longer(s: Sender, t: Sender) {
    && t.job == s.job && t.accepted == s.accepted && s.client.wire <= t.client.wire && s.client.sent <= t.client.sent
    && s.client.drained <= t.client.drained
    && (|s.client.sent| >= 2 ==> t.client.offeredId == s.client.offeredId)
  }

  predicate Grown(s: Sender, t: Sender) {
    Longer(s, t) && (t.active ==> s.active && t.client.buffer == s.client.buffer)
  }

  /** At most a failure was reported. */
  predicate NoSuccess(s: Sender, t: Sender) {
    || t.completions == s.completions
    || (|t.completions| == |s.completions| + 1 && t.completions[..|s.completions|] == s.completions
        && t.completions[|s.completions|].Failure?)
  }

  predicate Moved(s: Sender, t: Sender) {
    Grown(s, t) && NoSuccess(s, t)
  }

  lemma FinishMoves(s: Sender, error: Error)
    ensures Moved(s, FinishOutgoing(s, Failure(error)))
  {}

  lemma FailMoves(s: Sender, error: Error)
    ensures Moved(s, FailTransfer(s, error)) && Moved(s, SocketDown(FailTransfer(s, error)))
  {}

  lemma ErrorMoves(s: Sender)
    ensures Moved(s, TransferClient.HandleError(s)) && Moved(s, SocketDown(TransferClient.HandleError(s)))
  {}

  /** Only the client changed, and not what Grown looks at. */
  lemma SetMoves(s: Sender, c: Client, t: Sender)
    requires Moved(s.(client := c), t)
    requires c.wire == s.client.wire && c.sent == s.client.sent && c.drained == s.client.drained
    requires c.buffer == s.client.buffer
    requires |s.client.sent| >= 2 ==> c.offeredId == s.client.offeredId
    ensures Moved(s, t)
  {}

  lemma SendMoves(s: Sender, f: Frame, io: Io)
    requires SendFrame(s.client, f, io).Success?
    ensures Moved(s, s.(client := SendFrame(s.client, f, io).value))
  {
    hide Layout, Encodable;
  }

  lemma HelloMoves(w: World, s: Sender, io: Io)
    requires s.client.sent == []
    ensures Moved(s, SendHello(w, s, io))
  {
    hide SendFrame, FailTransfer, TransferClient.HandleError, NextId;
    ErrorMoves(s);
    if w.encode(Hello).Success? {
      var id := s.client.nextRequestId;
      var c := s.client.(state := HelloSent, helloId := id, nextRequestId := NextId(id));
      var f := FrameOf(Hello, id, w.encode(Hello).value);
      var next := s.(client := c);
      if SendFrame(c, f, io).Success? {
        SendMoves(next, f, io);
      } else {
        FailMoves(next, SendFrame(c, f, io).error);
      }
      SetMoves(s, c, SendHello(w, s, io));
    }
  }

  lemma OfferMoves(w: World, s: Sender, offer: Message, io: Io)
    requires offer.Offer? && |s.client.sent| == 1
    ensures Moved(s, SendFileOffer(w, s, offer, io).0)
  {
    hide SendFrame, FailTransfer, TransferClient.HandleError, NextId;
    ErrorMoves(s);
    if w.encode(offer).Success? {
      var id := s.client.nextRequestId;
      var c := s.client.(nextRequestId := NextId(id), offerId := id, transferId := offer.transferId,
                         offeredId := offer.transferId, state := Offering);
      var f := FrameOf(offer, id, w.encode(offer).value);
      var next := s.(client := c);
      if SendFrame(c, f, io).Success? {
        SendMoves(next, f, io);
      } else {
        FailMoves(next, SendFrame(c, f, io).error);
      }
      SetMoves(s, c, if SendFrame(c, f, io).Success? then s.(client := SendFrame(c, f, io).value)
                     else FailTransfer(next, SendFrame(c, f, io).error));
    }
  }

  lemma OfferingHasSentHello(w: World, s: Sender)
    requires Inv(w, s)
    ensures s.client.state == Offering && s.client.hashing.Some? ==> |s.client.sent| == 1
  {
    hide Core;
  }

  lemma HashMoves(w: World, s: Sender, hashed: bool, io: Io)
    requires Inv(w, s)
    ensures Moved(s, HandleHashResult(w, s, hashed, io))
  {
    hide Inv, SendFileOffer, FailTransfer;
    OfferingHasSentHello(w, s);
    if s.client.hashing.Some? {
      var c := s.client.(hashing := None);
      var idle := s.(client := c);
      FailMoves(idle, FILE_ERROR);
      SetMoves(s, c, FailTransfer(idle, FILE_ERROR));
      if c.state == Offering {
        var ready := c.(fileOpen := true, sendOffset := 0, position := 0, fileSize := |s.job.source|);
        OfferMoves(w, s.(client := ready), OfferFor(w, s.job, io.transferId), io);
        SetMoves(s, ready, SendFileOffer(w, s.(client := ready), OfferFor(w, s.job, io.transferId), io).0);
      }
    }
  }

  lemma FinishFrameMoves(w: World, s: Sender, io: Io)
    ensures Moved(s, SendFileFinish(w, s, io))
  {
    hide SendFrame, FailTransfer, NextId;
    if w.encode(Finish(s.client.transferId)).Failure? {
      FailMoves(s, w.encode(Finish(s.client.transferId)).error);
    } else if s.client.state == Sending {
      var id := s.client.nextRequestId;
      var c := s.client.(fileOpen := false, state := Finishing, finishId := id, nextRequestId := NextId(id));
      var f := FrameOf(Finish(c.transferId), id, w.encode(Finish(s.client.transferId)).value);
      var next := s.(client := c);
      if SendFrame(c, f, io).Success? {
        SendMoves(next, f, io);
      } else {
        FailMoves(next, SendFrame(c, f, io).error);
      }
      SetMoves(s, c, SendFileFinish(w, s, io));
    }
  }

  lemma ChunkMoves(s: Sender, payload: Bytes, size: nat, io: Io)
    ensures Moved(s, SendChunk(s, payload, size, io))
  {
    hide SendFrame, FailTransfer, NextId;
    var c := s.client.(nextRequestId := NextId(s.client.nextRequestId));
    var f := Frame(FILE_CHUNK, 0, s.client.nextRequestId, payload);
    if SendFrame(c, f, io).Success? {
      SendMoves(s.(client := c), f, io);
      SetMoves(s, c, s.(client := SendFrame(c, f, io).value));
    } else {
      FailMoves(s.(client := c), SendFrame(c, f, io).error);
      SetMoves(s, c, SocketDown(FailTransfer(s.(client := c), SendFrame(c, f, io).error)));
    }
  }

  lemma PumpMoves(w: World, s: Sender, io: Io)
    ensures Moved(s, SendNextChunk(w, s, io))
  {
    hide SendChunk, SendFileFinish, FailTransfer, EncodeChunk, ReadAt;
    var c := s.client.(pumpScheduled := false);
    var fired := s.(client := c);
    FailMoves(fired, LOST_WHILE_SENDING);
    SetMoves(s, c, FailTransfer(fired, LOST_WHILE_SENDING));
    FailMoves(fired, FILE_ERROR);
    SetMoves(s, c, FailTransfer(fired, FILE_ERROR));
    FinishFrameMoves(w, fired, io);
    SetMoves(s, c, SendFileFinish(w, fired, io));
    var data := ReadAt(s.job.source, c.position);
    var r := c.(position := c.position + |data|);
    var payload := EncodeChunk(FileChunk(c.transferId, c.sendOffset % WORD, data));
    if payload.Failure? {
      FailMoves(s.(client := r), payload.error);
      SetMoves(s, r, FailTransfer(s.(client := r), payload.error));
    } else {
      ChunkMoves(s.(client := r), payload.value, |data|, io);
      SetMoves(s, r, SendChunk(s.(client := r), payload.value, |data|, io));
    }
  }

  lemma ScheduleMoves(s: Sender, c: Client)
    requires Moved(s, s.(client := c))
    ensures Moved(s, s.(client := ScheduleSendPump(c))) && Moved(s, s.(client := ScheduleRemainderFlush(c)))
  {}

  lemma FlushMoves(s: Sender, io: Io)
    ensures Moved(s, FlushWriteRemainder(s, io))
  {
    hide FailTransfer, ScheduleSendPump, ScheduleRemainderFlush;
    var c := s.client.(flushScheduled := false);
    var accepted := BytesTaken(io.accepts, |c.remainder|);
    if c.remainder == [] {
      ScheduleMoves(s, c);
    } else if !c.connected || Ended(c.state) || c.state == Idle {
    } else if accepted < 0 {
      FailMoves(s.(client := c), WRITE_ERROR);
      SetMoves(s, c, SocketDown(FailTransfer(s.(client := c), WRITE_ERROR)));
    } else {
      ScheduleMoves(s, Flushed(s.client, accepted));
    }
  }

  /** Every step but starting a send and reading from the socket. */
  lemma StepMoves(w: World, s: Sender, e: Event)
    requires Inv(w, s) && Enabled(s, e) && !e.StartSend? && !e.Receive?
    ensures Moved(s, Apply(w, s, e))
  {
    hide Inv, HandleHashResult, SendNextChunk, FlushWriteRemainder, FinishOutgoing, TransferClient.HandleError,
      SendHello, HandleDisconnected, ScheduleSendPump, ScheduleRemainderFlush;
    match e
    case Connected(io) =>
      ConnectingHasSentNothing(w, s);
      var up := s.client.(connected := true);
      HelloMoves(w, s.(client := up), io);
      SetMoves(s, up, SendHello(w, s.(client := up), io));
    case HashDone(hashed, io) => HashMoves(w, s, hashed, io);
    case PumpFires(io) => PumpMoves(w, s, io);
    case FlushFires(io) => FlushMoves(s, io);
    case Drained(n) => ScheduleMoves(s, s.client.(drained := s.client.drained + n));
    case SocketError => ErrorMoves(s);
    case Disconnected => DisconnectedMoves(s);
    case Stop => FinishMoves(s, STOPPED);
  }

  lemma ConnectingHasSentNothing(w: World, s: Sender)
    requires Inv(w, s) && s.client.state == Connecting
    ensures s.client.sent == []
  {
    hide Core;
  }

  lemma DisconnectedMoves(s: Sender)
    ensures Moved(s, HandleDisconnected(s))
  {}

  /* ---------------------------------------------------------------- reading from the socket */

  /** The frame reports success for the identifier that was offered. */
  predicate Confirms(w: World, s: Sender, f: Frame) {
    && Decode(w, f).Success? && Decode(w, f).value.FileResult? && Decode(w, f).value.ok
    && Decode(w, f).value.transferId == s.client.offeredId && |s.client.sent| >= 3
  }

  /** What handling a frame may do to the histories. */
  predicate Answered(w: World, s: Sender, f: Frame, t: Sender) {
    && Grown(s, t) && s.completions <= t.completions
    && (NoSuccess(s, t) || (s.active && Confirms(w, s, f)))
    && (!s.active ==> t.completions == s.completions)
  }

  lemma FailAnswers(w: World, s: Sender, f: Frame, error: Error)
    ensures Answered(w, s, f, SocketDown(FailTransfer(s, error)))
    ensures Answered(w, s, f, SocketDown(TransferClient.HandleError(s)))
  {}

  lemma AckAnswers(w: World, s: Sender, f: Frame, io: Io)
    ensures Answered(w, s, f, HandleHelloAck(w, s, f, io))
  {
    hide FailTransfer, TransferClient.HandleError;
    FailAnswers(w, s, f, UNEXPECTED_STATE);
  }

  lemma AcceptAnswers(w: World, s: Sender, f: Frame)
    ensures Answered(w, s, f, HandleFileAccept(w, s, f))
  {
    hide FailTransfer, TransferClient.HandleError;
    FailAnswers(w, s, f, UNEXPECTED_STATE);
  }

  lemma RejectAnswers(w: World, s: Sender, f: Frame)
    ensures Answered(w, s, f, HandleFileReject(w, s, f))
  {
    hide FailTransfer, TransferClient.HandleError;
    FailAnswers(w, s, f, UNEXPECTED_STATE);
  }

  lemma ResultAnswers(w: World, s: Sender, f: Frame)
    requires s.client.state == Finishing ==>
      s.active && s.client.transferId == s.client.offeredId && |s.client.sent| >= 3
    ensures Answered(w, s, f, HandleFileResult(w, s, f))
  {
    hide FailTransfer;
    FailAnswers(w, s, f, UNEXPECTED_STATE);
    FailAnswers(w, s, f, UNEXPECTED_RESULT);
    if Decode(w, f).Failure? {
      FailAnswers(w, s, f, Decode(w, f).error);
    }
  }

  /** A frame completes the active send with success only if it confirms the transfer. */
  lemma DispatchAnswers(w: World, s: Sender, f: Frame, io: Io)
    requires Inv(w, s)
    ensures Answered(w, s, f, DispatchFrame(w, s, f, io))
  {
    hide Inv, HandleHelloAck, HandleFileAccept, HandleFileReject, HandleFileResult, TransferClient.HandleError, Answered;
    FinishingFacts(w, s);
    AckAnswers(w, s, f, io);
    AcceptAnswers(w, s, f);
    RejectAnswers(w, s, f);
    ResultAnswers(w, s, f);
    FailAnswers(w, s, f, UNEXPECTED_STATE);
  }

  lemma FinishingFacts(w: World, s: Sender)
    requires Inv(w, s)
    ensures s.client.state == Finishing ==>
      s.active && s.client.transferId == s.client.offeredId && |s.client.sent| >= 3
  {
    hide Core;
  }

  /** What handling the frames of one push may do to the histories. */
  ghost predicate Resolved(w: World, s: Sender, frames: seq<Frame>, t: Sender) {
    && Grown(s, t) && s.completions <= t.completions
    && (!s.active ==> t.completions == s.completions)
    && (NoSuccess(s, t) || exists f :: f in frames && Confirms(w, t, f))
  }

  lemma CountsSettle(w: World, s: Sender, t: Sender)
    requires Inv(w, s) && Inv(w, t) && t.accepted == s.accepted && s.completions <= t.completions && t.active == s.active
    ensures t.completions == s.completions
  {
    hide Core, Going;
  }

  lemma ConfirmsStays(w: World, s: Sender, t: Sender, f: Frame)
    requires Confirms(w, s, f) && Grown(s, t)
    ensures Confirms(w, t, f)
  {}

  lemma OneMoreFrame(w: World, s: Sender, before: seq<Frame>, u: Sender, f: Frame, t: Sender)
    requires Resolved(w, s, before, u) && Answered(w, u, f, t)
    requires u.active ==> u.completions == s.completions
    ensures Resolved(w, s, before + [f], t)
  {
    if u.active {
      if !NoSuccess(u, t) {
        hide Confirms;
        ConfirmsStays(w, u, t, f);
        assert f in before + [f];
      }
    } else if !NoSuccess(s, u) {
      var g :| g in before && Confirms(w, u, g);
      hide Confirms;
      ConfirmsStays(w, u, t, g);
      assert g in before + [f];
    }
  }

  lemma FrameResolves(w: World, s: Sender, before: seq<Frame>, u: Sender, f: Frame, io: Io)
    requires Faithful(w) && Inv(w, s) && Inv(w, u) && Resolved(w, s, before, u)
    ensures Resolved(w, s, before + [f], DispatchFrame(w, u, f, io))
  {
    hide Inv, Resolved, Answered, DispatchFrame;
    DispatchAnswers(w, u, f, io);
    ResolvedFacts(w, s, before, u);
    if u.active {
      CountsSettle(w, s, u);
    }
    OneMoreFrame(w, s, before, u, f, DispatchFrame(w, u, f, io));
  }

  lemma {:induction false} DispatchAllResolves(w: World, s: Sender, frames: seq<Frame>, ios: seq<Io>)
    requires Faithful(w) && Inv(w, s)
    ensures Resolved(w, s, frames, DispatchAll(w, s, frames, ios))
    decreases |frames|
  {
    hide Inv, Resolved, DispatchFrame;
    if frames == [] {
      NothingResolved(w, s);
    } else {
      var before, f := frames[..|frames| - 1], frames[|frames| - 1];
      DispatchAllKeeps(w, s, before, ios);
      DispatchAllResolves(w, s, before, ios);
      FrameResolves(w, s, before, DispatchAll(w, s, before, ios), f, IoAt(ios, |frames| - 1));
      assert frames == before + [f];
    }
  }

  lemma NothingResolved(w: World, s: Sender)
    ensures Resolved(w, s, [], s)
  {}

  lemma ResolvedFacts(w: World, s: Sender, frames: seq<Frame>, t: Sender)
    requires Resolved(w, s, frames, t)
    ensures t.accepted == s.accepted && s.completions <= t.completions && (t.active ==> s.active)
  {}

  /** Reading a piece of the stream: the frames it completes are all that can confirm the transfer. */
  lemma ReceiveResolves(w: World, s: Sender, bytes: Bytes, ios: seq<Io>)
    requires Faithful(w) && Inv(w, s)
    ensures var (frames, rest) := PushResult(s.client.buffer, bytes);
      var pushed := s.(client := s.client.(buffer := rest));
      var t := HandleReadyRead(w, s, bytes, ios);
      if frames.Success? then Resolved(w, pushed, frames.value, t) else Moved(pushed, t)
  {
    hide Inv, PushResult, DispatchAll, TransferClient.HandleError, SocketDown, Resolved, Moved;
    var (frames, rest) := PushResult(s.client.buffer, bytes);
    var pushed := s.(client := s.client.(buffer := rest));
    BufferKeeps(w, s, rest);
    if frames.Success? {
      DispatchAllResolves(w, pushed, frames.value, ios);
    } else {
      ErrorMoves(pushed);
    }
  }
}
