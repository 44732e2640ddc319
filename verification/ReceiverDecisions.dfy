/** Exactly which frames the receiving end acts on, and what becomes of the transfer in every other case. */
module ReceiverDecisions {
  import opened Bytes
  import opened ChunkCodec
  import opened FrameCodec
  import opened Messages
  import opened Results
  import opened TransferServer
  import opened ReceiverInvariant
  import opened ReceiverAnswers

  /** A control frame goes out, whole or with its rest left over, exactly when all that is pending stays within the limit. */
  lemma SendDecision(s: Server, c: Socket, f: Frame, io: Io)
    requires IsOpen(s, c)
    ensures var t := SendFrame(s, c, f, io);
      && (IsOpen(t, c) <==>
            ConnectionOf(s, c).remainder == [] && Encodable(f) && io.accepts >= 0
            && io.pending + |Layout(f)| <= PENDING_CONTROL_WRITE_LIMIT)
      && (IsOpen(t, c) ==>
            && ConnectionOf(t, c).wire + ConnectionOf(t, c).remainder == ConnectionOf(s, c).wire + Layout(f)
            && t.active == s.active && t.files == s.files)
      && (!IsOpen(t, c) ==> !Owns(t, c))
  {
    hide Layout, Encodable;
    var accepted := BytesTaken(io.accepts, |Layout(f)|);
    if accepted >= 0 {
      assert Layout(f)[..accepted] + Layout(f)[accepted..] == Layout(f);
    }
  }

  /** Sending never changes what the directory holds, but for the part file of a connection that is lost. */
  lemma SendOutcome(w: World, s: Server, c: Socket, m: Message, requestId: uint64, io: Io)
    ensures var t := SendMessage(w, s, c, m, requestId, io);
      && t.published == s.published && t.setbacks == s.setbacks
      && ((t.active == s.active && t.files == s.files)
          || (Owns(s, c) && t.active.None? && t.files == s.files - {PartName(s.active.value.target)} && !IsOpen(t, c)))
  {
    hide Layout, Encodable, RemoveConnection;
    RemoveOutcome(s, c);
  }

  lemma RemoveOutcome(s: Server, c: Socket)
    ensures var t := RemoveConnection(s, c);
      && t.published == s.published && t.setbacks == s.setbacks && !IsOpen(t, c)
      && (if Owns(s, c) then t.active.None? && t.files == s.files - {PartName(s.active.value.target)}
          else t.active == s.active && t.files == s.files)
  {}

  /** A failed transfer is gone with its part file, and its failure is on record. */
  lemma FailOutcome(w: World, s: Server, c: Socket, requestId: uint64, error: Error, io: Io)
    requires Owns(s, c)
    ensures var t := FailReceive(w, s, c, requestId, error, io);
      && t.active.None? && t.files == s.files - {PartName(s.active.value.target)}
      && t.published == s.published && t.setbacks == s.setbacks + [Setback(c, error)]
  {
    hide SendMessage;
    var noted := s.(setbacks := s.setbacks + [Setback(c, error)]);
    SendOutcome(w, noted, c, FileResult(s.active.value.transferId, false, error), requestId, io);
  }

  /** The transfer was given up for this reason: no part file, nothing published, one failure more, and its owner is told. */
  predicate GivenUp(w: World, s: Server, c: Socket, requestId: uint64, error: Error, io: Io, t: Server)
    requires s.active.Some?
  {
    && t.active.None? && t.files == s.files - {PartName(s.active.value.target)} && t.published == s.published
    && t.setbacks == s.setbacks + [Setback(c, error)]
    && Answered(w, ConnectionOf(s, c), ConnectionOf(t, c), requestId, FileResult(s.active.value.transferId, false, error), io)
  }

  /** The frame carries the chunk the transfer is waiting for. */
  predicate IsExpected(t: Transfer, frame: Frame) {
    var chunk := DecodeChunk(frame.payload);
    && chunk.Success? && chunk.value.transferId == t.transferId && chunk.value.offset == t.offset
    && t.offset + |chunk.value.data| <= t.fileSize
  }

  /** The first thing that is wrong with a chunk from the owner. */
  function ChunkDefect(t: Transfer, frame: Frame, io: Io): (defect: Option<Error>)
    ensures defect.None? <==> IsExpected(t, frame) && |DecodeChunk(frame.payload).value.data| <= io.writes
  {
    match DecodeChunk(frame.payload)
    case Failure(e) => Some(e)
    case Success(chunk) =>
      if chunk.transferId != t.transferId then Some(WRONG_TRANSFER)
      else if chunk.offset != t.offset then Some(WRONG_OFFSET)
      else if t.offset + |chunk.data| > t.fileSize then Some(BEYOND_SIZE)
      else if |chunk.data| > io.writes then Some(WRITE_FAILED)
      else None
  }

  lemma FailGivesUp(w: World, s: Server, c: Socket, requestId: uint64, error: Error, io: Io)
    requires Faithful(w) && IsOpen(s, c) && Owns(s, c)
    ensures GivenUp(w, s, c, requestId, error, io, FailReceive(w, s, c, requestId, error, io))
  {
    hide FailReceive, Answered, Faithful;
    FailOutcome(w, s, c, requestId, error, io);
    FailAnswers(w, s, c, requestId, error, io);
  }

  /** What becomes of the transfer when its owner sends a chunk: it goes to the part file, or the transfer fails. */
  ghost predicate ChunkTaken(w: World, s: Server, c: Socket, frame: Frame, io: Io, t: Server)
    requires Owns(s, c) && PartName(s.active.value.target) in s.files
  {
    var before := s.active.value;
    match ChunkDefect(before, frame, io)
    case None =>
      var data := DecodeChunk(frame.payload).value.data;
      && t.active == Some(before.(state := Receiving, offset := before.offset + |data|, hashed := before.hashed + data))
      && t.files == s.files[PartName(before.target) := s.files[PartName(before.target)] + data]
      && t.published == s.published && t.setbacks == s.setbacks && t.connections == s.connections
    case Some(error) => GivenUp(w, s, c, frame.requestId, error, io, t)
  }

  lemma HandleChunkTakes(w: World, s: Server, c: Socket, frame: Frame, io: Io)
    requires Faithful(w) && IsOpen(s, c)
    requires Owns(s, c) && s.active.value.state != Finishing && s.active.value.offset <= s.active.value.fileSize
    requires PartName(s.active.value.target) in s.files
    ensures ChunkTaken(w, s, c, frame, io, HandleChunk(w, s, c, frame, io))
  {
    hide FailReceive, DecodeChunk, GivenUp, Faithful;
    var before := s.active.value;
    if ChunkDefect(before, frame, io).Some? {
      FailGivesUp(w, s, c, frame.requestId, ChunkDefect(before, frame, io).value, io);
    }
    var chunk := DecodeChunk(frame.payload);
    if chunk.Success? && io.writes < |chunk.value.data| {
      ShortWriteGivesUp(w, s, c, frame.requestId, chunk.value.data, io);
    }
  }

  /** The expected chunk is appended if the file system takes all of it; any other ends the transfer, and the owner is told why. */
  lemma ChunkDecision(w: World, initial: map<Name, Bytes>, s: Server, c: Socket, frame: Frame, io: Io)
    requires Faithful(w) && Inv(w, initial, s) && Owns(s, c) && frame.kind == FILE_CHUNK
    ensures PartName(s.active.value.target) in s.files && ChunkTaken(w, s, c, frame, io, DispatchFrame(w, s, c, frame, io))
  {
    hide Inv, ChunkTaken, HandleChunk, Faithful;
    OwnerMayAct(w, initial, s, c);
    HandleChunkTakes(w, s, c, frame, io);
  }

  lemma ShortWriteGivesUp(w: World, s: Server, c: Socket, requestId: uint64, data: Bytes, io: Io)
    requires Faithful(w) && IsOpen(s, c) && Owns(s, c) && io.writes < |data|
    ensures GivenUp(w, s, c, requestId, WRITE_FAILED, io, StoreChunk(w, s, c, requestId, data, io))
  {
    hide FailReceive, Answered, Faithful;
    var part := PartName(s.active.value.target);
    var content := (if part in s.files then s.files[part] else []) + data[..io.writes];
    var stored := s.(files := s.files[part := content]);
    FailGivesUp(w, stored, c, requestId, WRITE_FAILED, io);
    assert stored.files - {part} == s.files - {part};
  }

  lemma OwnerMayAct(w: World, initial: map<Name, Bytes>, s: Server, c: Socket)
    requires Inv(w, initial, s) && Owns(s, c)
    ensures IsOpen(s, c) && ConnectionOf(s, c).helloComplete
    ensures var t := s.active.value;
      && t.state != Finishing && t.target !in s.files && t.offset <= t.fileSize
      && PartName(t.target) in s.files && s.files[PartName(t.target)] == t.hashed && |t.hashed| == t.offset
  {
    hide FilesSound, StreamsSound, ReportsSound;
  }

  /** The finish of a transfer that is complete, hashes as offered and can be renamed. */
  predicate MayPublish(w: World, t: Transfer, frame: Frame, io: Io) {
    var m := Decode(w, frame);
    && m.Success? && m.value.Finish? && m.value.transferId == t.transferId
    && t.offset == t.fileSize && w.sha256(t.hashed) == t.sha256 && io.flushes && io.renames
  }

  /** The first thing that is wrong with a finish from the owner. */
  function FinishDefect(w: World, t: Transfer, frame: Frame, io: Io): (defect: Option<Error>)
    ensures defect.None? <==> MayPublish(w, t, frame, io)
  {
    match Decode(w, frame)
    case Failure(e) => Some(e)
    case Success(m) =>
      if !m.Finish? then Some(BAD_PAYLOAD)
      else if m.transferId != t.transferId then Some(WRONG_TRANSFER)
      else if t.offset != t.fileSize then Some(WRONG_SIZE)
      else if !io.flushes then Some(FLUSH_FAILED)
      else if w.sha256(t.hashed) != t.sha256 then Some(WRONG_HASH)
      else if !io.renames then Some(RENAME_FAILED)
      else None
  }

  /** The answer a finish from the owner calls for. */
  function FinishAnswer(w: World, t: Transfer, frame: Frame, io: Io): Message {
    match FinishDefect(w, t, frame, io)
    case None => FileResult(t.transferId, true, NO_ERROR)
    case Some(error) => FileResult(t.transferId, false, error)
  }

  lemma PublishOutcome(w: World, s: Server, c: Socket, requestId: uint64, io: Io)
    requires Faithful(w) && IsOpen(s, c)
    requires Owns(s, c) && PartName(s.active.value.target) in s.files && s.active.value.target !in s.files
    ensures var before := s.active.value;
      var part := PartName(before.target);
      var done := FileResult(before.transferId, true, NO_ERROR);
      var t := CleanupActiveTransfer(SendMessage(w, Rename(s, before), c, done, requestId, io), false);
      && t.active.None? && t.files == (s.files - {part})[before.target := s.files[part]] && t.setbacks == s.setbacks
      && t.published == s.published + [Publication(c, before.transferId, before.sha256, before.fileSize, before.target, s.files[part])]
      && Answered(w, ConnectionOf(s, c), ConnectionOf(t, c), requestId, done, io)
  {
    hide SendMessage, Answered, Faithful;
    var before := s.active.value;
    var renamed := Rename(s, before);
    SendOutcome(w, renamed, c, FileResult(before.transferId, true, NO_ERROR), requestId, io);
    SendAnswers(w, renamed, c, requestId, FileResult(before.transferId, true, NO_ERROR), io);
    assert renamed.files - {PartName(before.target)} == renamed.files;
  }

  /** What becomes of the transfer when its owner sends a finish: it is published, or fails, and either way the owner is told. */
  ghost predicate FinishTaken(w: World, s: Server, c: Socket, frame: Frame, io: Io, t: Server)
    requires Owns(s, c)
  {
    var before := s.active.value;
    && t.active.None?
    && Answered(w, ConnectionOf(s, c), ConnectionOf(t, c), frame.requestId, FinishAnswer(w, before, frame, io), io)
    && (match FinishDefect(w, before, frame, io)
        case None =>
          && t.files == (s.files - {PartName(before.target)})[before.target := before.hashed]
          && t.published == s.published
               + [Publication(c, before.transferId, before.sha256, before.fileSize, before.target, before.hashed)]
          && t.setbacks == s.setbacks
        case Some(error) => GivenUp(w, s, c, frame.requestId, error, io, t))
  }

  lemma HandleFinishTakes(w: World, s: Server, c: Socket, frame: Frame, io: Io)
    requires Faithful(w) && IsOpen(s, c)
    requires Owns(s, c) && s.active.value.state != Finishing && s.active.value.target !in s.files
    requires var t := s.active.value; PartName(t.target) in s.files && s.files[PartName(t.target)] == t.hashed
    ensures FinishTaken(w, s, c, frame, io, HandleFinish(w, s, c, frame, io))
  {
    hide FailReceive, CleanupActiveTransfer, SendMessage, Rename, Answered, Faithful;
    var before := s.active.value;
    var finishing := s.(active := Some(before.(state := Finishing)));
    if FinishDefect(w, before, frame, io).Some? {
      FailGivesUp(w, s, c, frame.requestId, FinishDefect(w, before, frame, io).value, io);
      FinishingGivesUp(w, s, finishing, c, frame.requestId, FinishDefect(w, before, frame, io).value, io);
    }
    PublishOutcome(w, finishing, c, frame.requestId, io);
  }

  /** A finish publishes exactly the complete transfer whose hash and size are those offered; any other ends it. The answer says which. */
  lemma FinishDecision(w: World, initial: map<Name, Bytes>, s: Server, c: Socket, frame: Frame, io: Io)
    requires Faithful(w) && Inv(w, initial, s) && Owns(s, c) && frame.kind == FILE_FINISH
    ensures FinishTaken(w, s, c, frame, io, DispatchFrame(w, s, c, frame, io))
  {
    hide Inv, FinishTaken, HandleFinish, Faithful;
    OwnerMayAct(w, initial, s, c);
    HandleFinishTakes(w, s, c, frame, io);
  }

  lemma FinishingGivesUp(w: World, s: Server, finishing: Server, c: Socket, requestId: uint64, error: Error, io: Io)
    requires Faithful(w) && IsOpen(s, c)
    requires Owns(s, c) && finishing == s.(active := Some(s.active.value.(state := Finishing)))
    ensures GivenUp(w, s, c, requestId, error, io, FailReceive(w, finishing, c, requestId, error, io))
  {
    hide FailReceive, Answered, Faithful;
    FailGivesUp(w, finishing, c, requestId, error, io);
  }

  /** The offer is well formed and the directory is there and has no such file. */
  predicate MayClear(w: World, s: Server, frame: Frame, io: Io) {
    var m := Decode(w, frame);
    m.Success? && m.value.Offer? && io.directory && m.value.fileName !in s.files && !io.statFails
  }

  /** The offer can be taken: there is room for its target and the part file opens. */
  predicate MayBegin(w: World, s: Server, frame: Frame, io: Io) {
    MayClear(w, s, frame, io) && io.opens
  }

  /** The first thing that stands against an offer. */
  function OfferDefect(w: World, s: Server, frame: Frame, io: Io): (defect: Option<Error>)
    ensures defect.None? <==> s.active.None? && MayBegin(w, s, frame, io)
  {
    match Decode(w, frame)
    case Failure(e) => Some(e)
    case Success(m) =>
      if !m.Offer? then Some(BAD_PAYLOAD)
      else if s.active.Some? then Some(BUSY)
      else if !io.directory then Some(NO_DIRECTORY)
      else if m.fileName in s.files then Some(TARGET_EXISTS)
      else if io.statFails then Some(STAT_FAILED)
      else if !io.opens then Some(OPEN_FAILED)
      else None
  }

  /** The answer an offer calls for. */
  function OfferAnswer(w: World, s: Server, frame: Frame, io: Io): Message {
    var m := Decode(w, frame);
    var id := if m.Success? && m.value.Offer? then m.value.transferId else UNKNOWN_TRANSFER_ID;
    match OfferDefect(w, s, frame, io)
    case None => Accept(id)
    case Some(error) => Reject(id, error)
  }

  /** What becomes of an offer while no transfer is active: the part file, the transfer and nothing else. */
  predicate OfferTaken(w: World, s: Server, c: Socket, frame: Frame, io: Io, t: Server) {
    && (t.active.Some? <==> MayBegin(w, s, frame, io) && IsOpen(t, c))
    && t.published == s.published && t.setbacks == s.setbacks
    && (if MayClear(w, s, frame, io) then
          var m := Decode(w, frame).value;
          if t.active.Some? then
            && t.active.value
               == Transfer(Accepted, c, frame.requestId, m.transferId, m.sha256, m.fileSize, 0, m.fileName, [])
            && t.files == s.files[PartName(m.fileName) := []]
          else t.files == s.files - {PartName(m.fileName)}
        else t.files == s.files)
  }

  lemma BeginOutcome(w: World, s: Server, c: Socket, m: Message, requestId: uint64, io: Io)
    requires m.Offer? && IsOpen(s, c) && s.active.None? && io.opens
    ensures var part := PartName(m.fileName);
      var t := SendMessage(w, BeginReceive(Cleared(s, m.fileName), c, requestId, m, io).value, c, Accept(m.transferId), requestId, io);
      && (t.active.Some? <==> IsOpen(t, c)) && t.published == s.published && t.setbacks == s.setbacks
      && (if t.active.Some? then
            && t.active.value == Transfer(Accepted, c, requestId, m.transferId, m.sha256, m.fileSize, 0, m.fileName, [])
            && t.files == s.files[part := []]
          else t.files == s.files - {part})
  {
    hide Layout, Encodable;
    var part := PartName(m.fileName);
    assert (s.files - {part})[part := []] == s.files[part := []];
    assert s.files[part := []] - {part} == s.files - {part};
  }

  /** With no transfer active, an offer begins one exactly if it can be taken and the answer can be sent. */
  lemma OfferDecision(w: World, s: Server, c: Socket, frame: Frame, io: Io)
    requires IsOpen(s, c) && ConnectionOf(s, c).helloComplete && s.active.None? && frame.kind == FILE_OFFER
    ensures OfferTaken(w, s, c, frame, io, DispatchFrame(w, s, c, frame, io))
  {
    hide SendMessage;
    match Decode(w, frame)
    case Failure(e) => SendOutcome(w, s, c, Reject(UNKNOWN_TRANSFER_ID, e), frame.requestId, io);
    case Success(m) =>
      SendOutcome(w, s, c, Reject(UNKNOWN_TRANSFER_ID, BAD_PAYLOAD), frame.requestId, io);
      if m.Offer? {
        var valid := ValidateOfferTarget(s, m.fileName, io);
        if valid.Failure? {
          SendOutcome(w, s, c, Reject(m.transferId, valid.error), frame.requestId, io);
        } else if !io.opens {
          SendOutcome(w, Cleared(s, m.fileName), c, Reject(m.transferId, OPEN_FAILED), frame.requestId, io);
        } else {
          BeginOutcome(w, s, c, m, frame.requestId, io);
        }
      }
  }

  /** Every offer is answered: accepted if it can be taken, and otherwise rejected for the first thing against it. */
  lemma OfferIsAnswered(w: World, s: Server, c: Socket, frame: Frame, io: Io)
    requires Faithful(w) && IsOpen(s, c) && ConnectionOf(s, c).helloComplete && frame.kind == FILE_OFFER
    ensures Answered(w, ConnectionOf(s, c), ConnectionOf(DispatchFrame(w, s, c, frame, io), c), frame.requestId,
                     OfferAnswer(w, s, frame, io), io)
  {
    hide SendMessage, Answered, Faithful;
    var answer := OfferAnswer(w, s, frame, io);
    SendAnswers(w, s, c, frame.requestId, answer, io);
    var m := Decode(w, frame);
    if m.Success? && m.value.Offer? {
      var cleared := Cleared(s, m.value.fileName);
      SendAnswers(w, cleared, c, frame.requestId, answer, io);
      if io.opens {
        SendAnswers(w, BeginReceive(cleared, c, frame.requestId, m.value, io).value, c, frame.requestId, answer, io);
      }
    }
  }

  /** What a chunk or a finish is answered with if its sender owns no transfer. */
  function StrangerAnswer(w: World, frame: Frame): Message {
    if frame.kind == FILE_CHUNK then
      match DecodeChunk(frame.payload)
      case Failure(e) => FileResult(UNKNOWN_TRANSFER_ID, false, e)
      case Success(chunk) => FileResult(chunk.transferId, false, NOT_OWNER)
    else
      match Decode(w, frame)
      case Failure(e) => FileResult(UNKNOWN_TRANSFER_ID, false, e)
      case Success(m) =>
        if m.Finish? then FileResult(m.transferId, false, NOT_OWNER) else FileResult(UNKNOWN_TRANSFER_ID, false, BAD_PAYLOAD)
  }

  /** Who owns no transfer can neither feed nor finish one: it is told so and dismissed, and nothing else happens. */
  lemma StrangerDecision(w: World, s: Server, c: Socket, frame: Frame, io: Io)
    requires Faithful(w) && IsOpen(s, c) && ConnectionOf(s, c).helloComplete && !Owns(s, c)
    requires frame.kind == FILE_CHUNK || frame.kind == FILE_FINISH
    ensures var t := DispatchFrame(w, s, c, frame, io);
      && t.active == s.active && t.files == s.files && t.published == s.published && t.setbacks == s.setbacks
      && Dismissed(w, ConnectionOf(s, c), ConnectionOf(t, c), frame.requestId, StrangerAnswer(w, frame), io)
  {
    hide RejectConnectionReceive, Dismissed, DecodeChunk, Faithful;
    var answer := StrangerAnswer(w, frame);
    RejectLeaves(w, s, c, frame.requestId, answer.transferId, answer.error, io);
    RejectDismisses(w, s, c, frame.requestId, answer.transferId, answer.error, io);
  }

  /** Rejecting a connection that owns nothing leaves the transfer and the files alone. */
  lemma RejectLeaves(w: World, s: Server, c: Socket, requestId: uint64, id: Bytes, error: Error, io: Io)
    requires !Owns(s, c)
    ensures var t := RejectConnectionReceive(w, s, c, requestId, id, error, io);
      t.active == s.active && t.files == s.files && t.published == s.published && t.setbacks == s.setbacks
  {
    hide SendMessage;
    SendOutcome(w, s, c, FileResult(id, false, error), requestId, io);
  }

  /** The first hello of a connection that can be read is acknowledged, and the connection has then shaken hands. */
  lemma HelloDecision(w: World, s: Server, c: Socket, frame: Frame, io: Io)
    requires Faithful(w) && IsOpen(s, c) && !ConnectionOf(s, c).helloComplete
    requires frame.kind == HELLO && Decode(w, frame).Success?
    ensures var t := DispatchFrame(w, s, c, frame, io);
      && Answered(w, ConnectionOf(s, c), ConnectionOf(t, c), frame.requestId, HelloAck, io)
      && (IsOpen(t, c) ==> ConnectionOf(t, c).helloComplete)
  {
    hide SendMessage, Faithful, Carries;
    SendAnswers(w, WithConnection(s, c, ConnectionOf(s, c).(helloComplete := true)), c, frame.requestId, HelloAck, io);
  }

  /** A connection that is to be closed is closed once nothing is left over, as soon as the socket can be. */
  lemma ClosingDecision(s: Server, c: Socket, closes: bool)
    requires IsOpen(s, c)
    ensures var before := ConnectionOf(s, c);
      var t := HandleBytesWritten(s, c, closes);
      && (IsOpen(t, c) <==> !(before.remainder == [] && before.disconnectAfterWrite && closes))
      && (before.remainder != [] ==> ConnectionOf(t, c).flushScheduled)
  {}

  /** A flush hands on what the socket takes; the connection lasts unless it fails or is to be closed and nothing is left. */
  lemma FlushDecision(s: Server, c: Socket, connected: bool, io: Io)
    requires IsOpen(s, c)
    ensures var before := ConnectionOf(s, c);
      var t := FlushWriteRemainder(s, c, connected, io);
      var after := ConnectionOf(t, c);
      && (IsOpen(t, c) <==>
            && (before.remainder == [] || (connected && io.accepts >= 0))
            && !((before.remainder == [] || io.accepts >= |before.remainder|) && before.disconnectAfterWrite && io.closes))
      && (IsOpen(t, c) ==> (after.flushScheduled <==> after.remainder != []))
      && (IsOpen(t, c) ==> after.wire + after.remainder == before.wire + before.remainder)
  {
    hide RemoveConnection;
    var before := ConnectionOf(s, c);
    RemoveOutcome(s, c);
    if before.remainder != [] && io.accepts >= 0 {
      var accepted := BytesTaken(io.accepts, |before.remainder|);
      LeftOverMoves(s, c, accepted);
      RemoveOutcome(Flushed(s, c, accepted), c);
    }
  }

  /** The socket has taken so many bytes of what was left over. */
  function Flushed(s: Server, c: Socket, accepted: nat): Server
    requires accepted <= |ConnectionOf(s, c).remainder|
  {
    var before := ConnectionOf(s, c);
    WithConnection(s, c, before.(flushScheduled := accepted < |before.remainder|, remainder := before.remainder[accepted..],
                                 wire := before.wire + before.remainder[..accepted]))
  }

  lemma LeftOverMoves(s: Server, c: Socket, accepted: nat)
    requires accepted <= |ConnectionOf(s, c).remainder|
    ensures var before, after := ConnectionOf(s, c), ConnectionOf(Flushed(s, c, accepted), c);
      && after.open == before.open && after.wire + after.remainder == before.wire + before.remainder
      && (after.flushScheduled <==> after.remainder != []) && (after.remainder == [] <==> accepted == |before.remainder|)
  {
    var left := ConnectionOf(s, c).remainder;
    assert left[..accepted] + left[accepted..] == left;
  }

  /** A connection outlives a frame that is out of turn only in the ways the protocol has for it. */
  lemma OutOfTurnCloses(w: World, s: Server, c: Socket, frame: Frame, io: Io)
    requires IsOpen(s, c)
    requires if ConnectionOf(s, c).helloComplete
             then frame.kind != FILE_OFFER && frame.kind != FILE_CHUNK && frame.kind != FILE_FINISH
             else frame.kind != HELLO || Decode(w, frame).Failure?
    ensures !IsOpen(DispatchFrame(w, s, c, frame, io), c) && !Owns(DispatchFrame(w, s, c, frame, io), c)
  {
    hide SendMessage, HandleOffer, HandleChunk, HandleFinish;
  }
}
