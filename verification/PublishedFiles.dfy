/** What becomes of a file in the receive directory, a published one above all, as frames are handled. */
module PublishedFiles {
  import opened Bytes
  import opened ChunkCodec
  import opened FrameCodec
  import opened Messages
  import opened Results
  import opened TransferServer
  import opened ReceiverInvariant

  lemma OfBase(w: World, initial: map<Name, Bytes>, s: Server)
    requires Inv(w, initial, s)
    ensures Base(w, initial, s) && (s.active.Some? ==> PartName(s.active.value.target) in s.files)
  {
    hide Base;
  }

  datatype File = File(name: Name, content: Bytes)

  /** The file is there, is not the part file of the active transfer and holds the content. */
  predicate Holds(s: Server, f: File) {
    f.name in s.files && s.files[f.name] == f.content && !IsActivePart(s.active, f.name)
  }

  /** Handling the frame clears the name for a part file: an offer whose target passes every check, accepted or not. */
  predicate ClearsForPart(w: World, s: Server, c: Socket, frame: Frame, io: Io, n: Name) {
    && IsOpen(s, c) && ConnectionOf(s, c).helloComplete && frame.kind == FILE_OFFER
    && Decode(w, frame).Success? && Decode(w, frame).value.Offer?
    && ValidateOfferTarget(s, Decode(w, frame).value.fileName, io).Success?
    && PartName(Decode(w, frame).value.fileName) == n
  }

  lemma OfferSpares(w: World, initial: map<Name, Bytes>, s: Server, c: Socket, frame: Frame, io: Io, f: File)
    requires Faithful(w) && Inv(w, initial, s) && IsOpen(s, c) && ConnectionOf(s, c).helloComplete
    requires frame.kind == FILE_OFFER && Holds(s, f)
    ensures Holds(HandleOffer(w, s, c, frame, io), f) <==> !ClearsForPart(w, s, c, frame, io, f.name)
  {
    hide Inv, Base, SendMessage, PartMatches;
    OfBase(w, initial, s);
    match Decode(w, frame)
    case Failure(e) => SendMessageKeeps(w, initial, s, c, Reject(UNKNOWN_TRANSFER_ID, e), frame.requestId, io);
    case Success(m) =>
      if !m.Offer? {
        SendMessageKeeps(w, initial, s, c, Reject(UNKNOWN_TRANSFER_ID, BAD_PAYLOAD), frame.requestId, io);
      } else if ValidateOfferTarget(s, m.fileName, io).Failure? {
        SendMessageKeeps(w, initial, s, c, Reject(m.transferId, ValidateOfferTarget(s, m.fileName, io).error),
                         frame.requestId, io);
      } else {
        var cleared := Cleared(s, m.fileName);
        ClearKeeps(w, initial, s, m.fileName);
        OfBase(w, initial, cleared);
        if io.opens {
          BeginKeeps(w, initial, cleared, c, frame.requestId, m, io);
          var begun := BeginReceive(cleared, c, frame.requestId, m, io).value;
          OfBase(w, initial, begun);
          SendMessageKeeps(w, initial, begun, c, Accept(m.transferId), frame.requestId, io);
        } else {
          SendMessageKeeps(w, initial, cleared, c, Reject(m.transferId, OPEN_FAILED), frame.requestId, io);
        }
      }
  }

  lemma FailSpares(w: World, initial: map<Name, Bytes>, s: Server, c: Socket, requestId: uint64, error: Error, io: Io, f: File)
    requires Faithful(w) && Base(w, initial, s) && Holds(s, f)
    ensures Holds(FailReceive(w, s, c, requestId, error, io), f)
  {
    var id := if s.active.Some? then s.active.value.transferId else UNKNOWN_TRANSFER_ID;
    var noted := s.(setbacks := s.setbacks + [Setback(c, error)]);
    assert Base(w, initial, noted) by { hide StreamSound, ReportsDone, PublishedFor; }
    hide Base, SendMessage;
    SendMessageKeeps(w, initial, noted, c, FileResult(id, false, error), requestId, io);
  }

  lemma RejectSpares(w: World, initial: map<Name, Bytes>, s: Server, c: Socket, requestId: uint64, id: Bytes, error: Error,
                     io: Io, f: File)
    requires Faithful(w) && Base(w, initial, s) && Holds(s, f)
    ensures Holds(RejectConnectionReceive(w, s, c, requestId, id, error, io), f)
  {
    hide Base, SendMessage, DisconnectAfterPendingWrite;
    var m := FileResult(id, false, error);
    SendMessageKeeps(w, initial, s, c, m, requestId, io);
    DisconnectAfterKeeps(w, initial, SendMessage(w, s, c, m, requestId, io), c, io);
  }

  lemma StoreSpares(w: World, initial: map<Name, Bytes>, s: Server, c: Socket, requestId: uint64, data: Bytes, io: Io, f: File)
    requires Faithful(w) && Base(w, initial, s) && s.active.Some? && Holds(s, f) && PartName(s.active.value.target) in s.files
    ensures Holds(StoreChunk(w, s, c, requestId, data, io), f)
  {
    var part := PartName(s.active.value.target);
    var written := if io.writes < |data| then data[..io.writes] else data;
    var content := (if part in s.files then s.files[part] else []) + written;
    WriteKeepsBase(w, initial, s, content);
    hide Base, FailReceive;
    FailSpares(w, initial, s.(files := s.files[part := content]), c, requestId, WRITE_FAILED, io, f);
  }

  lemma ChunkSpares(w: World, initial: map<Name, Bytes>, s: Server, c: Socket, frame: Frame, io: Io, f: File)
    requires Faithful(w) && Base(w, initial, s) && Holds(s, f)
    requires s.active.Some? ==> PartName(s.active.value.target) in s.files
    ensures Holds(HandleChunk(w, s, c, frame, io), f)
  {
    hide Base, FailReceive, RejectConnectionReceive, StoreChunk, DecodeChunk;
    match DecodeChunk(frame.payload)
    case Failure(e) =>
      FailSpares(w, initial, s, c, frame.requestId, e, io, f);
      RejectSpares(w, initial, s, c, frame.requestId, UNKNOWN_TRANSFER_ID, e, io, f);
    case Success(chunk) =>
      RejectSpares(w, initial, s, c, frame.requestId, chunk.transferId, NOT_OWNER, io, f);
      FailSpares(w, initial, s, c, frame.requestId, WRONG_TRANSFER, io, f);
      FailSpares(w, initial, s, c, frame.requestId, WRONG_OFFSET, io, f);
      FailSpares(w, initial, s, c, frame.requestId, OFFSET_BEYOND_SIZE, io, f);
      FailSpares(w, initial, s, c, frame.requestId, BEYOND_SIZE, io, f);
      if s.active.Some? {
        StoreSpares(w, initial, s, c, frame.requestId, chunk.data, io, f);
      }
  }

  lemma PublishSpares(w: World, initial: map<Name, Bytes>, s: Server, c: Socket, requestId: uint64, io: Io, f: File)
    requires Faithful(w) && Base(w, initial, s) && Owns(s, c) && Holds(s, f)
    requires s.active.value.target !in s.files && PartName(s.active.value.target) in s.files
    requires var t := s.active.value;
      && s.files[PartName(t.target)] == t.hashed
      && |t.hashed| == t.fileSize && w.sha256(t.hashed) == t.sha256
    ensures var t := s.active.value;
      Holds(CleanupActiveTransfer(
        SendMessage(w, Rename(s, t), c, FileResult(t.transferId, true, NO_ERROR), requestId, io), false), f)
  {
    var t := s.active.value;
    hide Base, SendMessage;
    RenameKeeps(w, initial, s);
    SendMessageKeeps(w, initial, Rename(s, t), c, FileResult(t.transferId, true, NO_ERROR), requestId, io);
  }

  lemma CompleteSpares(w: World, initial: map<Name, Bytes>, s: Server, c: Socket, requestId: uint64, io: Io, f: File)
    requires Faithful(w) && Base(w, initial, s) && Owns(s, c) && Holds(s, f)
    requires var t := s.active.value;
      PartName(t.target) in s.files && s.files[PartName(t.target)] == t.hashed && |t.hashed| == t.offset
    ensures Holds(CompleteReceive(w, s, c, requestId, io), f)
  {
    var t := s.active.value;
    hide Base, FailReceive, SendMessage, Rename, CleanupActiveTransfer, Holds;
    FailSpares(w, initial, s, c, requestId, WRONG_SIZE, io, f);
    FailSpares(w, initial, s, c, requestId, FLUSH_FAILED, io, f);
    FailSpares(w, initial, s, c, requestId, WRONG_HASH, io, f);
    FailSpares(w, initial, s, c, requestId, RENAME_FAILED, io, f);
    if t.offset == t.fileSize && w.sha256(t.hashed) == t.sha256 && t.target !in s.files {
      PublishSpares(w, initial, s, c, requestId, io, f);
    }
  }

  lemma FinishSpares(w: World, initial: map<Name, Bytes>, s: Server, c: Socket, frame: Frame, io: Io, f: File)
    requires Faithful(w) && Inv(w, initial, s) && Holds(s, f)
    ensures Holds(HandleFinish(w, s, c, frame, io), f)
  {
    OfBase(w, initial, s);
    if Owns(s, c) {
      var finishing := s.active.value.(state := Finishing);
      AdvanceKeeps(w, initial, s, finishing);
      hide Base, CompleteReceive;
      CompleteSpares(w, initial, s.(active := Some(finishing)), c, frame.requestId, io, f);
    }
    hide Inv, Base, FailReceive, RejectConnectionReceive, CompleteReceive;
    match Decode(w, frame)
    case Failure(e) =>
      FailSpares(w, initial, s, c, frame.requestId, e, io, f);
      RejectSpares(w, initial, s, c, frame.requestId, UNKNOWN_TRANSFER_ID, e, io, f);
    case Success(m) =>
      FailSpares(w, initial, s, c, frame.requestId, BAD_PAYLOAD, io, f);
      FailSpares(w, initial, s, c, frame.requestId, WRONG_TRANSFER, io, f);
      RejectSpares(w, initial, s, c, frame.requestId, UNKNOWN_TRANSFER_ID, BAD_PAYLOAD, io, f);
      if m.Finish? {
        RejectSpares(w, initial, s, c, frame.requestId, m.transferId, NOT_OWNER, io, f);
      }
  }

  lemma RemoveSpares(w: World, initial: map<Name, Bytes>, s: Server, c: Socket, f: File)
    requires Base(w, initial, s) && Holds(s, f)
    ensures Holds(RemoveConnection(s, c), f)
  {
    hide Base, RemoveConnection;
    RemoveKeeps(w, initial, s, c);
  }

  lemma HelloSpares(w: World, initial: map<Name, Bytes>, s: Server, c: Socket, frame: Frame, io: Io, f: File)
    requires Faithful(w) && Inv(w, initial, s) && Holds(s, f)
    ensures Holds(HandleHello(w, s, c, frame, io), f)
  {
    hide Base, SendMessage, RemoveConnection;
    OfBase(w, initial, s);
    RemoveSpares(w, initial, s, c, f);
    if IsOpen(s, c) {
      GreetKeeps(w, initial, s, c);
      var greeted := WithConnection(s, c, ConnectionOf(s, c).(helloComplete := true));
      assert greeted.files == s.files && greeted.active == s.active;
      hide Inv, WithConnection;
      OfBase(w, initial, greeted);
      SendMessageKeeps(w, initial, greeted, c, HelloAck, frame.requestId, io);
    }
  }

  /**
   A file that is not the active part file, so in particular a published one, comes through the
   handling of a frame exactly when the frame is not an offer that takes its name. Whether that offer
   is then accepted or rejected makes no difference.
   */
  lemma FileSurvivesUnlessNameIsTaken(w: World, initial: map<Name, Bytes>, s: Server, c: Socket, frame: Frame, io: Io, f: File)
    requires Faithful(w) && Inv(w, initial, s) && Holds(s, f)
    ensures Holds(DispatchFrame(w, s, c, frame, io), f) <==> !ClearsForPart(w, s, c, frame, io, f.name)
  {
    hide Inv, Base, HandleHello, HandleOffer, HandleChunk, HandleFinish, RemoveConnection, Holds, ValidateOfferTarget;
    OfBase(w, initial, s);
    HelloSpares(w, initial, s, c, frame, io, f);
    RemoveSpares(w, initial, s, c, f);
    ChunkSpares(w, initial, s, c, frame, io, f);
    FinishSpares(w, initial, s, c, frame, io, f);
    if IsOpen(s, c) && ConnectionOf(s, c).helloComplete && frame.kind == FILE_OFFER {
      OfferSpares(w, initial, s, c, frame, io, f);
    }
  }

  /* ---------------------------------------------------------------- whole runs */

  /** The frames an event has handled, and the state in which the first of them is. */
  function FramesOf(s: Server, e: Event): seq<Frame> {
    if !e.Receive? || !IsOpen(s, e.c) then []
    else
      var frames := PushResult(ConnectionOf(s, e.c).buffer, e.bytes).0;
      if frames.Success? then frames.value else []
  }

  function Pushed(s: Server, e: Event): Server
    requires e.Receive?
  {
    WithConnection(s, e.c, ConnectionOf(s, e.c).(buffer := PushResult(ConnectionOf(s, e.c).buffer, e.bytes).1))
  }

  /** Some frame of the push takes the name, given what the frames before it did. */
  ghost predicate TakenAmong(w: World, s: Server, c: Socket, frames: seq<Frame>, ios: seq<Io>, n: Name) {
    exists k | 0 <= k < |frames| ::
      ClearsForPart(w, DispatchAll(w, s, c, frames[..k], ios), c, frames[k], IoAt(ios, k), n)
  }

  ghost predicate HeldAmong(w: World, s: Server, c: Socket, frames: seq<Frame>, ios: seq<Io>, f: File) {
    forall k :: 0 <= k <= |frames| ==> Holds(DispatchAll(w, s, c, frames[..k], ios), f)
  }

  ghost predicate TakenBy(w: World, s: Server, e: Event, n: Name) {
    e.Receive? && TakenAmong(w, Pushed(s, e), e.c, FramesOf(s, e), e.ios, n)
  }

  /** The file is there after the event and between any two frames it has handled. */
  ghost predicate HeldDuring(w: World, s: Server, e: Event, f: File) {
    Holds(Apply(w, s, e), f) && (e.Receive? ==> HeldAmong(w, Pushed(s, e), e.c, FramesOf(s, e), e.ios, f))
  }

  /** The run has an offer that takes the name. */
  ghost predicate TakenInRun(w: World, s: Server, es: seq<Event>, n: Name)
    decreases |es|
  {
    es != [] && (TakenBy(w, s, es[0], n) || TakenInRun(w, Apply(w, s, es[0]), es[1..], n))
  }

  ghost predicate HeldThroughout(w: World, s: Server, es: seq<Event>, f: File)
    decreases |es|
  {
    es == [] || (HeldDuring(w, s, es[0], f) && HeldThroughout(w, Apply(w, s, es[0]), es[1..], f))
  }

  lemma {:induction false} HeldUpTo(w: World, initial: map<Name, Bytes>, s: Server, c: Socket, frames: seq<Frame>, ios: seq<Io>,
                                    f: File, k: nat)
    requires Faithful(w) && Inv(w, initial, s) && Holds(s, f) && k <= |frames|
    requires !TakenAmong(w, s, c, frames, ios, f.name)
    ensures Holds(DispatchAll(w, s, c, frames[..k], ios), f)
  {
    hide Inv, DispatchFrame, ClearsForPart, Holds;
    if k > 0 {
      HeldUpTo(w, initial, s, c, frames, ios, f, k - 1);
      assert frames[..k][..k - 1] == frames[..k - 1];
      var before := DispatchAll(w, s, c, frames[..k - 1], ios);
      DispatchAllKeeps(w, initial, s, c, frames[..k - 1], ios);
      FileSurvivesUnlessNameIsTaken(w, initial, before, c, frames[k - 1], IoAt(ios, k - 1), f);
    }
  }

  lemma HeldAmongUnlessTaken(w: World, initial: map<Name, Bytes>, s: Server, c: Socket, frames: seq<Frame>, ios: seq<Io>, f: File)
    requires Faithful(w) && Inv(w, initial, s) && Holds(s, f)
    ensures HeldAmong(w, s, c, frames, ios, f) <==> !TakenAmong(w, s, c, frames, ios, f.name)
  {
    hide Inv, DispatchFrame, ClearsForPart, Holds;
    if !TakenAmong(w, s, c, frames, ios, f.name) {
      forall k | 0 <= k <= |frames| ensures Holds(DispatchAll(w, s, c, frames[..k], ios), f) {
        HeldUpTo(w, initial, s, c, frames, ios, f, k);
      }
    } else {
      var k :| 0 <= k < |frames|
        && ClearsForPart(w, DispatchAll(w, s, c, frames[..k], ios), c, frames[k], IoAt(ios, k), f.name);
      if HeldAmong(w, s, c, frames, ios, f) {
        assert frames[..k + 1][..k] == frames[..k];
        assert Holds(DispatchAll(w, s, c, frames[..k + 1], ios), f);
        DispatchAllKeeps(w, initial, s, c, frames[..k], ios);
        FileSurvivesUnlessNameIsTaken(w, initial, DispatchAll(w, s, c, frames[..k], ios), c, frames[k], IoAt(ios, k), f);
        assert false;
      }
    }
  }

  lemma QuietEventHolds(w: World, s: Server, e: Event, f: File)
    requires Holds(s, f) && !e.Receive?
    ensures Holds(Apply(w, s, e), f)
  {}

  lemma ReceiveHolds(w: World, initial: map<Name, Bytes>, s: Server, e: Event, f: File)
    requires Faithful(w) && Inv(w, initial, s) && Holds(s, f) && e.Receive?
    ensures HeldDuring(w, s, e, f) <==> !TakenBy(w, s, e, f.name)
  {
    hide Inv, PushResult, DispatchAll, TakenAmong;
    if IsOpen(s, e.c) {
      var conn := ConnectionOf(s, e.c);
      var (frames, rest) := PushResult(conn.buffer, e.bytes);
      KnownStream(w, initial, s, e.c);
      MoveKeeps(w, initial, s, e.c, conn.(buffer := rest));
      HeldAmongUnlessTaken(w, initial, Pushed(s, e), e.c, FramesOf(s, e), e.ios, f);
      assert FramesOf(s, e)[..|FramesOf(s, e)|] == FramesOf(s, e);
    } else {
      NothingTaken(w, Pushed(s, e), e.c, e.ios, f);
    }
  }

  lemma NothingTaken(w: World, s: Server, c: Socket, ios: seq<Io>, f: File)
    requires Holds(s, f)
    ensures HeldAmong(w, s, c, [], ios, f) && !TakenAmong(w, s, c, [], ios, f.name)
  {}

  lemma EventHolds(w: World, initial: map<Name, Bytes>, s: Server, e: Event, f: File)
    requires Faithful(w) && Inv(w, initial, s) && Holds(s, f)
    ensures HeldDuring(w, s, e, f) <==> !TakenBy(w, s, e, f.name)
  {
    if e.Receive? {
      ReceiveHolds(w, initial, s, e, f);
    } else {
      QuietEventHolds(w, s, e, f);
    }
  }

  /** A file other than the active part file is there throughout a run exactly if no offer in the run takes its name. */
  lemma {:induction false} FileSurvivesRun(w: World, initial: map<Name, Bytes>, s: Server, es: seq<Event>, f: File)
    requires Faithful(w) && Inv(w, initial, s) && Holds(s, f)
    ensures HeldThroughout(w, s, es, f) <==> !TakenInRun(w, s, es, f.name)
    decreases |es|
  {
    if es != [] {
      hide Inv, Apply, TakenBy, Holds;
      EventHolds(w, initial, s, es[0], f);
      InvStep(w, initial, s, es[0]);
      if HeldDuring(w, s, es[0], f) {
        FileSurvivesRun(w, initial, Apply(w, s, es[0]), es[1..], f);
      }
    }
  }
}
