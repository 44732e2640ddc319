/**
 The receiving end facing an honest sender: after each frame of the script the part file holds the
 source up to the expected offset, and nothing but its own file system can make the transfer fail.
 */
module HonestReceiver {
  import opened Bytes
  import opened ChunkCodec
  import opened FrameCodec
  import opened Messages
  import opened Results
  import opened TransferServer
  import opened ReceiverInvariant
  import Client = TransferClient
  import Sending = SenderInvariant

  /* ---------------------------------------------------------------- steps that do not concern a connection */

  /** For connection me nothing happened but perhaps the loss of its transfer or connection. */
  ghost predicate Calm(s: Server, t: Server, me: Socket) {
    && (forall p :: p in t.published && p.owner == me ==> p in s.published)
    && (forall x :: x in t.setbacks && x.owner == me ==> x in s.setbacks)
    && (Owns(t, me) ==> t.active == s.active)
    && (me in s.connections ==> me in t.connections)
    && (IsOpen(t, me) ==>
          IsOpen(s, me) && ConnectionOf(t, me).helloComplete == ConnectionOf(s, me).helloComplete)
  }

  lemma CalmTwice(s: Server, t: Server, u: Server, me: Socket)
    requires Calm(s, t, me) && Calm(t, u, me)
    ensures Calm(s, u, me)
  {}

  lemma RemoveCalm(s: Server, c: Socket, me: Socket)
    ensures Calm(s, RemoveConnection(s, c), me)
  {}

  lemma SendCalm(w: World, s: Server, c: Socket, m: Message, requestId: uint64, io: Io, me: Socket)
    ensures Calm(s, SendMessage(w, s, c, m, requestId, io), me)
  {
    hide Layout, Encodable, RemoveConnection;
    RemoveCalm(s, c, me);
  }

  lemma CleanupCalm(s: Server, removePart: bool, me: Socket)
    ensures Calm(s, CleanupActiveTransfer(s, removePart), me)
  {}

  lemma FailCalm(w: World, s: Server, c: Socket, requestId: uint64, error: Error, io: Io, me: Socket)
    requires c != me
    ensures Calm(s, FailReceive(w, s, c, requestId, error, io), me)
  {
    hide SendMessage, CleanupActiveTransfer;
    var id := if s.active.Some? then s.active.value.transferId else UNKNOWN_TRANSFER_ID;
    var noted := s.(setbacks := s.setbacks + [Setback(c, error)]);
    assert Calm(s, noted, me);
    SendCalm(w, noted, c, FileResult(id, false, error), requestId, io, me);
    var told := SendMessage(w, noted, c, FileResult(id, false, error), requestId, io);
    CleanupCalm(told, true, me);
    hide Calm;
    CalmTwice(s, noted, told, me);
    CalmTwice(s, told, CleanupActiveTransfer(told, true), me);
  }

  lemma RejectCalm(w: World, s: Server, c: Socket, requestId: uint64, id: Bytes, error: Error, io: Io, me: Socket)
    ensures Calm(s, RejectConnectionReceive(w, s, c, requestId, id, error, io), me)
  {
    var m := FileResult(id, false, error);
    SendCalm(w, s, c, m, requestId, io, me);
    hide SendMessage, RemoveConnection;
    var told := SendMessage(w, s, c, m, requestId, io);
    RemoveCalm(told, c, me);
    var conn := ConnectionOf(told, c);
    if conn.open && conn.remainder != [] {
      assert Calm(told, WithConnection(told, c, conn.(disconnectAfterWrite := true)), me);
    }
    hide Calm;
    CalmTwice(s, told, DisconnectAfterPendingWrite(told, c, io), me) by {
      assert Calm(told, told, me) by { SelfCalm(told, me); }
    }
  }

  lemma SelfCalm(s: Server, me: Socket)
    ensures Calm(s, s, me)
  {}

  lemma OfferCalm(w: World, s: Server, c: Socket, frame: Frame, io: Io, me: Socket)
    requires c != me
    ensures Calm(s, HandleOffer(w, s, c, frame, io), me)
  {
    hide SendMessage;
    match Decode(w, frame)
    case Failure(e) => SendCalm(w, s, c, Reject(UNKNOWN_TRANSFER_ID, e), frame.requestId, io, me);
    case Success(m) =>
      SendCalm(w, s, c, Reject(UNKNOWN_TRANSFER_ID, BAD_PAYLOAD), frame.requestId, io, me);
      if m.Offer? {
        var valid := ValidateOfferTarget(s, m.fileName, io);
        if valid.Failure? {
          SendCalm(w, s, c, Reject(m.transferId, valid.error), frame.requestId, io, me);
        } else {
          BeginCalm(w, s, c, m, frame.requestId, io, me);
        }
      }
  }

  lemma BeginCalm(w: World, s: Server, c: Socket, m: Message, requestId: uint64, io: Io, me: Socket)
    requires c != me && m.Offer?
    ensures var cleared := Cleared(s, m.fileName);
      match BeginReceive(cleared, c, requestId, m, io)
      case Failure(e) => Calm(s, SendMessage(w, cleared, c, Reject(m.transferId, e), requestId, io), me)
      case Success(begun) => Calm(s, SendMessage(w, begun, c, Accept(m.transferId), requestId, io), me)
  {
    hide SendMessage;
    var cleared := Cleared(s, m.fileName);
    assert Calm(s, cleared, me);
    if io.opens {
      var begun := BeginReceive(cleared, c, requestId, m, io).value;
      assert Calm(s, begun, me);
      SendCalm(w, begun, c, Accept(m.transferId), requestId, io, me);
      hide Calm;
      CalmTwice(s, begun, SendMessage(w, begun, c, Accept(m.transferId), requestId, io), me);
    } else {
      SendCalm(w, cleared, c, Reject(m.transferId, OPEN_FAILED), requestId, io, me);
      hide Calm;
      CalmTwice(s, cleared, SendMessage(w, cleared, c, Reject(m.transferId, OPEN_FAILED), requestId, io), me);
    }
  }

  lemma StoreCalm(w: World, s: Server, c: Socket, requestId: uint64, data: Bytes, io: Io, me: Socket)
    requires c != me && Owns(s, c)
    ensures Calm(s, StoreChunk(w, s, c, requestId, data, io), me)
  {
    hide FailReceive;
    var part := PartName(s.active.value.target);
    var written := if io.writes < |data| then data[..io.writes] else data;
    var stored := s.(files := s.files[part := (if part in s.files then s.files[part] else []) + written]);
    assert Calm(s, stored, me);
    FailCalm(w, stored, c, requestId, WRITE_FAILED, io, me);
    if |written| != |data| {
      hide Calm;
      CalmTwice(s, stored, FailReceive(w, stored, c, requestId, WRITE_FAILED, io), me);
    }
  }

  lemma ChunkCalm(w: World, s: Server, c: Socket, frame: Frame, io: Io, me: Socket)
    requires c != me
    ensures Calm(s, HandleChunk(w, s, c, frame, io), me)
  {
    hide Calm, FailReceive, RejectConnectionReceive, StoreChunk, DecodeChunk;
    match DecodeChunk(frame.payload)
    case Failure(e) =>
      FailCalm(w, s, c, frame.requestId, e, io, me);
      RejectCalm(w, s, c, frame.requestId, UNKNOWN_TRANSFER_ID, e, io, me);
    case Success(chunk) =>
      RejectCalm(w, s, c, frame.requestId, chunk.transferId, NOT_OWNER, io, me);
      FailCalm(w, s, c, frame.requestId, WRONG_TRANSFER, io, me);
      FailCalm(w, s, c, frame.requestId, WRONG_OFFSET, io, me);
      FailCalm(w, s, c, frame.requestId, OFFSET_BEYOND_SIZE, io, me);
      FailCalm(w, s, c, frame.requestId, BEYOND_SIZE, io, me);
      if Owns(s, c) {
        StoreCalm(w, s, c, frame.requestId, chunk.data, io, me);
      }
  }

  lemma CompleteCalm(w: World, s: Server, c: Socket, requestId: uint64, io: Io, me: Socket)
    requires c != me && Owns(s, c)
    ensures Calm(s, CompleteReceive(w, s, c, requestId, io), me)
  {
    hide FailReceive, SendMessage, CleanupActiveTransfer;
    var t := s.active.value;
    FailCalm(w, s, c, requestId, WRONG_SIZE, io, me);
    FailCalm(w, s, c, requestId, FLUSH_FAILED, io, me);
    FailCalm(w, s, c, requestId, WRONG_HASH, io, me);
    FailCalm(w, s, c, requestId, RENAME_FAILED, io, me);
    var renamed := Rename(s, t);
    assert Calm(s, renamed, me);
    var m := FileResult(t.transferId, true, NO_ERROR);
    SendCalm(w, renamed, c, m, requestId, io, me);
    var told := SendMessage(w, renamed, c, m, requestId, io);
    CleanupCalm(told, false, me);
    hide Calm, Rename;
    CalmTwice(s, renamed, told, me);
    CalmTwice(s, told, CleanupActiveTransfer(told, false), me);
  }

  lemma FinishCalm(w: World, s: Server, c: Socket, frame: Frame, io: Io, me: Socket)
    requires c != me
    ensures Calm(s, HandleFinish(w, s, c, frame, io), me)
  {
    if Owns(s, c) {
      hide CompleteReceive;
      var finishing := s.(active := Some(s.active.value.(state := Finishing)));
      assert Calm(s, finishing, me);
      CompleteCalm(w, finishing, c, frame.requestId, io, me);
      CalmTwice(s, finishing, CompleteReceive(w, finishing, c, frame.requestId, io), me);
    }
    hide Calm, FailReceive, RejectConnectionReceive, CompleteReceive;
    match Decode(w, frame)
    case Failure(e) =>
      FailCalm(w, s, c, frame.requestId, e, io, me);
      RejectCalm(w, s, c, frame.requestId, UNKNOWN_TRANSFER_ID, e, io, me);
    case Success(m) =>
      FailCalm(w, s, c, frame.requestId, BAD_PAYLOAD, io, me);
      FailCalm(w, s, c, frame.requestId, WRONG_TRANSFER, io, me);
      RejectCalm(w, s, c, frame.requestId, UNKNOWN_TRANSFER_ID, BAD_PAYLOAD, io, me);
      if m.Finish? {
        RejectCalm(w, s, c, frame.requestId, m.transferId, NOT_OWNER, io, me);
      }
  }

  lemma HelloCalm(w: World, s: Server, c: Socket, frame: Frame, io: Io, me: Socket)
    requires c != me
    ensures Calm(s, HandleHello(w, s, c, frame, io), me)
  {
    hide SendMessage, RemoveConnection;
    RemoveCalm(s, c, me);
    var greeted := WithConnection(s, c, ConnectionOf(s, c).(helloComplete := true));
    assert Calm(s, greeted, me);
    SendCalm(w, greeted, c, HelloAck, frame.requestId, io, me);
    hide Calm, WithConnection;
    CalmTwice(s, greeted, SendMessage(w, greeted, c, HelloAck, frame.requestId, io), me);
  }

  lemma DispatchCalm(w: World, s: Server, c: Socket, frame: Frame, io: Io, me: Socket)
    requires c != me
    ensures Calm(s, DispatchFrame(w, s, c, frame, io), me)
  {
    hide Calm, HandleHello, HandleOffer, HandleChunk, HandleFinish, RemoveConnection;
    SelfCalm(s, me);
    RemoveCalm(s, c, me);
    HelloCalm(w, s, c, frame, io, me);
    OfferCalm(w, s, c, frame, io, me);
    ChunkCalm(w, s, c, frame, io, me);
    FinishCalm(w, s, c, frame, io, me);
  }

  lemma {:induction false} DispatchAllCalm(w: World, s: Server, c: Socket, frames: seq<Frame>, ios: seq<Io>, me: Socket)
    requires c != me
    ensures Calm(s, DispatchAll(w, s, c, frames, ios), me)
    decreases |frames|
  {
    hide Calm, DispatchFrame;
    if frames == [] {
      SelfCalm(s, me);
    } else {
      var before := frames[..|frames| - 1];
      var t := DispatchAll(w, s, c, before, ios);
      DispatchAllCalm(w, s, c, before, ios, me);
      DispatchCalm(w, t, c, frames[|frames| - 1], IoAt(ios, |frames| - 1), me);
      CalmTwice(s, t, DispatchFrame(w, t, c, frames[|frames| - 1], IoAt(ios, |frames| - 1)), me);
    }
  }

  lemma ReceiveCalm(w: World, s: Server, c: Socket, bytes: Bytes, ios: seq<Io>, me: Socket)
    requires c != me
    ensures Calm(s, HandleReadyRead(w, s, c, bytes, ios), me)
  {
    hide DispatchAll, PushResult, RemoveConnection;
    SelfCalm(s, me);
    var conn := ConnectionOf(s, c);
    if conn.open {
      var (frames, rest) := PushResult(conn.buffer, bytes);
      var pushed := WithConnection(s, c, conn.(buffer := rest));
      assert Calm(s, pushed, me);
      RemoveCalm(pushed, c, me);
      if frames.Success? {
        DispatchAllCalm(w, pushed, c, frames.value, ios, me);
        CalmTwice(s, pushed, DispatchAll(w, pushed, c, frames.value, ios), me);
      } else {
        CalmTwice(s, pushed, RemoveConnection(pushed, c), me);
      }
    }
  }

  lemma FlushCalm(s: Server, c: Socket, connected: bool, io: Io, me: Socket)
    ensures Calm(s, FlushWriteRemainder(s, c, connected, io), me)
  {
    hide RemoveConnection;
    SelfCalm(s, me);
    RemoveCalm(s, c, me);
    var conn := ConnectionOf(s, c);
    var accepted := BytesTaken(io.accepts, |conn.remainder|);
    if conn.open && conn.remainder != [] && accepted >= 0 {
      var flushed := WithConnection(s, c, conn.(
          flushScheduled := accepted < |conn.remainder|,
          remainder := conn.remainder[accepted..],
          wire := conn.wire + conn.remainder[..accepted]));
      assert Calm(s, flushed, me);
      RemoveCalm(flushed, c, me);
      CalmTwice(s, flushed, RemoveConnection(flushed, c), me);
    }
  }

  /** Every event but the arrival of bytes on connection me. */
  lemma EventCalm(w: World, s: Server, e: Event, me: Socket)
    requires !(e.Receive? && e.c == me) && me in s.connections
    ensures Calm(s, Apply(w, s, e), me)
  {
    hide HandleReadyRead, FlushWriteRemainder, RemoveConnection;
    match e
    case Connect(c) =>
    case Receive(c, bytes, ios) => ReceiveCalm(w, s, c, bytes, ios, me);
    case BytesWritten(c, closes) => RemoveCalm(s, c, me);
    case FlushFires(c, connected, io) => FlushCalm(s, c, connected, io, me);
    case Disconnected(c) => RemoveCalm(s, c, me);
    case Close =>
  }

  /* ---------------------------------------------------------------- the script of an honest sender */

  /** How far n chunks reach into the source. */
  function Reached(source: Bytes, n: nat): (r: nat)
    ensures r <= |source|
  {
    if n * Client.CHUNK_SIZE < |source| then n * Client.CHUNK_SIZE else |source|
  }

  /** The transfer has received what k frames of the script carry. */
  predicate Receives(w: World, job: Client.Job, id: Bytes, t: Transfer, k: nat) {
    && k >= 2 && t.transferId == id && t.sha256 == w.sha256(job.source)
    && t.fileSize == |job.source| < Client.WORD && t.target == job.fileName
    && t.offset == Reached(job.source, k - 2) && t.hashed == job.source[..t.offset]
  }

  predicate Delivers(job: Client.Job, id: Bytes, p: Publication) {
    p.transferId == id && p.target == job.fileName && p.content == job.source
  }

  /** Where connection me stands after k frames of the script. */
  ghost predicate Follows(w: World, job: Client.Job, id: Bytes, s: Server, me: Socket, k: nat) {
    && me in s.connections
    && (IsOpen(s, me) ==> (ConnectionOf(s, me).helloComplete <==> k >= 1))
    && (Owns(s, me) ==> Receives(w, job, id, s.active.value, k))
    && (forall p :: p in s.published && p.owner == me ==> k >= 2 && Delivers(job, id, p))
    && (forall x :: x in s.setbacks && x.owner == me ==> x.error.code == IoError)
  }

  /** The frame comes at place k of the script. */
  predicate FrameAt(w: World, job: Client.Job, id: Bytes, f: Frame, k: nat) {
    && (k == 0 ==> Sending.IsMessage(w, f, Hello))
    && (k == 1 ==> Sending.IsMessage(w, f, Client.OfferFor(w, job, id)))
    && (k >= 2 ==>
          || Sending.IsChunk(job, id, f, k - 2)
          || ((k - 2) * Client.CHUNK_SIZE >= |job.source| && Sending.IsMessage(w, f, Finish(id))))
  }

  lemma CalmFollows(w: World, job: Client.Job, id: Bytes, s: Server, t: Server, me: Socket, k: nat)
    requires Calm(s, t, me) && Follows(w, job, id, s, me, k)
    ensures Follows(w, job, id, t, me, k)
  {
    hide Receives, Delivers;
  }

  /** Where me stands when its connection or its transfer is gone, whatever comes next. */
  lemma LaterFollows(w: World, job: Client.Job, id: Bytes, s: Server, me: Socket, k: nat, later: nat)
    requires Follows(w, job, id, s, me, k) && !Owns(s, me) && k <= later
    requires IsOpen(s, me) ==> (k >= 1 <==> later >= 1)
    ensures Follows(w, job, id, s, me, later)
  {
    hide Receives, Delivers;
  }

  /* ---------------------------------------------------------------- one frame of the script */

  lemma HonestHello(w: World, job: Client.Job, id: Bytes, s: Server, me: Socket, frame: Frame, io: Io)
    requires Faithful(w) && Follows(w, job, id, s, me, 0) && IsOpen(s, me) && Sending.IsMessage(w, frame, Hello)
    ensures Follows(w, job, id, HandleHello(w, s, me, frame, io), me, 1)
  {
    hide SendMessage, RemoveConnection, Delivers;
    DecodeWhatWasSent(w, Hello, frame.requestId);
    RemoveCalm(s, me, me);
    var removed := RemoveConnection(s, me);
    RemovedIsClosed(s, me);
    CalmFollows(w, job, id, s, removed, me, 0);
    LaterFollows(w, job, id, removed, me, 0, 1);
    var greeted := WithConnection(s, me, ConnectionOf(s, me).(helloComplete := true));
    assert Follows(w, job, id, greeted, me, 1);
    SendCalm(w, greeted, me, HelloAck, frame.requestId, io, me);
    hide Follows, Calm, WithConnection;
    CalmFollows(w, job, id, greeted, SendMessage(w, greeted, me, HelloAck, frame.requestId, io), me, 1);
  }

  lemma RemovedIsClosed(s: Server, c: Socket)
    ensures !IsOpen(RemoveConnection(s, c), c) && !Owns(RemoveConnection(s, c), c)
  {}

  lemma SentFollows(w: World, job: Client.Job, id: Bytes, s: Server, me: Socket, m: Message, requestId: uint64, io: Io, k: nat)
    requires Follows(w, job, id, s, me, k)
    ensures Follows(w, job, id, SendMessage(w, s, me, m, requestId, io), me, k)
  {
    hide Follows, Calm, SendMessage;
    SendCalm(w, s, me, m, requestId, io, me);
    CalmFollows(w, job, id, s, SendMessage(w, s, me, m, requestId, io), me, k);
  }

  lemma HonestOffer(w: World, job: Client.Job, id: Bytes, s: Server, me: Socket, frame: Frame, io: Io)
    requires Faithful(w) && |job.source| < Client.WORD && Follows(w, job, id, s, me, 1)
    requires Sending.IsMessage(w, frame, Client.OfferFor(w, job, id))
    ensures Follows(w, job, id, HandleOffer(w, s, me, frame, io), me, 2)
  {
    var m := Client.OfferFor(w, job, id);
    DecodeWhatWasSent(w, m, frame.requestId);
    hide SendMessage, Delivers;
    assert Follows(w, job, id, s, me, 2);
    var valid := ValidateOfferTarget(s, m.fileName, io);
    if valid.Failure? {
      SentFollows(w, job, id, s, me, Reject(id, valid.error), frame.requestId, io, 2);
    } else {
      var cleared := Cleared(s, m.fileName);
      assert Follows(w, job, id, cleared, me, 2);
      if io.opens {
        var begun := BeginReceive(cleared, me, frame.requestId, m, io).value;
        assert Receives(w, job, id, begun.active.value, 2);
        assert Follows(w, job, id, begun, me, 2);
        SentFollows(w, job, id, begun, me, Accept(id), frame.requestId, io, 2);
      } else {
        SentFollows(w, job, id, cleared, me, Reject(id, OPEN_FAILED), frame.requestId, io, 2);
      }
    }
  }

  /** The file system failed the transfer; the connection is where it was without one. */
  lemma FailFollows(w: World, job: Client.Job, id: Bytes, s: Server, me: Socket, requestId: uint64, error: Error, io: Io, k: nat)
    requires k >= 1 && error.code == IoError && Follows(w, job, id, s.(active := None), me, k)
    ensures Follows(w, job, id, FailReceive(w, s, me, requestId, error, io), me, k + 1)
  {
    hide SendMessage, Delivers, Receives;
    var tid := if s.active.Some? then s.active.value.transferId else UNKNOWN_TRANSFER_ID;
    var noted := s.(setbacks := s.setbacks + [Setback(me, error)]);
    var m := FileResult(tid, false, error);
    SendCalm(w, noted, me, m, requestId, io, me);
    var told := SendMessage(w, noted, me, m, requestId, io);
    CleanupCalm(told, true, me);
    var ended := CleanupActiveTransfer(told, true);
    CalmTwice(noted, told, ended, me);
    assert ended.active.None?;
    assert Calm(noted.(active := None), ended, me);
    assert Follows(w, job, id, noted.(active := None), me, k);
    hide Calm, CleanupActiveTransfer;
    CalmFollows(w, job, id, noted.(active := None), ended, me, k);
    LaterFollows(w, job, id, ended, me, k, k + 1);
  }

  lemma WithoutTransfer(w: World, job: Client.Job, id: Bytes, s: Server, me: Socket, k: nat)
    requires Follows(w, job, id, s, me, k)
    ensures Follows(w, job, id, s.(active := None), me, k)
  {
    hide Receives, Delivers;
  }

  lemma RejectFollows(w: World, job: Client.Job, id: Bytes, s: Server, me: Socket, requestId: uint64, tid: Bytes,
                      error: Error, io: Io, k: nat)
    requires k >= 1 && Follows(w, job, id, s, me, k) && !Owns(s, me)
    ensures Follows(w, job, id, RejectConnectionReceive(w, s, me, requestId, tid, error, io), me, k + 1)
  {
    hide RejectConnectionReceive, Receives, Delivers;
    RejectCalm(w, s, me, requestId, tid, error, io, me);
    var t := RejectConnectionReceive(w, s, me, requestId, tid, error, io);
    CalmFollows(w, job, id, s, t, me, k);
    LaterFollows(w, job, id, t, me, k, k + 1);
  }

  lemma HonestStore(w: World, job: Client.Job, id: Bytes, s: Server, me: Socket, requestId: uint64, io: Io, k: nat)
    requires k >= 2 && Follows(w, job, id, s, me, k) && Owns(s, me)
    requires (k - 2) * Client.CHUNK_SIZE < |job.source|
    ensures var data := Client.ReadAt(job.source, (k - 2) * Client.CHUNK_SIZE);
      Follows(w, job, id, StoreChunk(w, s, me, requestId, data, io), me, k + 1)
  {
    hide FailReceive, Delivers;
    var n := k - 2;
    var data := Client.ReadAt(job.source, n * Client.CHUNK_SIZE);
    Sending.ReadLength(job.source, n);
    var t := s.active.value;
    var part := PartName(t.target);
    var written := if io.writes < |data| then data[..io.writes] else data;
    var stored := s.(files := s.files[part := (if part in s.files then s.files[part] else []) + written]);
    if |written| != |data| {
      WithoutTransfer(w, job, id, stored, me, k);
      FailFollows(w, job, id, stored, me, requestId, WRITE_FAILED, io, k);
    } else {
      var next := t.(hashed := t.hashed + data, offset := t.offset + |data|, state := Receiving);
      assert next.offset == Reached(job.source, n + 1);
      assert job.source[..t.offset] + data == job.source[..next.offset];
      assert Receives(w, job, id, next, k + 1);
    }
  }

  lemma HonestChunk(w: World, initial: map<Name, Bytes>, job: Client.Job, id: Bytes, s: Server, me: Socket, frame: Frame,
                    io: Io, k: nat)
    requires Inv(w, initial, s) && k >= 2 && Follows(w, job, id, s, me, k) && Sending.IsChunk(job, id, frame, k - 2)
    ensures Follows(w, job, id, HandleChunk(w, s, me, frame, io), me, k + 1)
  {
    var n := k - 2;
    var data := Client.ReadAt(job.source, n * Client.CHUNK_SIZE);
    if Owns(s, me) {
      assert s.active.value.state != Finishing by { hide Base; }
      hide Inv, StoreChunk, FailReceive, RejectConnectionReceive, DecodeChunk;
      Sending.ReadLength(job.source, n);
      HonestStore(w, job, id, s, me, frame.requestId, io, k);
      hide Follows, Client.ReadAt;
    } else {
      hide Inv, Follows, StoreChunk, FailReceive, RejectConnectionReceive, DecodeChunk;
      RejectFollows(w, job, id, s, me, frame.requestId, id, NOT_OWNER, io, k);
    }
  }

  lemma HonestPublish(w: World, job: Client.Job, id: Bytes, s: Server, me: Socket, requestId: uint64, io: Io, k: nat)
    requires k >= 2 && Follows(w, job, id, s, me, k) && Owns(s, me)
    requires PartName(s.active.value.target) in s.files && s.files[PartName(s.active.value.target)] == job.source
    ensures var t := s.active.value;
      Follows(w, job, id, CleanupActiveTransfer(
        SendMessage(w, Rename(s, t), me, FileResult(t.transferId, true, NO_ERROR), requestId, io), false), me, k + 1)
  {
    hide SendMessage;
    var t := s.active.value;
    var renamed := Rename(s, t);
    var m := FileResult(t.transferId, true, NO_ERROR);
    assert Follows(w, job, id, renamed, me, k);
    SendCalm(w, renamed, me, m, requestId, io, me);
    var told := SendMessage(w, renamed, me, m, requestId, io);
    CleanupCalm(told, false, me);
    var ended := CleanupActiveTransfer(told, false);
    assert ended.active.None?;
    hide Follows, Calm, CleanupActiveTransfer, Rename;
    CalmTwice(renamed, told, ended, me);
    CalmFollows(w, job, id, renamed, ended, me, k);
    LaterFollows(w, job, id, ended, me, k, k + 1);
  }

  lemma HonestComplete(w: World, job: Client.Job, id: Bytes, s: Server, me: Socket, requestId: uint64, io: Io, k: nat)
    requires k >= 2 && Follows(w, job, id, s, me, k) && Owns(s, me)
    requires (k - 2) * Client.CHUNK_SIZE >= |job.source|
    requires var t := s.active.value;
      PartName(t.target) in s.files && s.files[PartName(t.target)] == t.hashed
    ensures Follows(w, job, id, CompleteReceive(w, s, me, requestId, io), me, k + 1)
  {
    var t := s.active.value;
    assert t.offset == |job.source| == t.fileSize;
    assert t.hashed == job.source;
    WithoutTransfer(w, job, id, s, me, k);
    hide Follows, FailReceive, SendMessage, Rename, CleanupActiveTransfer;
    FailFollows(w, job, id, s, me, requestId, FLUSH_FAILED, io, k);
    FailFollows(w, job, id, s, me, requestId, RENAME_FAILED, io, k);
    HonestPublish(w, job, id, s, me, requestId, io, k);
  }

  lemma HonestFinish(w: World, initial: map<Name, Bytes>, job: Client.Job, id: Bytes, s: Server, me: Socket, frame: Frame,
                     io: Io, k: nat)
    requires Faithful(w) && Inv(w, initial, s) && k >= 2 && Follows(w, job, id, s, me, k)
    requires (k - 2) * Client.CHUNK_SIZE >= |job.source| && Sending.IsMessage(w, frame, Finish(id))
    ensures Follows(w, job, id, HandleFinish(w, s, me, frame, io), me, k + 1)
  {
    DecodeWhatWasSent(w, Finish(id), frame.requestId);
    if Owns(s, me) {
      assert var t := s.active.value;
        t.state != Finishing && PartName(t.target) in s.files && s.files[PartName(t.target)] == t.hashed by { hide Base; }
      hide Inv, CompleteReceive, FailReceive;
      var finishing := s.(active := Some(s.active.value.(state := Finishing)));
      assert Follows(w, job, id, finishing, me, k) by { hide Delivers; }
      HonestComplete(w, job, id, finishing, me, frame.requestId, io, k);
    } else {
      hide Inv, Follows, RejectConnectionReceive;
      RejectFollows(w, job, id, s, me, frame.requestId, id, NOT_OWNER, io, k);
    }
  }

  lemma Handshaken(w: World, job: Client.Job, id: Bytes, s: Server, me: Socket, k: nat)
    requires Follows(w, job, id, s, me, k)
    ensures IsOpen(s, me) ==> (ConnectionOf(s, me).helloComplete <==> k >= 1)
  {
    hide Receives, Delivers;
  }

  lemma ScriptKinds(w: World, job: Client.Job, id: Bytes, f: Frame, k: nat)
    requires FrameAt(w, job, id, f, k)
    ensures k == 0 ==> f.kind == HELLO
    ensures k == 1 ==> f.kind == FILE_OFFER
    ensures k >= 2 && Sending.IsChunk(job, id, f, k - 2) ==> f.kind == FILE_CHUNK
    ensures k >= 2 && !Sending.IsChunk(job, id, f, k - 2) ==> f.kind == FILE_FINISH
  {
    hide DecodeChunk;
  }

  /** An honest sender's next frame: nothing but the receiver's own file system can fail the transfer. */
  lemma HonestDispatch(w: World, initial: map<Name, Bytes>, job: Client.Job, id: Bytes, s: Server, me: Socket, frame: Frame,
                       io: Io, k: nat)
    requires Faithful(w) && Inv(w, initial, s) && |job.source| < Client.WORD
    requires Follows(w, job, id, s, me, k) && FrameAt(w, job, id, frame, k)
    ensures Follows(w, job, id, DispatchFrame(w, s, me, frame, io), me, k + 1)
  {
    hide Inv, Follows, HandleHello, HandleOffer, HandleChunk, HandleFinish, RemoveConnection, Sending.IsMessage,
      Sending.IsChunk, Client.OfferFor;
    Handshaken(w, job, id, s, me, k);
    ScriptKinds(w, job, id, frame, k);
    if !IsOpen(s, me) {
      ClosedOwnsNothing(w, initial, s, me);
      LaterFollows(w, job, id, s, me, k, k + 1);
    } else if k == 0 {
      HonestHello(w, job, id, s, me, frame, io);
    } else if k == 1 {
      HonestOffer(w, job, id, s, me, frame, io);
    } else if Sending.IsChunk(job, id, frame, k - 2) {
      HonestChunk(w, initial, job, id, s, me, frame, io, k);
    } else {
      HonestFinish(w, initial, job, id, s, me, frame, io, k);
    }
  }

  lemma ClosedOwnsNothing(w: World, initial: map<Name, Bytes>, s: Server, me: Socket)
    requires Inv(w, initial, s) && !IsOpen(s, me)
    ensures !Owns(s, me)
  {}
}
