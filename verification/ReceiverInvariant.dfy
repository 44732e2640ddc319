/**
 What every run of the receiving end keeps, whatever its connections send: who owns the active
 transfer, what the part file holds, where every file in the directory comes from.
 */
module ReceiverInvariant {
  import opened Bytes
  import opened ChunkCodec
  import opened FrameCodec
  import opened Messages
  import opened Results
  import opened TransferServer

  /** The owner of the active transfer is connected and has shaken hands. */
  predicate OwnerLive(s: Server) {
    s.active.Some? ==> IsOpen(s, s.active.value.owner) && ConnectionOf(s, s.active.value.owner).helloComplete
  }

  /** The part file of the active transfer holds the hashed bytes, as many as the expected offset, at most those offered. */
  predicate PartMatches(s: Server) {
    s.active.Some? ==>
      var t := s.active.value;
      && PartName(t.target) in s.files && s.files[PartName(t.target)] == t.hashed
      && |t.hashed| == t.offset <= t.fileSize
      && t.state != Finishing
      && t.target !in s.files
  }

  predicate IsActivePart(active: Option<Transfer>, name: Name) {
    active.Some? && PartName(active.value.target) == name
  }

  predicate PublishedAs(published: seq<Publication>, name: Name, content: Bytes) {
    exists k | 0 <= k < |published| :: published[k].target == name && published[k].content == content
  }

  /** Every file was there before, is the part file of the active transfer or was published. */
  ghost predicate FilesAccounted(initial: map<Name, Bytes>, s: Server) {
    forall n :: n in s.files ==>
      || IsActivePart(s.active, n)
      || (n in initial && initial[n] == s.files[n])
      || PublishedAs(s.published, n, s.files[n])
  }

  /** No part file outlives its transfer: one still there belongs to the active one or was published by that name. */
  ghost predicate NoOrphans(s: Server) {
    forall n :: n in s.taken && n in s.files ==>
      IsActivePart(s.active, n) || PublishedAs(s.published, n, s.files[n])
  }

  /** Targets appear with the size and the hash that were offered. */
  ghost predicate PublicationsSound(w: World, published: seq<Publication>) {
    forall k :: 0 <= k < |published| ==>
      |published[k].content| == published[k].fileSize && w.sha256(published[k].content) == published[k].sha256
  }

  /** The name was cleared for a part file when more than k transfers had been done. */
  predicate TakenAfter(taken: map<Name, nat>, name: Name, k: nat) {
    name in taken && taken[name] > k
  }

  /** A published target is still there, unless its name was taken for a part file afterwards. */
  ghost predicate TargetsRemain(s: Server) {
    && (forall n :: n in s.taken ==> s.taken[n] <= |s.published|)
    && forall k :: 0 <= k < |s.published| ==>
      || TakenAfter(s.taken, s.published[k].target, k)
      || (s.published[k].target in s.files && s.files[s.published[k].target] == s.published[k].content)
  }

  /** What the socket accepted and what is left over are the frames sent, in order. */
  ghost predicate StreamSound(conn: Connection) {
    && (forall f :: f in conn.sent ==> Encodable(f))
    && conn.wire <= LayoutAll(conn.sent)
    && (conn.open ==> conn.wire + conn.remainder == LayoutAll(conn.sent))
    && (conn.open && conn.remainder != [] ==> conn.flushScheduled)
  }

  ghost predicate StreamsSound(connections: map<Socket, Connection>) {
    forall c :: c in connections ==> StreamSound(connections[c])
  }

  /** The frame reports the transfer with this identifier as done. */
  predicate ReportsDone(w: World, f: Frame, id: Bytes) {
    && Decode(w, f).Success? && Decode(w, f).value.FileResult?
    && Decode(w, f).value.ok && Decode(w, f).value.transferId == id
  }

  predicate PublishedFor(published: seq<Publication>, c: Socket, id: Bytes) {
    exists k | 0 <= k < |published| :: published[k].owner == c && published[k].transferId == id
  }

  /** Success is reported only of transfers that were published. */
  ghost predicate ReportsSound(w: World, connections: map<Socket, Connection>, published: seq<Publication>) {
    forall c, f, id :: c in connections && f in connections[c].sent && ReportsDone(w, f, id) ==> PublishedFor(published, c, id)
  }

  /** The name was cleared for a part file, and if it is in use, after the last transfer done. */
  predicate PartTaken(s: Server, part: Name) {
    part in s.taken && (part in s.files ==> s.taken[part] == |s.published|)
  }

  /** The parts that concern files. */
  ghost predicate FilesSound(w: World, initial: map<Name, Bytes>, s: Server) {
    && (s.active.Some? ==> PartTaken(s, PartName(s.active.value.target)))
    && FilesAccounted(initial, s)
    && NoOrphans(s)
    && PublicationsSound(w, s.published)
    && TargetsRemain(s)
  }

  /** All but the state of the active part file. */
  ghost predicate Base(w: World, initial: map<Name, Bytes>, s: Server) {
    && OwnerLive(s)
    && FilesSound(w, initial, s)
    && StreamsSound(s.connections)
    && ReportsSound(w, s.connections, s.published)
  }

  ghost predicate Inv(w: World, initial: map<Name, Bytes>, s: Server) {
    Base(w, initial, s) && PartMatches(s)
  }

  /** Nothing but connections changed, except that the active transfer may have been dropped with its part file. */
  predicate Shrunk(s: Server, t: Server) {
    && t.published == s.published && t.taken == s.taken
    && (|| (t.active == s.active && t.files == s.files)
        || (s.active.Some? && t.active.None? && t.files == s.files - {PartName(s.active.value.target)}))
  }

  lemma ShrunkKeepsPart(s: Server, t: Server)
    requires Shrunk(s, t) && PartMatches(s)
    ensures PartMatches(t)
  {}

  /* ---------------------------------------------------------------- cleaning up and sending */

  lemma ShrunkKeepsFiles(w: World, initial: map<Name, Bytes>, s: Server, t: Server)
    requires FilesSound(w, initial, s) && Shrunk(s, t)
    ensures FilesSound(w, initial, t)
  {}

  /** One connection moves on; its history grows by frames that report nothing unpublished. */
  lemma ConnectionMoves(w: World, s: Server, c: Socket, conn: Connection)
    requires StreamsSound(s.connections) && ReportsSound(w, s.connections, s.published) && StreamSound(conn)
    requires forall f, id :: f in conn.sent && ReportsDone(w, f, id) ==>
      f in ConnectionOf(s, c).sent || PublishedFor(s.published, c, id)
    ensures StreamsSound(s.connections[c := conn])
    ensures ReportsSound(w, s.connections[c := conn], s.published)
  {
    hide StreamSound, ReportsDone, PublishedFor;
  }

  lemma RemoveKeeps(w: World, initial: map<Name, Bytes>, s: Server, c: Socket)
    requires Base(w, initial, s)
    ensures Base(w, initial, RemoveConnection(s, c)) && Shrunk(s, RemoveConnection(s, c))
  {
    hide FilesSound, ReportsDone, PublishedFor, LayoutAll;
    var t := RemoveConnection(s, c);
    assert Shrunk(s, t);
    ShrunkKeepsFiles(w, initial, s, t);
    if c in s.connections {
      var conn := s.connections[c].(open := false);
      assert StreamSound(conn);
      hide StreamSound, ReportsDone, PublishedFor;
      ConnectionMoves(w, s, c, conn);
    }
  }

  lemma StreamAfterSend(conn: Connection, f: Frame, accepted: nat, scheduled: bool)
    requires StreamSound(conn) && conn.open && conn.remainder == [] && Encodable(f) && accepted <= |Layout(f)|
    requires accepted < |Layout(f)| ==> scheduled
    ensures StreamSound(conn.(remainder := Layout(f)[accepted..], flushScheduled := scheduled,
                              wire := conn.wire + Layout(f)[..accepted], sent := conn.sent + [f]))
  {
    hide Layout, Encodable;
    LayoutAllAppend(conn.sent, f);
    assert conn.wire + [] == LayoutAll(conn.sent);
    assert Layout(f)[..accepted] + Layout(f)[accepted..] == Layout(f);
  }

  /** The connection once a frame has been handed to its socket. */
  function Sent(conn: Connection, f: Frame, accepted: nat): Connection
    requires accepted <= |Layout(f)|
  {
    conn.(remainder := Layout(f)[accepted..], flushScheduled := conn.flushScheduled || accepted < |Layout(f)|,
          wire := conn.wire + Layout(f)[..accepted], sent := conn.sent + [f])
  }

  lemma SentKeeps(w: World, initial: map<Name, Bytes>, s: Server, c: Socket, f: Frame, accepted: nat)
    requires Base(w, initial, s) && IsOpen(s, c) && ConnectionOf(s, c).remainder == [] && Encodable(f)
    requires accepted <= |Layout(f)|
    requires forall id :: ReportsDone(w, f, id) ==> PublishedFor(s.published, c, id)
    ensures var t := WithConnection(s, c, Sent(ConnectionOf(s, c), f, accepted));
      Base(w, initial, t) && Shrunk(s, t)
  {
    var conn := ConnectionOf(s, c);
    var t := WithConnection(s, c, Sent(conn, f, accepted));
    StreamAfterSend(conn, f, accepted, conn.flushScheduled || accepted < |Layout(f)|);
    hide StreamSound, ReportsDone, PublishedFor, Layout, FilesSound;
    ConnectionMoves(w, s, c, Sent(conn, f, accepted));
    assert FilesSound(w, initial, t) by { ShrunkKeepsFiles(w, initial, s, t); }
  }

  lemma SendFrameKeeps(w: World, initial: map<Name, Bytes>, s: Server, c: Socket, f: Frame, io: Io)
    requires Base(w, initial, s)
    requires forall id :: ReportsDone(w, f, id) ==> PublishedFor(s.published, c, id)
    ensures var t := SendFrame(s, c, f, io); Base(w, initial, t) && Shrunk(s, t)
  {
    hide Base, ReportsDone, PublishedFor, RemoveConnection, Encodable, Layout;
    RemoveKeeps(w, initial, s, c);
    var accepted := BytesTaken(io.accepts, |Layout(f)|);
    if IsOpen(s, c) && ConnectionOf(s, c).remainder == [] && Encodable(f) && accepted >= 0 {
      SentKeeps(w, initial, s, c, f, accepted);
    }
  }

  lemma SendMessageKeeps(w: World, initial: map<Name, Bytes>, s: Server, c: Socket, m: Message, requestId: uint64, io: Io)
    requires Faithful(w) && Base(w, initial, s)
    requires m.FileResult? && m.ok ==> PublishedFor(s.published, c, m.transferId)
    ensures var t := SendMessage(w, s, c, m, requestId, io); Base(w, initial, t) && Shrunk(s, t)
  {
    hide Base, PublishedFor, SendFrame, RemoveConnection;
    RemoveKeeps(w, initial, s, c);
    if w.encode(m).Success? {
      DecodeWhatWasSent(w, m, requestId);
      SendFrameKeeps(w, initial, s, c, FrameOf(m, requestId, w.encode(m).value), io);
    }
  }

  lemma DisconnectAfterKeeps(w: World, initial: map<Name, Bytes>, s: Server, c: Socket, io: Io)
    requires Base(w, initial, s)
    ensures var t := DisconnectAfterPendingWrite(s, c, io); Base(w, initial, t) && Shrunk(s, t)
  {
    RemoveKeeps(w, initial, s, c);
    var conn := ConnectionOf(s, c);
    if conn.open && conn.remainder != [] {
      var t := WithConnection(s, c, conn.(disconnectAfterWrite := true));
      assert StreamSound(conn.(disconnectAfterWrite := true));
      hide StreamSound, ReportsDone, PublishedFor, FilesSound;
      ConnectionMoves(w, s, c, conn.(disconnectAfterWrite := true));
      assert FilesSound(w, initial, t) by { ShrunkKeepsFiles(w, initial, s, t); }
    }
  }

  lemma CleanupKeeps(w: World, initial: map<Name, Bytes>, s: Server, removePart: bool)
    requires Base(w, initial, s)
    requires removePart || s.active.None? || PartName(s.active.value.target) !in s.files
    ensures var t := CleanupActiveTransfer(s, removePart); Base(w, initial, t) && Shrunk(s, t) && t.active.None?
  {
    var t := CleanupActiveTransfer(s, removePart);
    assert s.active.Some? ==> t.files == s.files - {PartName(s.active.value.target)};
    ShrunkKeepsFiles(w, initial, s, t);
    hide FilesSound, StreamsSound, ReportsSound;
  }

  lemma FailReceiveKeeps(w: World, initial: map<Name, Bytes>, s: Server, c: Socket, requestId: uint64, error: Error, io: Io)
    requires Faithful(w) && Base(w, initial, s)
    ensures Inv(w, initial, FailReceive(w, s, c, requestId, error, io))
    ensures FailReceive(w, s, c, requestId, error, io).active.None?
  {
    var id := if s.active.Some? then s.active.value.transferId else UNKNOWN_TRANSFER_ID;
    var noted := s.(setbacks := s.setbacks + [Setback(c, error)]);
    assert Base(w, initial, noted) by { hide StreamSound, ReportsDone, PublishedFor; }
    hide Base, SendMessage;
    SendMessageKeeps(w, initial, noted, c, FileResult(id, false, error), requestId, io);
    CleanupKeeps(w, initial, SendMessage(w, noted, c, FileResult(id, false, error), requestId, io), true);
  }

  lemma RejectKeeps(w: World, initial: map<Name, Bytes>, s: Server, c: Socket, requestId: uint64, id: Bytes, error: Error, io: Io)
    requires Faithful(w) && Inv(w, initial, s)
    ensures Inv(w, initial, RejectConnectionReceive(w, s, c, requestId, id, error, io))
  {
    hide Base, SendMessage, DisconnectAfterPendingWrite, PartMatches;
    var m := FileResult(id, false, error);
    var t := SendMessage(w, s, c, m, requestId, io);
    SendMessageKeeps(w, initial, s, c, m, requestId, io);
    ShrunkKeepsPart(s, t);
    DisconnectAfterKeeps(w, initial, t, c, io);
    ShrunkKeepsPart(t, DisconnectAfterPendingWrite(t, c, io));
  }

  lemma SendKeepsInv(w: World, initial: map<Name, Bytes>, s: Server, c: Socket, m: Message, requestId: uint64, io: Io)
    requires Faithful(w) && Inv(w, initial, s) && !(m.FileResult? && m.ok)
    ensures Inv(w, initial, SendMessage(w, s, c, m, requestId, io))
  {
    hide Base, SendMessage, PartMatches;
    SendMessageKeeps(w, initial, s, c, m, requestId, io);
    ShrunkKeepsPart(s, SendMessage(w, s, c, m, requestId, io));
  }

  lemma RemoveKeepsInv(w: World, initial: map<Name, Bytes>, s: Server, c: Socket)
    requires Inv(w, initial, s)
    ensures Inv(w, initial, RemoveConnection(s, c))
  {
    hide Base, RemoveConnection, PartMatches;
    RemoveKeeps(w, initial, s, c);
    ShrunkKeepsPart(s, RemoveConnection(s, c));
  }

  /* ---------------------------------------------------------------- the handlers */

  lemma HelloKeeps(w: World, initial: map<Name, Bytes>, s: Server, c: Socket, frame: Frame, io: Io)
    requires Faithful(w) && Inv(w, initial, s)
    ensures Inv(w, initial, HandleHello(w, s, c, frame, io))
  {
    RemoveKeepsInv(w, initial, s, c);
    var conn := ConnectionOf(s, c);
    if conn.open {
      var greeted := WithConnection(s, c, conn.(helloComplete := true));
      GreetKeeps(w, initial, s, c);
      hide Inv, SendMessage, RemoveConnection, WithConnection;
      SendKeepsInv(w, initial, greeted, c, HelloAck, frame.requestId, io);
    }
  }

  lemma GreetKeeps(w: World, initial: map<Name, Bytes>, s: Server, c: Socket)
    requires Inv(w, initial, s) && IsOpen(s, c)
    ensures Inv(w, initial, WithConnection(s, c, ConnectionOf(s, c).(helloComplete := true)))
  {
    var conn := ConnectionOf(s, c).(helloComplete := true);
    assert StreamSound(conn);
    hide StreamSound, ReportsDone, PublishedFor, FilesSound;
    ConnectionMoves(w, s, c, conn);
    assert FilesSound(w, initial, WithConnection(s, c, conn)) by {
      ShrunkKeepsFiles(w, initial, s, WithConnection(s, c, conn));
    }
  }

  lemma ClearKeeps(w: World, initial: map<Name, Bytes>, s: Server, target: Name)
    requires Inv(w, initial, s) && s.active.None?
    ensures Inv(w, initial, Cleared(s, target))
  {
    hide StreamsSound, ReportsSound;
  }

  lemma BeginKeeps(w: World, initial: map<Name, Bytes>, s: Server, c: Socket, requestId: uint64, offer: Message, io: Io)
    requires Inv(w, initial, s) && s.active.None? && offer.Offer? && io.opens
    requires IsOpen(s, c) && ConnectionOf(s, c).helloComplete
    requires PartName(offer.fileName) in s.taken && PartName(offer.fileName) !in s.files
    requires s.taken[PartName(offer.fileName)] == |s.published|
    requires offer.fileName !in s.files
    ensures Inv(w, initial, BeginReceive(s, c, requestId, offer, io).value)
  {
    hide StreamsSound, ReportsSound;
  }

  lemma OfferKeeps(w: World, initial: map<Name, Bytes>, s: Server, c: Socket, frame: Frame, io: Io)
    requires Faithful(w) && Inv(w, initial, s) && IsOpen(s, c) && ConnectionOf(s, c).helloComplete
    ensures Inv(w, initial, HandleOffer(w, s, c, frame, io))
  {
    hide Inv, SendMessage;
    match Decode(w, frame)
    case Failure(e) => SendKeepsInv(w, initial, s, c, Reject(UNKNOWN_TRANSFER_ID, e), frame.requestId, io);
    case Success(m) =>
      if !m.Offer? {
        SendKeepsInv(w, initial, s, c, Reject(UNKNOWN_TRANSFER_ID, BAD_PAYLOAD), frame.requestId, io);
      } else if ValidateOfferTarget(s, m.fileName, io).Failure? {
        SendKeepsInv(w, initial, s, c, Reject(m.transferId, ValidateOfferTarget(s, m.fileName, io).error), frame.requestId, io);
      } else {
        var cleared := Cleared(s, m.fileName);
        ClearKeeps(w, initial, s, m.fileName);
        if io.opens {
          BeginKeeps(w, initial, cleared, c, frame.requestId, m, io);
          SendKeepsInv(w, initial, BeginReceive(cleared, c, frame.requestId, m, io).value, c, Accept(m.transferId),
                       frame.requestId, io);
        } else {
          SendKeepsInv(w, initial, cleared, c, Reject(m.transferId, OPEN_FAILED), frame.requestId, io);
        }
      }
  }

  /** Writing to the part file of the active transfer leaves everything else accounted for. */
  lemma WriteKeepsBase(w: World, initial: map<Name, Bytes>, s: Server, content: Bytes)
    requires Base(w, initial, s) && s.active.Some? && PartName(s.active.value.target) in s.files
    ensures Base(w, initial, s.(files := s.files[PartName(s.active.value.target) := content]))
  {
    hide StreamsSound, ReportsSound;
  }

  lemma StoreKeeps(w: World, initial: map<Name, Bytes>, s: Server, c: Socket, requestId: uint64, data: Bytes, io: Io)
    requires Faithful(w) && Inv(w, initial, s) && s.active.Some?
    requires |data| <= s.active.value.fileSize - s.active.value.offset
    ensures Inv(w, initial, StoreChunk(w, s, c, requestId, data, io))
  {
    var t := s.active.value;
    var part := PartName(t.target);
    var written := if io.writes < |data| then data[..io.writes] else data;
    var stored := s.(files := s.files[part := s.files[part] + written]);
    WriteKeepsBase(w, initial, s, s.files[part] + written);
    if |written| != |data| {
      hide Base, FailReceive;
      FailReceiveKeeps(w, initial, stored, c, requestId, WRITE_FAILED, io);
    } else {
      AdvanceKeeps(w, initial, stored, t.(hashed := t.hashed + data, offset := t.offset + |data|, state := Receiving));
    }
  }

  lemma AdvanceKeeps(w: World, initial: map<Name, Bytes>, s: Server, t: Transfer)
    requires Base(w, initial, s) && s.active.Some?
    requires t.owner == s.active.value.owner && t.target == s.active.value.target
    ensures Base(w, initial, s.(active := Some(t)))
  {
    hide StreamsSound, ReportsSound;
  }

  lemma OwnChunkKeeps(w: World, initial: map<Name, Bytes>, s: Server, c: Socket, frame: Frame, io: Io)
    requires Faithful(w) && Inv(w, initial, s) && Owns(s, c) && DecodeChunk(frame.payload).Success?
    ensures Inv(w, initial, HandleChunk(w, s, c, frame, io))
  {
    assert Base(w, initial, s);
    hide Inv, Base, StoreChunk, FailReceive, DecodeChunk, PartMatches;
    var data := DecodeChunk(frame.payload).value.data;
    FailReceiveKeeps(w, initial, s, c, frame.requestId, WRONG_TRANSFER, io);
    FailReceiveKeeps(w, initial, s, c, frame.requestId, WRONG_OFFSET, io);
    var bounds := ValidateChunkBounds(s.active.value.offset, s.active.value.fileSize, |data|);
    if bounds.Failure? {
      FailReceiveKeeps(w, initial, s, c, frame.requestId, bounds.error, io);
    } else {
      StoreKeeps(w, initial, s, c, frame.requestId, data, io);
    }
  }

  lemma ChunkKeeps(w: World, initial: map<Name, Bytes>, s: Server, c: Socket, frame: Frame, io: Io)
    requires Faithful(w) && Inv(w, initial, s)
    ensures Inv(w, initial, HandleChunk(w, s, c, frame, io))
  {
    assert Base(w, initial, s);
    if Owns(s, c) && DecodeChunk(frame.payload).Success? {
      OwnChunkKeeps(w, initial, s, c, frame, io);
    } else {
      hide Inv, Base, StoreChunk, FailReceive, RejectConnectionReceive, DecodeChunk, PartMatches, ValidateChunkBounds;
      match DecodeChunk(frame.payload)
      case Failure(e) =>
        FailReceiveKeeps(w, initial, s, c, frame.requestId, e, io);
        RejectKeeps(w, initial, s, c, frame.requestId, UNKNOWN_TRANSFER_ID, e, io);
      case Success(chunk) =>
        RejectKeeps(w, initial, s, c, frame.requestId, chunk.transferId, NOT_OWNER, io);
    }
  }

  lemma PublishedAsGrows(published: seq<Publication>, p: Publication, name: Name, content: Bytes)
    ensures PublishedAs(published, name, content) ==> PublishedAs(published + [p], name, content)
    ensures PublishedAs(published + [p], p.target, p.content)
  {
    assert (published + [p])[|published|] == p;
    if PublishedAs(published, name, content) {
      var k :| 0 <= k < |published| && published[k].target == name && published[k].content == content;
      assert (published + [p])[k] == published[k];
    }
  }

  lemma RenameKeepsFiles(w: World, initial: map<Name, Bytes>, s: Server)
    requires FilesSound(w, initial, s) && s.active.Some? && s.active.value.target !in s.files
    requires PartName(s.active.value.target) in s.files
    requires var t := s.active.value;
      && s.files[PartName(t.target)] == t.hashed
      && |t.hashed| == t.fileSize && w.sha256(t.hashed) == t.sha256
    ensures FilesSound(w, initial, Rename(s, s.active.value))
  {
    var t := s.active.value;
    var p := Publication(t.owner, t.transferId, t.sha256, t.fileSize, t.target, t.hashed);
    forall name, content
      ensures PublishedAs(s.published, name, content) ==> PublishedAs(s.published + [p], name, content)
      ensures PublishedAs(s.published + [p], t.target, t.hashed)
    {
      PublishedAsGrows(s.published, p, name, content);
    }
    hide PublishedAs;
  }

  lemma RenameKeeps(w: World, initial: map<Name, Bytes>, s: Server)
    requires Base(w, initial, s) && s.active.Some? && s.active.value.target !in s.files
    requires PartName(s.active.value.target) in s.files
    requires var t := s.active.value;
      && s.files[PartName(t.target)] == t.hashed
      && |t.hashed| == t.fileSize && w.sha256(t.hashed) == t.sha256
    ensures var r := Rename(s, s.active.value);
      Base(w, initial, r) && PublishedFor(r.published, s.active.value.owner, s.active.value.transferId)
      && PartName(s.active.value.target) !in r.files
  {
    var t := s.active.value;
    var r := Rename(s, t);
    RenameKeepsFiles(w, initial, s);
    assert r.published[|s.published|].owner == t.owner;
    RenameKeepsReports(w, s.connections, s.published, r.published[|s.published|]);
    hide FilesSound, StreamsSound, ReportsSound;
  }

  lemma RenameKeepsReports(w: World, connections: map<Socket, Connection>, published: seq<Publication>, p: Publication)
    requires ReportsSound(w, connections, published)
    ensures ReportsSound(w, connections, published + [p])
  {
    hide ReportsDone;
    forall c, id | PublishedFor(published, c, id) ensures PublishedFor(published + [p], c, id) {
      var k :| 0 <= k < |published| && published[k].owner == c && published[k].transferId == id;
      assert (published + [p])[k] == published[k];
    }
    hide PublishedFor;
  }

  lemma PublishKeeps(w: World, initial: map<Name, Bytes>, s: Server, c: Socket, requestId: uint64, io: Io)
    requires Faithful(w) && Base(w, initial, s) && Owns(s, c) && s.active.value.target !in s.files
    requires PartName(s.active.value.target) in s.files
    requires var t := s.active.value;
      && s.files[PartName(t.target)] == t.hashed
      && |t.hashed| == t.fileSize && w.sha256(t.hashed) == t.sha256
    ensures var t := s.active.value;
      Inv(w, initial, CleanupActiveTransfer(
        SendMessage(w, Rename(s, t), c, FileResult(t.transferId, true, NO_ERROR), requestId, io), false))
  {
    var t := s.active.value;
    RenameKeeps(w, initial, s);
    var renamed := Rename(s, t);
    assert renamed.active == s.active;
    hide Base, SendMessage, Rename;
    SendMessageKeeps(w, initial, renamed, c, FileResult(t.transferId, true, NO_ERROR), requestId, io);
    var told := SendMessage(w, renamed, c, FileResult(t.transferId, true, NO_ERROR), requestId, io);
    CleanupKeeps(w, initial, told, false);
  }

  lemma CompleteKeeps(w: World, initial: map<Name, Bytes>, s: Server, c: Socket, requestId: uint64, io: Io)
    requires Faithful(w) && Base(w, initial, s) && Owns(s, c)
    requires var t := s.active.value;
      PartName(t.target) in s.files && s.files[PartName(t.target)] == t.hashed && |t.hashed| == t.offset
    ensures Inv(w, initial, CompleteReceive(w, s, c, requestId, io))
  {
    var t := s.active.value;
    hide Inv, Base, FailReceive, SendMessage, Rename, CleanupActiveTransfer;
    FailReceiveKeeps(w, initial, s, c, requestId, WRONG_SIZE, io);
    FailReceiveKeeps(w, initial, s, c, requestId, FLUSH_FAILED, io);
    FailReceiveKeeps(w, initial, s, c, requestId, WRONG_HASH, io);
    FailReceiveKeeps(w, initial, s, c, requestId, RENAME_FAILED, io);
    if t.offset == t.fileSize && w.sha256(t.hashed) == t.sha256 && t.target !in s.files {
      PublishKeeps(w, initial, s, c, requestId, io);
    }
  }

  lemma FinishKeeps(w: World, initial: map<Name, Bytes>, s: Server, c: Socket, frame: Frame, io: Io)
    requires Faithful(w) && Inv(w, initial, s)
    ensures Inv(w, initial, HandleFinish(w, s, c, frame, io))
  {
    assert Base(w, initial, s);
    if Owns(s, c) {
      var t := s.active.value;
      AdvanceKeeps(w, initial, s, t.(state := Finishing));
      assert PartName(t.target) in s.files && s.files[PartName(t.target)] == t.hashed && |t.hashed| == t.offset;
      hide Inv, Base, CompleteReceive, PartMatches;
      CompleteKeeps(w, initial, s.(active := Some(t.(state := Finishing))), c, frame.requestId, io);
    }
    hide Inv, Base, CompleteReceive, FailReceive, RejectConnectionReceive, PartMatches;
    match Decode(w, frame)
    case Failure(e) =>
      FailReceiveKeeps(w, initial, s, c, frame.requestId, e, io);
      RejectKeeps(w, initial, s, c, frame.requestId, UNKNOWN_TRANSFER_ID, e, io);
    case Success(m) =>
      FailReceiveKeeps(w, initial, s, c, frame.requestId, BAD_PAYLOAD, io);
      FailReceiveKeeps(w, initial, s, c, frame.requestId, WRONG_TRANSFER, io);
      RejectKeeps(w, initial, s, c, frame.requestId, UNKNOWN_TRANSFER_ID, BAD_PAYLOAD, io);
      if m.Finish? {
        RejectKeeps(w, initial, s, c, frame.requestId, m.transferId, NOT_OWNER, io);
      }
  }

  lemma DispatchKeeps(w: World, initial: map<Name, Bytes>, s: Server, c: Socket, frame: Frame, io: Io)
    requires Faithful(w) && Inv(w, initial, s)
    ensures Inv(w, initial, DispatchFrame(w, s, c, frame, io))
  {
    hide Inv, HandleHello, HandleOffer, HandleChunk, HandleFinish, RemoveConnection;
    HelloKeeps(w, initial, s, c, frame, io);
    ChunkKeeps(w, initial, s, c, frame, io);
    FinishKeeps(w, initial, s, c, frame, io);
    RemoveKeepsInv(w, initial, s, c);
    if IsOpen(s, c) && ConnectionOf(s, c).helloComplete {
      OfferKeeps(w, initial, s, c, frame, io);
    }
  }

  lemma {:induction false} DispatchAllKeeps(w: World, initial: map<Name, Bytes>, s: Server, c: Socket, frames: seq<Frame>, ios: seq<Io>)
    requires Faithful(w) && Inv(w, initial, s)
    ensures Inv(w, initial, DispatchAll(w, s, c, frames, ios))
    decreases |frames|
  {
    hide Inv, DispatchFrame;
    if frames != [] {
      var before := frames[..|frames| - 1];
      DispatchAllKeeps(w, initial, s, c, before, ios);
      DispatchKeeps(w, initial, DispatchAll(w, s, c, before, ios), c, frames[|frames| - 1], IoAt(ios, |frames| - 1));
    }
  }

  /* ---------------------------------------------------------------- the events */

  /** A connection whose stream stays sound may move on. */
  lemma MoveKeeps(w: World, initial: map<Name, Bytes>, s: Server, c: Socket, conn: Connection)
    requires Inv(w, initial, s) && StreamSound(conn) && conn.sent == ConnectionOf(s, c).sent
    requires Owns(s, c) ==> conn.open && conn.helloComplete
    ensures Inv(w, initial, WithConnection(s, c, conn))
  {
    hide StreamSound, ReportsDone, PublishedFor, FilesSound;
    ConnectionMoves(w, s, c, conn);
    assert FilesSound(w, initial, WithConnection(s, c, conn)) by {
      ShrunkKeepsFiles(w, initial, s, WithConnection(s, c, conn));
    }
  }

  lemma KnownStream(w: World, initial: map<Name, Bytes>, s: Server, c: Socket)
    requires Inv(w, initial, s)
    ensures StreamSound(ConnectionOf(s, c))
    ensures Owns(s, c) ==> ConnectionOf(s, c).open && ConnectionOf(s, c).helloComplete
  {}

  lemma ReadyReadKeeps(w: World, initial: map<Name, Bytes>, s: Server, c: Socket, bytes: Bytes, ios: seq<Io>)
    requires Faithful(w) && Inv(w, initial, s)
    ensures Inv(w, initial, HandleReadyRead(w, s, c, bytes, ios))
  {
    hide Inv, PushResult, DispatchAll, RemoveConnection;
    var conn := ConnectionOf(s, c);
    if conn.open {
      var (frames, rest) := PushResult(conn.buffer, bytes);
      KnownStream(w, initial, s, c);
      MoveKeeps(w, initial, s, c, conn.(buffer := rest));
      var pushed := WithConnection(s, c, conn.(buffer := rest));
      RemoveKeepsInv(w, initial, pushed, c);
      if frames.Success? {
        DispatchAllKeeps(w, initial, pushed, c, frames.value, ios);
      }
    }
  }

  lemma StreamAfterFlush(conn: Connection, accepted: nat, scheduled: bool)
    requires StreamSound(conn) && conn.open && accepted <= |conn.remainder|
    requires accepted < |conn.remainder| ==> scheduled
    ensures StreamSound(conn.(flushScheduled := scheduled, remainder := conn.remainder[accepted..],
                              wire := conn.wire + conn.remainder[..accepted]))
  {
    assert conn.remainder[..accepted] + conn.remainder[accepted..] == conn.remainder;
  }

  lemma FlushKeeps(w: World, initial: map<Name, Bytes>, s: Server, c: Socket, connected: bool, io: Io)
    requires Inv(w, initial, s)
    ensures Inv(w, initial, FlushWriteRemainder(s, c, connected, io))
  {
    KnownStream(w, initial, s, c);
    RemoveKeepsInv(w, initial, s, c);
    var conn := ConnectionOf(s, c);
    if conn.open {
      hide Inv, RemoveConnection;
      if conn.remainder == [] {
        MoveKeeps(w, initial, s, c, conn.(flushScheduled := false));
      } else {
        var accepted := BytesTaken(io.accepts, |conn.remainder|);
        if connected && accepted >= 0 {
          var moved := conn.(flushScheduled := accepted < |conn.remainder|, remainder := conn.remainder[accepted..],
                             wire := conn.wire + conn.remainder[..accepted]);
          StreamAfterFlush(conn, accepted, accepted < |conn.remainder|);
          MoveKeeps(w, initial, s, c, moved);
          RemoveKeepsInv(w, initial, WithConnection(s, c, moved), c);
        }
      }
    }
  }

  lemma WrittenKeeps(w: World, initial: map<Name, Bytes>, s: Server, c: Socket, closes: bool)
    requires Inv(w, initial, s)
    ensures Inv(w, initial, HandleBytesWritten(s, c, closes))
  {
    hide Inv, RemoveConnection;
    KnownStream(w, initial, s, c);
    RemoveKeepsInv(w, initial, s, c);
    var conn := ConnectionOf(s, c);
    if conn.open && conn.remainder != [] {
      MoveKeeps(w, initial, s, c, conn.(flushScheduled := true));
    }
  }

  lemma CloseKeeps(w: World, initial: map<Name, Bytes>, s: Server)
    requires Inv(w, initial, s)
    ensures Inv(w, initial, CloseAll(s))
  {
    hide FilesSound, StreamsSound, ReportsSound;
    var t := CloseAll(s);
    assert Shrunk(s, t);
    ShrunkKeepsFiles(w, initial, s, t);
    ClosedStreams(w, s.connections, t.connections, s.published);
  }

  lemma ClosedStreams(w: World, before: map<Socket, Connection>, after: map<Socket, Connection>, published: seq<Publication>)
    requires StreamsSound(before) && ReportsSound(w, before, published)
    requires after.Keys == before.Keys && forall c :: c in before ==> after[c] == before[c].(open := false)
    ensures StreamsSound(after) && ReportsSound(w, after, published)
  {
    hide ReportsDone, PublishedFor;
  }

  lemma InvStep(w: World, initial: map<Name, Bytes>, s: Server, e: Event)
    requires Faithful(w) && Inv(w, initial, s)
    ensures Inv(w, initial, Apply(w, s, e))
  {
    hide Inv, HandleReadyRead, HandleBytesWritten, FlushWriteRemainder, RemoveConnection, CloseAll;
    match e
    case Connect(c) =>
      if c !in s.connections {
        ConnectKeeps(w, initial, s, c);
      }
    case Receive(c, bytes, ios) => ReadyReadKeeps(w, initial, s, c, bytes, ios);
    case BytesWritten(c, closes) => WrittenKeeps(w, initial, s, c, closes);
    case FlushFires(c, connected, io) => FlushKeeps(w, initial, s, c, connected, io);
    case Disconnected(c) => RemoveKeepsInv(w, initial, s, c);
    case Close => CloseKeeps(w, initial, s);
  }

  lemma ConnectKeeps(w: World, initial: map<Name, Bytes>, s: Server, c: Socket)
    requires Inv(w, initial, s) && c !in s.connections
    ensures Inv(w, initial, WithConnection(s, c, NEW_CONNECTION))
  {
    assert !Owns(s, c);
    assert StreamSound(NEW_CONNECTION) by { assert LayoutAll([]) == []; }
    MoveKeeps(w, initial, s, c, NEW_CONNECTION);
  }

  lemma {:induction false} InvRun(w: World, initial: map<Name, Bytes>, s: Server, es: seq<Event>)
    requires Faithful(w) && Inv(w, initial, s)
    ensures Inv(w, initial, After(w, s, es))
    decreases |es|
  {
    hide Inv, Apply;
    if es != [] {
      InvStep(w, initial, s, es[0]);
      InvRun(w, initial, Apply(w, s, es[0]), es[1..]);
    }
  }

  /** A server that has just begun to listen on a directory. */
  function Fresh(files: map<Name, Bytes>): Server {
    Server(None, map[], files, map[], [], [])
  }

  /** Whatever any connections do, from the start on. */
  lemma EveryRunIsSafe(w: World, files: map<Name, Bytes>, es: seq<Event>)
    requires Faithful(w)
    ensures Inv(w, files, After(w, Fresh(files), es))
  {
    assert Inv(w, files, Fresh(files));
    InvRun(w, files, Fresh(files), es);
  }
}
