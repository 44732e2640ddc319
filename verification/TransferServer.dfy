/**
 The receiving end of a file transfer: any number of connections, at most one active transfer, and
 the directory it receives into. Sockets are not reused; a closed connection keeps its history.
 */
module TransferServer {
  import opened Bytes
  import opened ChunkCodec
  import opened FrameCodec
  import opened Messages
  import opened Results

  type Socket = nat
  type Name = Bytes

  const PENDING_CONTROL_WRITE_LIMIT: nat := 256 * 1024
  const EIGHT_ZEROS: Bytes := [48, 48, 48, 48, 48, 48, 48, 48]
  const UNKNOWN_TRANSFER_ID: Bytes := EIGHT_ZEROS + EIGHT_ZEROS + EIGHT_ZEROS + EIGHT_ZEROS
  /** ".coredesk.part" */
  const PART_SUFFIX: Bytes := [46, 99, 111, 114, 101, 100, 101, 115, 107, 46, 112, 97, 114, 116]

  datatype ReceiveState = Accepted | Receiving | Finishing

  /** `wire` holds the bytes the socket has accepted and `sent` the frames handed to it. */
  datatype Connection = Connection(
    open: bool,
    buffer: Bytes,
    helloComplete: bool,
    remainder: Bytes,
    flushScheduled: bool,
    disconnectAfterWrite: bool,
    wire: Bytes,
    sent: seq<Frame>)

  datatype Transfer = Transfer(
    state: ReceiveState,
    owner: Socket,
    requestId: uint64,
    transferId: Bytes,
    sha256: Bytes,
    fileSize: nat,
    offset: nat,
    target: Name,
    hashed: Bytes)

  /** A completed transfer: what was offered, and what the target was published with. */
  datatype Publication = Publication(
    owner: Socket, transferId: Bytes, sha256: Bytes, fileSize: nat, target: Name, content: Bytes)

  /** A transfer that failed, and why. */
  datatype Setback = Setback(owner: Socket, error: Error)

  /**
   `published` and `setbacks` are histories: transfers done and failed. `taken` holds every name that was
   cleared for a part file, with the number of transfers done by the last time it was.
   */
  datatype Server = Server(
    active: Option<Transfer>,
    connections: map<Socket, Connection>,
    files: map<Name, Bytes>,
    taken: map<Name, nat>,
    published: seq<Publication>,
    setbacks: seq<Setback>)

  /** What the file system and the socket do while one frame is handled. */
  datatype Io = Io(
    directory: bool, statFails: bool, opens: bool, writes: nat, flushes: bool, renames: bool,
    pending: nat, accepts: int, closes: bool)

  const NO_CONNECTION := Connection(false, [], false, [], false, false, [], [])
  const NEW_CONNECTION := NO_CONNECTION.(open := true)

  const BUSY := Error(Busy, "another transfer is already active")
  const NO_DIRECTORY := Error(PathNotFound, "receive directory is not available")
  const TARGET_EXISTS := Error(TargetExists, "target file already exists")
  const STAT_FAILED := Error(IoError, "target cannot be examined")
  const OPEN_FAILED := Error(IoError, "part file cannot be opened")
  const NOT_OWNER := Error(InvalidArgument, "socket does not own the active transfer")
  const WRONG_TRANSFER := Error(InvalidArgument, "transfer_id does not match active transfer")
  const WRONG_OFFSET := Error(InvalidArgument, "unexpected chunk offset")
  const BEYOND_SIZE := Error(InvalidArgument, "chunk exceeds offered file_size")
  const OFFSET_BEYOND_SIZE := Error(InvalidArgument, "expected_offset exceeds file_size")
  const WRITE_FAILED := Error(IoError, "failed to write chunk")
  const WRONG_SIZE := Error(InvalidArgument, "received size does not match file_size")
  const FLUSH_FAILED := Error(IoError, "part file cannot be flushed")
  const WRONG_HASH := Error(HashMismatch, "sha256 mismatch")
  const RENAME_FAILED := Error(IoError, "failed to rename completed transfer")
  const BAD_PAYLOAD := Error(InvalidArgument, "invalid payload")
  const NO_ERROR := Error(Ok, "")

  function PartName(target: Name): Name {
    target + PART_SUFFIX
  }

  function ConnectionOf(s: Server, c: Socket): Connection {
    if c in s.connections then s.connections[c] else NO_CONNECTION
  }

  predicate IsOpen(s: Server, c: Socket) {
    ConnectionOf(s, c).open
  }

  predicate Owns(s: Server, c: Socket) {
    s.active.Some? && s.active.value.owner == c
  }

  function WithConnection(s: Server, c: Socket, conn: Connection): Server {
    s.(connections := s.connections[c := conn])
  }

  /* ---------------------------------------------------------------- cleaning up and sending */

  function CleanupActiveTransfer(s: Server, removePart: bool): Server {
    match s.active
    case None => s
    case Some(t) => s.(active := None, files := if removePart then s.files - {PartName(t.target)} else s.files)
  }

  function RemoveConnection(s: Server, c: Socket): Server {
    var cleaned := if Owns(s, c) then CleanupActiveTransfer(s, true) else s;
    if c in cleaned.connections then WithConnection(cleaned, c, cleaned.connections[c].(open := false)) else cleaned
  }

  function SendFrame(s: Server, c: Socket, frame: Frame, io: Io): Server {
    var conn := ConnectionOf(s, c);
    if !conn.open then s
    else if conn.remainder != [] || !Encodable(frame) then RemoveConnection(s, c)
    else
      var bytes := Layout(frame);
      var accepted := BytesTaken(io.accepts, |bytes|);
      if io.pending > PENDING_CONTROL_WRITE_LIMIT || |bytes| > PENDING_CONTROL_WRITE_LIMIT - io.pending || accepted < 0
      then RemoveConnection(s, c)
      else WithConnection(s, c, conn.(remainder := bytes[accepted..],
                                      flushScheduled := conn.flushScheduled || accepted < |bytes|,
                                      wire := conn.wire + bytes[..accepted],
                                      sent := conn.sent + [frame]))
  }

  function SendMessage(w: World, s: Server, c: Socket, m: Message, requestId: uint64, io: Io): Server {
    match w.encode(m)
    case Failure(_) => RemoveConnection(s, c)
    case Success(payload) => SendFrame(s, c, FrameOf(m, requestId, payload), io)
  }

  function DisconnectAfterPendingWrite(s: Server, c: Socket, io: Io): Server {
    var conn := ConnectionOf(s, c);
    if !conn.open then s
    else if conn.remainder != [] then WithConnection(s, c, conn.(disconnectAfterWrite := true))
    else if io.closes then RemoveConnection(s, c)
    else s
  }

  function FailReceive(w: World, s: Server, c: Socket, requestId: uint64, error: Error, io: Io): Server {
    var id := if s.active.Some? then s.active.value.transferId else UNKNOWN_TRANSFER_ID;
    var noted := s.(setbacks := s.setbacks + [Setback(c, error)]);
    CleanupActiveTransfer(SendMessage(w, noted, c, FileResult(id, false, error), requestId, io), true)
  }

  function RejectConnectionReceive(w: World, s: Server, c: Socket, requestId: uint64, id: Bytes, error: Error, io: Io)
    : Server
  {
    DisconnectAfterPendingWrite(SendMessage(w, s, c, FileResult(id, false, error), requestId, io), c, io)
  }

  /* ---------------------------------------------------------------- frames */

  function HandleHello(w: World, s: Server, c: Socket, frame: Frame, io: Io): Server {
    var conn := ConnectionOf(s, c);
    if !conn.open || conn.helloComplete then RemoveConnection(s, c)
    else if Decode(w, frame).Failure? || w.encode(HelloAck).Failure? then RemoveConnection(s, c)
    else SendMessage(w, WithConnection(s, c, conn.(helloComplete := true)), c, HelloAck, frame.requestId, io)
  }

  function ValidateOfferTarget(s: Server, target: Name, io: Io): Result<()> {
    if s.active.Some? then Failure(BUSY)
    else if !io.directory then Failure(NO_DIRECTORY)
    else if target in s.files then Failure(TARGET_EXISTS)
    else if io.statFails then Failure(STAT_FAILED)
    else Success(())
  }

  /** Whatever was there by the name of the part file is removed. */
  function Cleared(s: Server, target: Name): Server {
    s.(files := s.files - {PartName(target)}, taken := s.taken[PartName(target) := |s.published|])
  }

  /** Open the part file, whatever was there by its name having been removed, and record the transfer. */
  function BeginReceive(s: Server, c: Socket, requestId: uint64, offer: Message, io: Io): Result<Server>
    requires offer.Offer?
  {
    var part := PartName(offer.fileName);
    if !io.opens then Failure(OPEN_FAILED)
    else Success(s.(
      files := s.files[part := []],
      active := Some(Transfer(Accepted, c, requestId, offer.transferId, offer.sha256, offer.fileSize, 0,
                              offer.fileName, []))))
  }

  function HandleOffer(w: World, s: Server, c: Socket, frame: Frame, io: Io): Server {
    match Decode(w, frame)
    case Failure(e) => SendMessage(w, s, c, Reject(UNKNOWN_TRANSFER_ID, e), frame.requestId, io)
    case Success(m) =>
      if !m.Offer? then SendMessage(w, s, c, Reject(UNKNOWN_TRANSFER_ID, BAD_PAYLOAD), frame.requestId, io)
      else
        match ValidateOfferTarget(s, m.fileName, io)
        case Failure(e) => SendMessage(w, s, c, Reject(m.transferId, e), frame.requestId, io)
        case Success(_) =>
          var cleared := Cleared(s, m.fileName);
          match BeginReceive(cleared, c, frame.requestId, m, io)
          case Failure(e) => SendMessage(w, cleared, c, Reject(m.transferId, e), frame.requestId, io)
          case Success(begun) => SendMessage(w, begun, c, Accept(m.transferId), frame.requestId, io)
  }

  function ValidateChunkBounds(offset: nat, fileSize: nat, size: nat): Result<()> {
    if offset > fileSize then Failure(OFFSET_BEYOND_SIZE)
    else if size > fileSize - offset then Failure(BEYOND_SIZE)
    else Success(())
  }

  function StoreChunk(w: World, s: Server, c: Socket, requestId: uint64, data: Bytes, io: Io): Server
    requires s.active.Some?
  {
    var t := s.active.value;
    var part := PartName(t.target);
    var written := if io.writes < |data| then data[..io.writes] else data;
    var stored := s.(files := s.files[part := (if part in s.files then s.files[part] else []) + written]);
    if |written| != |data| then FailReceive(w, stored, c, requestId, WRITE_FAILED, io)
    else stored.(active := Some(t.(hashed := t.hashed + data, offset := t.offset + |data|, state := Receiving)))
  }

  function HandleChunk(w: World, s: Server, c: Socket, frame: Frame, io: Io): Server {
    match DecodeChunk(frame.payload)
    case Failure(e) =>
      if Owns(s, c) then FailReceive(w, s, c, frame.requestId, e, io)
      else RejectConnectionReceive(w, s, c, frame.requestId, UNKNOWN_TRANSFER_ID, e, io)
    case Success(chunk) =>
      if !Owns(s, c) then RejectConnectionReceive(w, s, c, frame.requestId, chunk.transferId, NOT_OWNER, io)
      else
        var t := s.active.value;
        if chunk.transferId != t.transferId || t.state == Finishing
        then FailReceive(w, s, c, frame.requestId, WRONG_TRANSFER, io)
        else if chunk.offset != t.offset then FailReceive(w, s, c, frame.requestId, WRONG_OFFSET, io)
        else
          match ValidateChunkBounds(t.offset, t.fileSize, |chunk.data|)
          case Failure(e) => FailReceive(w, s, c, frame.requestId, e, io)
          case Success(_) => StoreChunk(w, s, c, frame.requestId, chunk.data, io)
  }

  /** Rename the part file to the target, which must not exist. */
  function Rename(s: Server, t: Transfer): Server {
    var part := PartName(t.target);
    var content := if part in s.files then s.files[part] else [];
    s.(files := (s.files - {part})[t.target := content],
       published := s.published + [Publication(t.owner, t.transferId, t.sha256, t.fileSize, t.target, content)])
  }

  function CompleteReceive(w: World, s: Server, c: Socket, requestId: uint64, io: Io): Server {
    match s.active
    case None => SendMessage(w, s, c, FileResult(UNKNOWN_TRANSFER_ID, false, WRONG_TRANSFER), requestId, io)
    case Some(t) =>
      if t.offset != t.fileSize then FailReceive(w, s, c, requestId, WRONG_SIZE, io)
      else if !io.flushes then FailReceive(w, s, c, requestId, FLUSH_FAILED, io)
      else if w.sha256(t.hashed) != t.sha256 then FailReceive(w, s, c, requestId, WRONG_HASH, io)
      else if !io.renames || t.target in s.files then FailReceive(w, s, c, requestId, RENAME_FAILED, io)
      else
        CleanupActiveTransfer(
          SendMessage(w, Rename(s, t), c, FileResult(t.transferId, true, NO_ERROR), requestId, io), false)
  }

  function HandleFinish(w: World, s: Server, c: Socket, frame: Frame, io: Io): Server {
    match Decode(w, frame)
    case Failure(e) =>
      if Owns(s, c) then FailReceive(w, s, c, frame.requestId, e, io)
      else RejectConnectionReceive(w, s, c, frame.requestId, UNKNOWN_TRANSFER_ID, e, io)
    case Success(m) =>
      if !m.Finish? then
        if Owns(s, c) then FailReceive(w, s, c, frame.requestId, BAD_PAYLOAD, io)
        else RejectConnectionReceive(w, s, c, frame.requestId, UNKNOWN_TRANSFER_ID, BAD_PAYLOAD, io)
      else if !Owns(s, c) then RejectConnectionReceive(w, s, c, frame.requestId, m.transferId, NOT_OWNER, io)
      else
        var t := s.active.value;
        if m.transferId != t.transferId || t.state == Finishing
        then FailReceive(w, s, c, frame.requestId, WRONG_TRANSFER, io)
        else CompleteReceive(w, s.(active := Some(t.(state := Finishing))), c, frame.requestId, io)
  }

  function DispatchFrame(w: World, s: Server, c: Socket, frame: Frame, io: Io): Server {
    if !IsOpen(s, c) then s
    else if frame.kind == HELLO then HandleHello(w, s, c, frame, io)
    else if !ConnectionOf(s, c).helloComplete then RemoveConnection(s, c)
    else if frame.kind == FILE_OFFER then HandleOffer(w, s, c, frame, io)
    else if frame.kind == FILE_CHUNK then HandleChunk(w, s, c, frame, io)
    else if frame.kind == FILE_FINISH then HandleFinish(w, s, c, frame, io)
    else RemoveConnection(s, c)
  }

  /* ---------------------------------------------------------------- events */

  datatype Event =
    | Connect(c: Socket)
    | Receive(c: Socket, bytes: Bytes, ios: seq<Io>)
    | BytesWritten(c: Socket, closes: bool)
    | FlushFires(c: Socket, connected: bool, io: Io)
    | Disconnected(c: Socket)
    | Close

  function IoAt(ios: seq<Io>, i: nat): Io {
    if i < |ios| then ios[i] else Io(true, false, true, 0, true, true, 0, 0, false)
  }

  /** The frames of one push, in order, each with its own input and output. */
  function DispatchAll(w: World, s: Server, c: Socket, frames: seq<Frame>, ios: seq<Io>): Server
    decreases |frames|
  {
    if frames == [] then s
    else
      DispatchFrame(w, DispatchAll(w, s, c, frames[..|frames| - 1], ios), c, frames[|frames| - 1],
                    IoAt(ios, |frames| - 1))
  }

  function HandleReadyRead(w: World, s: Server, c: Socket, bytes: Bytes, ios: seq<Io>): Server {
    var conn := ConnectionOf(s, c);
    if !conn.open then s
    else
      var (frames, rest) := PushResult(conn.buffer, bytes);
      var pushed := WithConnection(s, c, conn.(buffer := rest));
      match frames
      case Failure(_) => RemoveConnection(pushed, c)
      case Success(fs) => DispatchAll(w, pushed, c, fs, ios)
  }

  function HandleBytesWritten(s: Server, c: Socket, closes: bool): Server {
    var conn := ConnectionOf(s, c);
    if !conn.open then s
    else if conn.remainder != [] then WithConnection(s, c, conn.(flushScheduled := true))
    else if conn.disconnectAfterWrite && closes then RemoveConnection(s, c)
    else s
  }

  function FlushWriteRemainder(s: Server, c: Socket, connected: bool, io: Io): Server {
    var conn := ConnectionOf(s, c);
    if !conn.open then s
    else if conn.remainder == [] then
      if conn.disconnectAfterWrite && io.closes then RemoveConnection(s, c)
      else WithConnection(s, c, conn.(flushScheduled := false))
    else
      var accepted := BytesTaken(io.accepts, |conn.remainder|);
      if !connected || accepted < 0 then RemoveConnection(s, c)
      else
        var flushed := WithConnection(s, c, conn.(
          flushScheduled := accepted < |conn.remainder|,
          remainder := conn.remainder[accepted..],
          wire := conn.wire + conn.remainder[..accepted]));
        if accepted == |conn.remainder| && conn.disconnectAfterWrite && io.closes
        then RemoveConnection(flushed, c) else flushed
  }

  function CloseAll(s: Server): Server {
    CleanupActiveTransfer(s.(connections := map c | c in s.connections :: s.connections[c].(open := false)), true)
  }

  function Apply(w: World, s: Server, e: Event): Server {
    match e
    case Connect(c) => if c in s.connections then s else WithConnection(s, c, NEW_CONNECTION)
    case Receive(c, bytes, ios) => HandleReadyRead(w, s, c, bytes, ios)
    case BytesWritten(c, closes) => HandleBytesWritten(s, c, closes)
    case FlushFires(c, connected, io) => FlushWriteRemainder(s, c, connected, io)
    case Disconnected(c) => RemoveConnection(s, c)
    case Close => CloseAll(s)
  }

  function After(w: World, s: Server, es: seq<Event>): Server
    decreases |es|
  {
    if es == [] then s else After(w, Apply(w, s, es[0]), es[1..])
  }
}
