/**
 The sending end of a file transfer and the manager that owns it: handshake, hashing, offer, the send
 pump with its backpressure, and the one completion each accepted send is owed.
 */
module TransferClient {
  import opened Bytes
  import opened ChunkCodec
  import opened FrameCodec
  import opened Messages
  import opened Results

  const CHUNK_SIZE: nat := 256 * 1024
  const HIGH_WATER_MARK: nat := 2 * 1024 * 1024
  const WORD: nat := 0x1_0000_0000_0000_0000

  datatype TransferState = Idle | Connecting | HelloSent | Offering | Sending | Finishing | Completed | Failed

  /** The file to send; it does not change while it is being sent. */
  datatype Job = Job(source: Bytes, fileName: Bytes)

  /**
   The client and its socket. `wire` holds the bytes the socket has accepted, of which the first
   `drained` have left it; `sent` and `offeredId` are histories.
   */
  datatype Client = Client(
    state: TransferState,
    handshakeComplete: bool,
    nextRequestId: uint64,
    helloId: uint64,
    offerId: uint64,
    finishId: uint64,
    transferId: Bytes,
    hashGeneration: nat,
    hashing: Option<nat>,
    sendOffset: nat,
    fileSize: nat,
    fileOpen: bool,
    position: nat,
    pumpScheduled: bool,
    remainder: Bytes,
    flushScheduled: bool,
    buffer: Bytes,
    connected: bool,
    drained: nat,
    wire: Bytes,
    sent: seq<Frame>,
    offeredId: Bytes)

  const NEW_CLIENT := Client(Idle, false, 1, 0, 0, 0, [], 0, None, 0, 0, false, 0, false, [], false, [], false, 0, [], [], [])

  /** The manager: whether a send is active, how many it has accepted and how each one ended. */
  datatype Sender = Sender(job: Job, client: Client, active: bool, accepted: nat, completions: seq<Result<()>>)

  /** What the file system, the random source and the socket do during one step. */
  datatype Io = Io(accepts: int, fileExists: bool, opens: bool, readFails: bool, transferId: Bytes)

  const NOT_CONNECTED := Error(ConnectionFailed, "socket is not connected")
  const NOT_ACCEPTED := Error(Busy, "previous frame is not fully accepted")
  const NOT_ENCODABLE := Error(PayloadTooLarge, "frame cannot be encoded")
  const WRITE_ERROR := Error(ConnectionFailed, "write failed")
  const CONNECTION_ERROR := Error(ConnectionFailed, "connection error")
  const UNEXPECTED_STATE := Error(ProtocolError, "unexpected state")
  const UNEXPECTED_RESULT := Error(InvalidArgument, "unexpected FileResult")
  const SEND_BUSY := Error(Busy, "file transfer already active")
  const NO_FILE := Error(PathNotFound, "file does not exist")
  const FILE_ERROR := Error(IoError, "file cannot be read")
  const STOPPED := Error(Cancelled, "LAN transfer stopped")
  const CLOSED_EARLY := Error(ConnectionFailed, "connection closed before transfer completed")
  const LOST_WHILE_SENDING := Error(ConnectionFailed, "socket disconnected while sending")

  /** Bytes the socket has accepted but not let go, and those it has not accepted. */
  function Pending(c: Client): int {
    |c.wire| - c.drained + |c.remainder|
  }

  predicate Ended(state: TransferState) {
    state == Completed || state == Failed
  }

  function NextId(id: uint64): uint64 {
    (id + 1) % WORD
  }

  /* ---------------------------------------------------------------- schedules */

  function ScheduleRemainderFlush(c: Client): Client {
    if c.flushScheduled || c.remainder == [] || !c.connected || Ended(c.state) || c.state == Idle then c
    else c.(flushScheduled := true)
  }

  function ScheduleSendPump(c: Client): Client {
    if c.pumpScheduled || c.state != Sending || !c.connected || c.remainder != [] || Pending(c) >= HIGH_WATER_MARK then c
    else c.(pumpScheduled := true)
  }

  /* ---------------------------------------------------------------- endings */

  function DisconnectFromHost(c: Client): Client {
    c.(state := Idle, handshakeComplete := false, offerId := 0, finishId := 0, transferId := [], pumpScheduled := false,
       remainder := [], flushScheduled := false, fileOpen := false, buffer := [], connected := false)
  }

  /** Complete the active send, once. */
  function FinishOutgoing(s: Sender, r: Result<()>): Sender {
    if !s.active then s
    else s.(active := false, completions := s.completions + [r], client := DisconnectFromHost(s.client))
  }

  function FailTransfer(s: Sender, error: Error): Sender {
    if Ended(s.client.state) then s
    else
      FinishOutgoing(s.(client := s.client.(fileOpen := false, pumpScheduled := false, remainder := [],
                                            flushScheduled := false, state := Failed)),
                     Failure(error))
  }

  function HandleError(s: Sender): Sender {
    if Ended(s.client.state) then s
    else if s.client.state == Idle then FinishOutgoing(s, Failure(CONNECTION_ERROR))
    else FailTransfer(s, CONNECTION_ERROR)
  }

  /** Abort the socket, or ask it to disconnect. */
  function SocketDown(s: Sender): Sender {
    s.(client := s.client.(connected := false))
  }

  function HandleDisconnected(s: Sender): Sender {
    var c := s.client;
    var failed := c.state == Offering || c.state == Sending || c.state == Finishing;
    FinishOutgoing(
      s.(client := c.(handshakeComplete := false, hashGeneration := c.hashGeneration + 1,
                      state := if failed then Failed else c.state, offerId := 0, finishId := 0, transferId := [],
                      pumpScheduled := false, remainder := [], flushScheduled := false, fileOpen := false,
                      buffer := [], connected := false)),
      Failure(CLOSED_EARLY))
  }

  /* ---------------------------------------------------------------- sending */

  function SendFrame(c: Client, frame: Frame, io: Io): Result<Client> {
    if !c.connected then Failure(NOT_CONNECTED)
    else if c.remainder != [] then Failure(NOT_ACCEPTED)
    else if !Encodable(frame) then Failure(NOT_ENCODABLE)
    else
      var bytes := Layout(frame);
      var accepted := BytesTaken(io.accepts, |bytes|);
      if accepted < 0 then Failure(WRITE_ERROR)
      else Success(ScheduleRemainderFlush(
        c.(wire := c.wire + bytes[..accepted], remainder := bytes[accepted..], sent := c.sent + [frame])))
  }

  function SendHello(w: World, s: Sender, io: Io): Sender {
    match w.encode(Hello)
    case Failure(_) => HandleError(s)
    case Success(payload) =>
      var id := s.client.nextRequestId;
      var c := s.client.(state := HelloSent, helloId := id, nextRequestId := NextId(id));
      match SendFrame(c, FrameOf(Hello, id, payload), io)
      case Failure(e) => SocketDown(FailTransfer(s.(client := c), e))
      case Success(sent) => s.(client := sent)
  }

  /** What the manager does once the handshake is complete. */
  function SendFile(s: Sender, io: Io): Sender {
    var c := s.client;
    if c.hashing.Some? || c.state == Offering || c.state == Sending || c.state == Finishing
    then FinishOutgoing(s, Failure(SEND_BUSY))
    else if !s.active || !io.fileExists then FinishOutgoing(s, Failure(NO_FILE))
    else
      s.(client := c.(fileOpen := false, sendOffset := 0, fileSize := |s.job.source|, state := Offering,
                      hashGeneration := c.hashGeneration + 1, hashing := Some(c.hashGeneration + 1)))
  }

  /** The offer; the second result is the request identifier, zero if it was not sent. */
  function SendFileOffer(w: World, s: Sender, offer: Message, io: Io): (Sender, uint64)
    requires offer.Offer?
  {
    if !s.client.handshakeComplete || (s.client.state != Idle && s.client.state != Offering) then (s, 0)
    else
      match w.encode(offer)
      case Failure(_) => (HandleError(s), 0)
      case Success(payload) =>
        var id := s.client.nextRequestId;
        var c := s.client.(nextRequestId := NextId(id), offerId := id, transferId := offer.transferId,
                           offeredId := offer.transferId, state := Offering);
        match SendFrame(c, FrameOf(offer, id, payload), io)
        case Failure(e) => (FailTransfer(s.(client := c), e), 0)
        case Success(sent) => (s.(client := sent), id)
  }

  function OfferFor(w: World, job: Job, transferId: Bytes): Message {
    Offer(transferId, job.fileName, |job.source| % WORD, CHUNK_SIZE, w.sha256(job.source))
  }

  function HandleHashResult(w: World, s: Sender, hashed: bool, io: Io): Sender {
    match s.client.hashing
    case None => s
    case Some(generation) =>
      var c := s.client.(hashing := None);
      var idle := s.(client := c);
      if generation != c.hashGeneration || c.state != Offering then idle
      else if !hashed || !io.opens then FailTransfer(idle, FILE_ERROR)
      else
        var ready := s.(client := c.(fileOpen := true, sendOffset := 0, position := 0, fileSize := |s.job.source|));
        var (offered, id) := SendFileOffer(w, ready, OfferFor(w, s.job, io.transferId), io);
        if id == 0 then offered.(client := offered.client.(fileOpen := false, state := Failed)) else offered
  }

  function SendFileFinish(w: World, s: Sender, io: Io): Sender {
    if s.client.state != Sending then s
    else
      match w.encode(Finish(s.client.transferId))
      case Failure(e) => FailTransfer(s, e)
      case Success(payload) =>
        var id := s.client.nextRequestId;
        var c := s.client.(fileOpen := false, state := Finishing, finishId := id, nextRequestId := NextId(id));
        match SendFrame(c, FrameOf(Finish(c.transferId), id, payload), io)
        case Failure(e) => SocketDown(FailTransfer(s.(client := c), e))
        case Success(sent) => s.(client := sent)
  }

  /** The bytes one read of the file yields. */
  function ReadAt(source: Bytes, position: nat): Bytes {
    if position >= |source| then []
    else if |source| - position <= CHUNK_SIZE then source[position..]
    else source[position..position + CHUNK_SIZE]
  }

  /** Hand a chunk of so many bytes to the socket. */
  function SendChunk(s: Sender, payload: Bytes, size: nat, io: Io): Sender {
    var id := s.client.nextRequestId;
    var c := s.client.(nextRequestId := NextId(id));
    match SendFrame(c, Frame(FILE_CHUNK, 0, id, payload), io)
    case Failure(e) => SocketDown(FailTransfer(s.(client := c), e))
    case Success(sent) => s.(client := ScheduleSendPump(sent.(sendOffset := sent.sendOffset + size)))
  }

  /** The send pump. */
  function SendNextChunk(w: World, s: Sender, io: Io): Sender {
    var c := s.client.(pumpScheduled := false);
    var fired := s.(client := c);
    if c.state != Sending || !c.fileOpen then fired
    else if !c.connected then FailTransfer(fired, LOST_WHILE_SENDING)
    else if Pending(c) >= HIGH_WATER_MARK then fired
    else if c.sendOffset >= c.fileSize || c.position >= |s.job.source| then SendFileFinish(w, fired, io)
    else if io.readFails then FailTransfer(fired, FILE_ERROR)
    else
      var data := ReadAt(s.job.source, c.position);
      var read := s.(client := c.(position := c.position + |data|));
      match EncodeChunk(FileChunk(c.transferId, c.sendOffset % WORD, data))
      case Failure(e) => FailTransfer(read, e)
      case Success(payload) => SendChunk(read, payload, |data|, io)
  }

  function HandleBytesWritten(c: Client): Client {
    if c.remainder != [] then ScheduleRemainderFlush(c) else ScheduleSendPump(c)
  }

  function FlushWriteRemainder(s: Sender, io: Io): Sender {
    var c := s.client.(flushScheduled := false);
    if c.remainder == [] then s.(client := ScheduleSendPump(c))
    else if !c.connected || Ended(c.state) || c.state == Idle then s.(client := c.(remainder := []))
    else
      var accepted := BytesTaken(io.accepts, |c.remainder|);
      if accepted < 0 then SocketDown(FailTransfer(s.(client := c), WRITE_ERROR))
      else
        var flushed := c.(wire := c.wire + c.remainder[..accepted], remainder := c.remainder[accepted..]);
        s.(client := if flushed.remainder != [] then ScheduleRemainderFlush(flushed) else ScheduleSendPump(flushed))
  }

  /* ---------------------------------------------------------------- frames */

  function HandleHelloAck(w: World, s: Sender, frame: Frame, io: Io): Sender {
    if s.client.state != HelloSent || frame.requestId != s.client.helloId
    then SocketDown(FailTransfer(s, UNEXPECTED_STATE))
    else if Decode(w, frame).Failure? || !Decode(w, frame).value.HelloAck? then SocketDown(HandleError(s))
    else SendFile(s.(client := s.client.(handshakeComplete := true, helloId := 0, state := Idle)), io)
  }

  function HandleFileAccept(w: World, s: Sender, frame: Frame): Sender {
    if s.client.state != Offering then SocketDown(FailTransfer(s, UNEXPECTED_STATE))
    else if Decode(w, frame).Failure? || !Decode(w, frame).value.Accept? then SocketDown(HandleError(s))
    else if frame.requestId != s.client.offerId || Decode(w, frame).value.transferId != s.client.transferId
    then SocketDown(HandleError(s))
    else if s.client.fileOpen then s.(client := ScheduleSendPump(s.client.(state := Sending)))
    else s.(client := s.client.(state := Idle))
  }

  function HandleFileReject(w: World, s: Sender, frame: Frame): Sender {
    if s.client.state != Offering then SocketDown(FailTransfer(s, UNEXPECTED_STATE))
    else if Decode(w, frame).Failure? || !Decode(w, frame).value.Reject? then SocketDown(HandleError(s))
    else if frame.requestId != s.client.offerId || Decode(w, frame).value.transferId != s.client.transferId
    then SocketDown(HandleError(s))
    else
      FinishOutgoing(
        s.(client := s.client.(fileOpen := false, pumpScheduled := false, remainder := [], flushScheduled := false,
                               state := if s.client.fileOpen then Failed else Idle)),
        Failure(Decode(w, frame).value.error))
  }

  function HandleFileResult(w: World, s: Sender, frame: Frame): Sender {
    if Ended(s.client.state) then s
    else if s.client.state != Finishing then SocketDown(FailTransfer(s, UNEXPECTED_STATE))
    else
      match Decode(w, frame)
      case Failure(e) => SocketDown(FailTransfer(s, e))
      case Success(m) =>
        if !m.FileResult? || frame.requestId != s.client.finishId || m.transferId != s.client.transferId
        then SocketDown(FailTransfer(s, UNEXPECTED_RESULT))
        else
          FinishOutgoing(s.(client := s.client.(fileOpen := false, state := if m.ok then Completed else Failed)),
                         if m.ok then Success(()) else Failure(m.error))
  }

  function DispatchFrame(w: World, s: Sender, frame: Frame, io: Io): Sender {
    if frame.kind == HELLO_ACK then HandleHelloAck(w, s, frame, io)
    else if frame.kind == FILE_ACCEPT then HandleFileAccept(w, s, frame)
    else if frame.kind == FILE_REJECT then HandleFileReject(w, s, frame)
    else if frame.kind == FILE_RESULT then HandleFileResult(w, s, frame)
    else SocketDown(HandleError(s))
  }

  function IoAt(ios: seq<Io>, i: nat): Io {
    if i < |ios| then ios[i] else Io(-1, false, false, true, [])
  }

  function DispatchAll(w: World, s: Sender, frames: seq<Frame>, ios: seq<Io>): Sender
    decreases |frames|
  {
    if frames == [] then s
    else DispatchFrame(w, DispatchAll(w, s, frames[..|frames| - 1], ios), frames[|frames| - 1], IoAt(ios, |frames| - 1))
  }

  function HandleReadyRead(w: World, s: Sender, bytes: Bytes, ios: seq<Io>): Sender {
    var (frames, rest) := PushResult(s.client.buffer, bytes);
    var pushed := s.(client := s.client.(buffer := rest));
    match frames
    case Failure(_) => SocketDown(HandleError(pushed))
    case Success(fs) => DispatchAll(w, pushed, fs, ios)
  }

  /* ---------------------------------------------------------------- events */

  datatype Event =
    | StartSend(job: Job)
    | Connected(io: Io)
    | Receive(bytes: Bytes, ios: seq<Io>)
    | HashDone(hashed: bool, io: Io)
    | PumpFires(io: Io)
    | FlushFires(io: Io)
    | Drained(n: nat)
    | SocketError
    | Disconnected
    | Stop

  /** A timer fires only when scheduled, the socket lets go only of what it holds, identifiers are well formed. */
  predicate Enabled(s: Sender, e: Event) {
    match e
    case StartSend(job) => |job.source| < WORD
    case Connected(_) => s.client.state == Connecting && !s.client.connected
    case HashDone(_, io) => s.client.hashing.Some? && IsLowerHex(io.transferId, TRANSFER_ID_LENGTH)
    case PumpFires(_) => s.client.pumpScheduled
    case FlushFires(_) => s.client.flushScheduled
    case Drained(n) => s.client.drained + n <= |s.client.wire|
    case _ => true
  }

  function Apply(w: World, s: Sender, e: Event): Sender {
    match e
    case StartSend(job) =>
      if s.active then s
      else Sender(job, NEW_CLIENT.(state := Connecting), true, s.accepted + 1, s.completions)
    case Connected(io) => SendHello(w, s.(client := s.client.(connected := true)), io)
    case Receive(bytes, ios) => HandleReadyRead(w, s, bytes, ios)
    case HashDone(hashed, io) => HandleHashResult(w, s, hashed, io)
    case PumpFires(io) => SendNextChunk(w, s, io)
    case FlushFires(io) => FlushWriteRemainder(s, io)
    case Drained(n) => s.(client := HandleBytesWritten(s.client.(drained := s.client.drained + n)))
    case SocketError => HandleError(s)
    case Disconnected => HandleDisconnected(s)
    case Stop => FinishOutgoing(s, Failure(STOPPED))
  }

  ghost predicate Legal(w: World, s: Sender, es: seq<Event>)
    decreases |es|
  {
    es == [] || (Enabled(s, es[0]) && Legal(w, Apply(w, s, es[0]), es[1..]))
  }

  function After(w: World, s: Sender, es: seq<Event>): Sender
    decreases |es|
  {
    if es == [] then s else After(w, Apply(w, s, es[0]), es[1..])
  }

  function Init(): Sender {
    Sender(Job([], []), NEW_CLIENT, false, 0, [])
  }
}
