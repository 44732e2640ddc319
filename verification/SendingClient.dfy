/**
 The sending client with its manager as the objects they are: a client for each send, which owns a
 decoder, an open file and a socket with the bytes it has yet to let go. Every handler carries out its
 step on what these objects stand for.
 */
module SendingClient {
  import opened Bytes
  import opened ChunkCodec
  import opened FrameCodec
  import opened Messages
  import opened Results
  import opened TransferClient
  import opened SenderInvariant
  import opened SenderDecisions
  import opened SenderEndings

  /** A file open for reading. */
  class SourceFile {
    const content: Bytes
    var position: nat

    constructor (content: Bytes)
      ensures this.content == content && position == 0
    {
      this.content, position := content, 0;
    }

    predicate AtEnd()
      reads this
    {
      position >= |content|
    }

    /** The next piece, of 256 KiB unless the file ends before. */
    method Read() returns (piece: Bytes)
      modifies this
      ensures piece == ReadAt(content, old(position)) && position == old(position) + |piece|
    {
      var rest: nat := if AtEnd() then 0 else |content| - position;
      var size := if rest <= CHUNK_SIZE then rest else CHUNK_SIZE;
      piece := if size == 0 then [] else content[position..position + size];
      position := position + size;
    }
  }

  /** Hash a file read in pieces: the hash is that of its whole contents. */
  method HashFile(world: World, file: SourceFile) returns (sha256: Bytes)
    requires file.position == 0
    modifies file
    ensures sha256 == world.sha256(file.content)
  {
    var added: Bytes := [];
    while !file.AtEnd()
      invariant file.position <= |file.content| && added == file.content[..file.position]
      decreases |file.content| - file.position
    {
      ghost var from := file.position;
      var piece := file.Read();
      assert file.content[..from] + piece == file.content[..from + |piece|];
      added := added + piece;
    }
    assert file.content[..|file.content|] == file.content;
    sha256 := world.sha256(added);
  }

  class TcpTransferClient {
    const decoder: FrameDecoder
    var state: TransferState
    var handshakeComplete: bool
    var nextRequestId: uint64
    var helloId: uint64
    var offerId: uint64
    var finishId: uint64
    var transferId: Bytes
    var hashGeneration: nat
    var hashing: Option<nat>
    var sendOffset: nat
    var fileSize: nat
    var file: SourceFile?
    var pumpScheduled: bool
    var remainder: Bytes
    var flushScheduled: bool
    var connected: bool
    var bytesToWrite: nat
    ghost var closedAt: nat
    ghost var wire: Bytes
    ghost var sent: seq<Frame>
    ghost var offeredId: Bytes

    /** The socket cannot hold more than it was given. */
    ghost predicate Sound()
      reads this
    {
      bytesToWrite <= |wire|
    }

    /** What the objects stand for. */
    ghost function Value(): Client
      requires Sound()
      reads this, decoder, file
    {
      Client(state, handshakeComplete, nextRequestId, helloId, offerId, finishId, transferId, hashGeneration, hashing,
             sendOffset, fileSize, file != null, if file == null then closedAt else file.position, pumpScheduled, remainder,
             flushScheduled, decoder.buffer, connected, |wire| - bytesToWrite, wire, sent, offeredId)
    }

    constructor ()
      ensures Sound() && Value() == NEW_CLIENT && fresh(decoder) && file == null
    {
      decoder := new FrameDecoder();
      state, handshakeComplete, nextRequestId, helloId, offerId, finishId := Idle, false, 1, 0, 0, 0;
      transferId, hashGeneration, hashing, sendOffset, fileSize, file := [], 0, None, 0, 0, null;
      pumpScheduled, remainder, flushScheduled, connected, bytesToWrite := false, [], false, false, 0;
      closedAt, wire, sent, offeredId := 0, [], [], [];
    }

    method CloseFile()
      requires Sound()
      modifies this`file, this`closedAt
      ensures Sound() && file == null && Value() == old(Value()).(fileOpen := false)
    {
      closedAt := if file == null then closedAt else file.position;
      file := null;
    }

    method ScheduleFlush()
      requires Sound()
      modifies this`flushScheduled
      ensures Sound() && Value() == ScheduleRemainderFlush(old(Value()))
    {
      if flushScheduled || remainder == [] || !connected || Ended(state) || state == Idle {
        return;
      }
      flushScheduled := true;
    }

    method SchedulePump()
      requires Sound()
      modifies this`pumpScheduled
      ensures Sound() && Value() == ScheduleSendPump(old(Value()))
      ensures pumpScheduled <==>
        (old(pumpScheduled) || (state == Sending && connected && remainder == [] && bytesToWrite < HIGH_WATER_MARK))
    {
      if pumpScheduled || state != Sending || !connected || remainder != [] || bytesToWrite + |remainder| >= HIGH_WATER_MARK {
        return;
      }
      pumpScheduled := true;
    }

    method ForgetIds()
      requires Sound()
      modifies this`handshakeComplete, this`offerId, this`finishId, this`transferId
      ensures Sound() && file == old(file) && state == old(state)
      ensures Value() == old(Value()).(handshakeComplete := false, offerId := 0, finishId := 0, transferId := [])
    {
      handshakeComplete, offerId, finishId, transferId := false, 0, 0, [];
    }

    /** A hash still to come is for nobody. */
    method AbandonHash()
      requires Sound()
      modifies this`hashGeneration
      ensures Sound() && Value() == old(Value()).(hashGeneration := old(Value()).hashGeneration + 1)
    {
      hashGeneration := hashGeneration + 1;
    }

    method CutOff()
      requires Sound()
      modifies this`connected, decoder
      ensures Sound() && Value() == old(Value()).(buffer := [], connected := false)
    {
      decoder.Reset();
      connected := false;
    }

    method Disconnect()
      requires Sound()
      modifies this, decoder
      ensures Sound() && file == null && Value() == DisconnectFromHost(old(Value()))
    {
      hide Value;
      ForgetIds();
      Drop(Idle);
      CutOff();
    }

    /** The hash has come in; is it still wanted? */
    method TakeHash() returns (wanted: bool)
      requires Sound() && hashing.Some?
      modifies this`hashing
      ensures Sound() && Value() == old(Value()).(hashing := None)
      ensures var c := old(Value());
        c.hashing.Some? && wanted == (c.hashing.value == c.hashGeneration && c.state == Offering)
    {
      wanted := hashing.value == hashGeneration && state == Offering;
      hashing := None;
    }

    /** Open the file from its start. */
    method Open(content: Bytes)
      requires Sound()
      modifies this
      ensures Sound() && fresh(file) && file.content == content
      ensures Value() == old(Value()).(fileOpen := true, sendOffset := 0, position := 0, fileSize := |content|)
    {
      file := new SourceFile(content);
      sendOffset, fileSize := 0, |content|;
    }

    method BeginHello() returns (id: uint64)
      requires Sound()
      modifies this`state, this`helloId, this`nextRequestId
      ensures Sound() && id == old(Value()).nextRequestId
      ensures Value() == old(Value()).(state := HelloSent, helloId := id, nextRequestId := NextId(id))
    {
      hide NextId;
      state, id := HelloSent, nextRequestId;
      helloId, nextRequestId := id, NextId(id);
    }

    /** From now on the hash of the file is awaited. */
    method StartHashing(size: nat)
      requires Sound()
      modifies this
      ensures Sound() && file == null
      ensures var c := old(Value());
        Value() == c.(fileOpen := false, sendOffset := 0, fileSize := size, state := Offering,
                      hashGeneration := c.hashGeneration + 1, hashing := Some(c.hashGeneration + 1))
    {
      CloseFile();
      sendOffset, fileSize, state := 0, size, Offering;
      hashGeneration := hashGeneration + 1;
      hashing := Some(hashGeneration);
    }

    method BeginOffer(id: Bytes) returns (requestId: uint64)
      requires Sound()
      modifies this`nextRequestId, this`offerId, this`transferId, this`offeredId, this`state
      ensures Sound() && file == old(file) && requestId == old(Value()).nextRequestId
      ensures Value() == old(Value()).(nextRequestId := NextId(requestId), offerId := requestId, transferId := id,
                                       offeredId := id, state := Offering)
    {
      hide NextId, Value;
      requestId := TakeRequestId();
      NoteOffer(requestId, id);
    }

    /** An offer with these identifiers is about to go out. */
    method NoteOffer(requestId: uint64, id: Bytes)
      requires Sound()
      modifies this`offerId, this`transferId, this`offeredId, this`state
      ensures Sound() && file == old(file)
      ensures Value() == old(Value()).(offerId := requestId, transferId := id, offeredId := id, state := Offering)
    {
      offerId, transferId, offeredId, state := requestId, id, id, Offering;
    }

    /** The file is done with; the finish gets the next identifier. */
    method BeginFinish() returns (id: uint64)
      requires Sound()
      modifies this
      ensures Sound() && file == null && id == old(nextRequestId) && transferId == old(transferId)
      ensures Value() == old(Value()).(fileOpen := false, state := Finishing, finishId := id, nextRequestId := NextId(id))
    {
      hide NextId;
      CloseFile();
      state, id := Finishing, nextRequestId;
      finishId, nextRequestId := id, NextId(id);
    }

    method TakeRequestId() returns (id: uint64)
      requires Sound()
      modifies this`nextRequestId
      ensures Sound() && id == old(Value()).nextRequestId && Value() == old(Value()).(nextRequestId := NextId(id))
    {
      hide NextId;
      id := nextRequestId;
      nextRequestId := NextId(id);
    }

    /** The connection is lost, and with it all that was pending. */
    method Lose()
      requires Sound()
      modifies this, decoder
      ensures Sound() && file == null
      ensures var c := old(Value());
        Value() == c.(handshakeComplete := false, hashGeneration := c.hashGeneration + 1,
                      state := if c.state == Offering || c.state == Sending || c.state == Finishing then Failed else c.state,
                      offerId := 0, finishId := 0, transferId := [], pumpScheduled := false, remainder := [],
                      flushScheduled := false, fileOpen := false, buffer := [], connected := false)
    {
      AbandonHash();
      ForgetIds();
      assert state == Value().state;
      hide Value;
      Drop(if state == Offering || state == Sending || state == Finishing then Failed else state);
      CutOff();
    }

    /** The socket lets go of n bytes: a waiting pump is scheduled exactly once there is room below the mark. */
    method LetGo(n: nat)
      requires Sound() && n <= bytesToWrite
      modifies this`bytesToWrite, this`flushScheduled, this`pumpScheduled
      ensures Sound() && Value() == HandleBytesWritten(old(Value()).(drained := old(Value()).drained + n))
      ensures state == Sending && !old(pumpScheduled) && remainder == [] && connected ==>
        (pumpScheduled <==> bytesToWrite < HIGH_WATER_MARK)
    {
      hide ScheduleSendPump, ScheduleRemainderFlush;
      bytesToWrite := bytesToWrite - n;
      if remainder != [] {
        ScheduleFlush();
      } else {
        SchedulePump();
      }
    }

    /** So much of the file is sent; on with the next piece. */
    method Advance(size: nat)
      requires Sound()
      modifies this`sendOffset, this`pumpScheduled
      ensures Sound() && Value() == ScheduleSendPump(old(Value()).(sendOffset := old(Value()).sendOffset + size))
    {
      sendOffset := sendOffset + size;
      SchedulePump();
    }

    /** Nothing more is to be sent. */
    method Drop(next: TransferState)
      requires Sound()
      modifies this
      ensures Sound() && file == null
      ensures Value() == old(Value()).(fileOpen := false, pumpScheduled := false, remainder := [], flushScheduled := false,
                                       state := next)
    {
      CloseFile();
      pumpScheduled, remainder, flushScheduled, state := false, [], false, next;
    }

    method End(next: TransferState)
      requires Sound()
      modifies this
      ensures Sound() && file == null && Value() == old(Value()).(fileOpen := false, state := next)
    {
      CloseFile();
      state := next;
    }

    method CompleteHandshake()
      requires Sound()
      modifies this
      ensures Sound() && file == old(file)
      ensures Value() == old(Value()).(handshakeComplete := true, helloId := 0, state := Idle)
    {
      handshakeComplete, helloId, state := true, 0, Idle;
    }

    /** The flush has come; is there anything to flush, and should it be? */
    method TakeFlush() returns (wanted: bool)
      requires Sound()
      modifies this`flushScheduled
      ensures Sound() && Value() == old(Value()).(flushScheduled := false)
      ensures wanted == (old(Value()).connected && !Ended(old(Value()).state) && old(Value()).state != Idle)
    {
      flushScheduled := false;
      wanted := connected && !Ended(state) && state != Idle;
    }

    method DropLeftOver()
      requires Sound()
      modifies this`remainder
      ensures Sound() && Value() == old(Value()).(remainder := [])
    {
      remainder := [];
    }

    method Write(ghost frame: Frame, bytes: Bytes, taken: nat)
      requires Sound() && taken <= |bytes|
      modifies this`remainder, this`bytesToWrite, this`wire, this`sent
      ensures Sound() && wire + remainder == old(wire) + bytes && sent == old(sent) + [frame]
      ensures Value() == old(Value()).(wire := old(Value()).wire + bytes[..taken], remainder := bytes[taken..],
                                       sent := old(Value()).sent + [frame])
    {
      assert bytes[..taken] + bytes[taken..] == bytes;
      wire, sent, bytesToWrite := wire + bytes[..taken], sent + [frame], bytesToWrite + taken;
      remainder := bytes[taken..];
    }

    /**
     A frame is sent exactly if the socket is connected and does not fail, nothing is left over and the
     frame can be encoded. All of its bytes are then on the wire or left over, and the left-over waits.
     */
    method SendFrame(frame: Frame, io: Io) returns (r: Result<()>)
      requires Sound()
      modifies this`remainder, this`flushScheduled, this`bytesToWrite, this`wire, this`sent
      ensures Sound()
      ensures match TransferClient.SendFrame(old(Value()), frame, io)
              case Failure(e) => r == Failure(e) && Value() == old(Value())
              case Success(c) => r == Success(()) && Value() == c
      ensures r.Success? <==> connected && old(remainder) == [] && Encodable(frame) && io.accepts >= 0
      ensures r.Failure? ==> r.error == if !connected then NOT_CONNECTED else if old(remainder) != [] then NOT_ACCEPTED
                                        else if !Encodable(frame) then NOT_ENCODABLE else WRITE_ERROR
      ensures r.Success? ==> wire + remainder == old(wire) + Layout(frame) && sent == old(sent) + [frame]
    {
      hide Layout, Encodable;
      assert Value().connected == connected && Value().remainder == remainder && Value().wire == wire && Value().sent == sent;
      hide Value, ScheduleRemainderFlush;
      if !connected {
        return Failure(NOT_CONNECTED);
      }
      if remainder != [] {
        return Failure(NOT_ACCEPTED);
      }
      var encoded := Encode(frame);
      if encoded.Failure? {
        return Failure(NOT_ENCODABLE);
      }
      var bytes := encoded.value;
      var taken := BytesTaken(io.accepts, |bytes|);
      if taken < 0 {
        return Failure(WRITE_ERROR);
      }
      Write(frame, bytes, taken);
      ScheduleFlush();
      return Success(());
    }

    /** The socket takes some of what was left over; nothing is lost or sent twice. */
    method WriteLeftOver(taken: nat)
      requires Sound() && taken <= |remainder|
      modifies this`remainder, this`bytesToWrite, this`wire
      ensures Sound() && wire + remainder == old(wire) + old(remainder) && remainder == old(remainder)[taken..]
      ensures Value() == old(Value()).(wire := old(wire) + old(remainder)[..taken], remainder := old(remainder)[taken..])
    {
      assert remainder[..taken] + remainder[taken..] == remainder;
      wire, bytesToWrite := wire + remainder[..taken], bytesToWrite + taken;
      remainder := remainder[taken..];
    }
  }

  lemma FreshStart(w: World, s: Sender, job: Job)
    requires Inv(w, s) && |job.source| < WORD
    ensures !s.active ==> Inv(w, Sender(job, NEW_CLIENT.(state := Connecting), true, s.accepted + 1, s.completions))
  {
    StartKeeps(w, s, job);
  }

  /** What the manager finds at the path it is asked to send. */
  datatype PathState = NoPath | Missing | Broken(error: Error) | NotRegular | Unreadable | Readable

  datatype Request = Request(path: PathState, host: Bytes, port: uint16, job: Job)

  const SEND_ACTIVE := Error(ErrorCode.Busy, "an outgoing transfer is already active")

  class Outgoing {
    const world: World
    var client: TcpTransferClient
    var job: Job
    var active: bool
    ghost var accepted: nat
    ghost var completions: seq<Result<()>>

    /** The open file is the one to be sent. */
    ghost predicate Linked()
      reads this, client, client.file
    {
      client.Sound() && (client.file != null ==> client.file.content == job.source)
    }

    /** What the objects stand for. */
    ghost function State(): Sender
      requires Linked()
      reads this, client, client.decoder, client.file
    {
      Sender(job, client.Value(), active, accepted, completions)
    }

    ghost predicate Valid()
      reads this, client, client.decoder, client.file
    {
      Linked() && Faithful(world) && SmallControl(world) && Inv(world, State())
    }

    constructor (world: World)
      requires Faithful(world) && SmallControl(world)
      ensures Valid() && this.world == world && State() == Init() && fresh(client) && fresh(client.decoder)
    {
      this.world := world;
      client := new TcpTransferClient();
      job, active, accepted, completions := Job([], []), false, 0, [];
      new;
      InitInv(world);
    }

    function Refusal(request: Request): (refusal: Option<Error>)
      reads this
      ensures refusal.None? <==> !active && request.path.Readable? && request.host != [] && request.port != 0
      ensures active ==> refusal == Some(SEND_ACTIVE)
    {
      if active then Some(SEND_ACTIVE)
      else
        match request.path
        case NoPath => Some(Error(InvalidArgument, "file path must not be empty"))
        case Missing => Some(Error(PathNotFound, "file does not exist"))
        case Broken(error) => Some(error)
        case NotRegular => Some(Error(InvalidArgument, "path is not a regular file"))
        case Unreadable => Some(Error(PermissionDenied, "file is not readable"))
        case Readable =>
          if request.host == [] then Some(Error(InvalidArgument, "host must not be empty"))
          else if request.port == 0 then Some(Error(InvalidArgument, "port must be in range 1..65535"))
          else None
    }

    /** A send is accepted exactly if none is active and path, host and port are good; it gets a client of its own. */
    method StartSending(request: Request) returns (r: Result<()>)
      requires Valid() && |request.job.source| < WORD
      modifies this
      ensures Valid()
      ensures r.Success? <==> !old(active) && request.path.Readable? && request.host != [] && request.port != 0
      ensures old(active) ==> r == Failure(SEND_ACTIVE)
      ensures !old(active) && r.Failure? ==>
        && (request.path.Missing? ==> r.error.code == PathNotFound)
        && (request.path.Broken? ==> r.error == request.path.error)
        && (request.path.Unreadable? ==> r.error.code == PermissionDenied)
        && (request.path.NoPath? || request.path.NotRegular? || request.path.Readable? ==> r.error.code == InvalidArgument)
      ensures r.Failure? ==> client == old(client) && State() == old(State())
      ensures r.Success? ==> fresh(client) && fresh(client.decoder) && client.file == null
      ensures r.Success? ==>
        State() == Sender(request.job, NEW_CLIENT.(state := Connecting), true, old(accepted) + 1, old(completions))
    {
      hide Inv;
      FreshStart(world, State(), request.job);
      var refusal := Refusal(request);
      if refusal.Some? {
        return Failure(refusal.value);
      }
      client := new TcpTransferClient();
      active, accepted, job := true, accepted + 1, request.job;
      client.state := Connecting;
      return Success(());
    }

    /* ---------------------------------------------------------------- endings */

    /** Ends the active send, and only the active one. */
    method Complete(r: Result<()>)
      requires Linked()
      modifies this, client, client.decoder
      ensures Linked() && client == old(client) && (client.file == null || client.file == old(client.file))
      ensures State() == FinishOutgoing(old(State()), r)
      ensures !active && completions == if old(active) then old(completions) + [r] else old(completions)
    {
      if !active {
        return;
      }
      active := false;
      client.Disconnect();
      completions := completions + [r];
    }

    method Fail(error: Error)
      requires Linked()
      modifies this, client, client.decoder
      ensures Linked() && client == old(client) && (client.file == null || client.file == old(client.file))
      ensures State() == FailTransfer(old(State()), error)
    {
      hide FinishOutgoing;
      if Ended(client.state) {
        return;
      }
      client.Drop(Failed);
      Complete(Failure(error));
    }

    method Abort()
      requires Linked()
      modifies client`connected
      ensures Linked() && client == old(client) && (client.file == null || client.file == old(client.file))
      ensures State() == SocketDown(old(State()))
    {
      client.connected := false;
    }

    method FailAndAbort(error: Error)
      requires Linked()
      modifies this, client, client.decoder
      ensures Linked() && client == old(client) && (client.file == null || client.file == old(client.file))
      ensures State() == SocketDown(FailTransfer(old(State()), error))
    {
      hide FailTransfer, SocketDown, Linked, State;
      Fail(error);
      Abort();
    }

    method ReportError()
      requires Linked()
      modifies this, client, client.decoder
      ensures Linked() && client == old(client) && (client.file == null || client.file == old(client.file))
      ensures State() == TransferClient.HandleError(old(State()))
    {
      hide FailTransfer, FinishOutgoing;
      if Ended(client.state) {
        return;
      }
      if client.state == Idle {
        Complete(Failure(CONNECTION_ERROR));
      } else {
        Fail(CONNECTION_ERROR);
      }
    }

    method ReportAndDisconnect()
      requires Linked()
      modifies this, client, client.decoder
      ensures Linked() && client == old(client) && (client.file == null || client.file == old(client.file))
      ensures State() == SocketDown(TransferClient.HandleError(old(State())))
    {
      hide TransferClient.HandleError, SocketDown, Linked, State;
      ReportError();
      Abort();
    }

    /* ---------------------------------------------------------------- handshake and offer */

    /** Hand a frame to the socket of the client. */
    method Send(frame: Frame, io: Io) returns (r: Result<()>)
      requires Linked()
      modifies client
      ensures Linked() && client == old(client) && client.file == old(client.file)
      ensures match TransferClient.SendFrame(old(client.Value()), frame, io)
              case Failure(e) => r == Failure(e) && State() == old(State())
              case Success(c) => r == Success(()) && State() == old(State()).(client := c)
    {
      hide TransferClient.SendFrame;
      r := client.SendFrame(frame, io);
    }

    method Greet(io: Io)
      requires Linked()
      modifies this, client, client.decoder
      ensures Linked() && client == old(client) && (client.file == null || client.file == old(client.file))
      ensures State() == SendHello(world, old(State()), io)
    {
      hide TransferClient.SendFrame, FailTransfer, NextId, TransferClient.HandleError, SocketDown;
      var payload := world.encode(Hello);
      if payload.Failure? {
        ReportError();
        return;
      }
      var id := client.BeginHello();
      var written := Send(FrameOf(Hello, id, payload.value), io);
      if written.Failure? {
        FailAndAbort(written.error);
      }
    }

    /** Once the handshake is complete: start hashing the file. */
    method BeginSend(io: Io)
      requires Linked()
      modifies this, client, client.decoder
      ensures Linked() && client == old(client) && (client.file == null || client.file == old(client.file))
      ensures State() == SendFile(old(State()), io)
    {
      hide FinishOutgoing;
      if client.hashing.Some? || client.state == Offering || client.state == Sending || client.state == Finishing {
        Complete(Failure(SEND_BUSY));
        return;
      }
      if !active || !io.fileExists {
        Complete(Failure(NO_FILE));
        return;
      }
      client.StartHashing(|job.source|);
    }

    method SendOffer(offer: Message, io: Io) returns (id: uint64)
      requires Linked() && offer.Offer?
      modifies this, client, client.decoder
      ensures Linked() && client == old(client) && (client.file == null || client.file == old(client.file))
      ensures (State(), id) == SendFileOffer(world, old(State()), offer, io)
    {
      hide TransferClient.SendFrame, FailTransfer, NextId, TransferClient.HandleError;
      if !client.handshakeComplete || (client.state != Idle && client.state != Offering) {
        return 0;
      }
      var payload := world.encode(offer);
      if payload.Failure? {
        ReportError();
        return 0;
      }
      id := client.BeginOffer(offer.transferId);
      var written := Send(FrameOf(offer, id, payload.value), io);
      if written.Failure? {
        Fail(written.error);
        return 0;
      }
    }

    /** The hash has come in: open the file and offer it. */
    method OnHashed(hashed: bool, io: Io)
      requires Linked() && client.hashing.Some?
      modifies this, client, client.decoder
      ensures Linked() && client == old(client)
      ensures client.file == null || client.file == old(client.file) || fresh(client.file)
      ensures State() == HandleHashResult(world, old(State()), hashed, io)
    {
      hide SendFileOffer, FailTransfer, TcpTransferClient.Value;
      var wanted := client.TakeHash();
      if !wanted {
        return;
      }
      if !hashed || !io.opens {
        Fail(FILE_ERROR);
        return;
      }
      var id := OfferFile(io);
      if id == 0 {
        client.End(Failed);
      }
    }

    method OfferFile(io: Io) returns (id: uint64)
      requires Linked()
      modifies this, client, client.decoder
      ensures Linked() && client == old(client) && (client.file == null || fresh(client.file))
      ensures var s := old(State());
        (State(), id) == SendFileOffer(world, s.(client := s.client.(fileOpen := true, sendOffset := 0, position := 0,
                                                                     fileSize := |s.job.source|)),
                                       OfferFor(world, s.job, io.transferId), io)
    {
      hide SendFileOffer;
      var toHash := new SourceFile(job.source);
      var sha256 := HashFile(world, toHash);
      client.Open(job.source);
      id := SendOffer(Offer(io.transferId, job.fileName, |job.source| % WORD, CHUNK_SIZE, sha256), io);
    }

    /* ---------------------------------------------------------------- the pump */

    method SendFinish(io: Io)
      requires Linked()
      modifies this, client, client.decoder
      ensures Linked() && client == old(client) && (client.file == null || client.file == old(client.file))
      ensures State() == SendFileFinish(world, old(State()), io)
    {
      hide TransferClient.SendFrame, FailTransfer, NextId, SocketDown;
      if client.state != Sending {
        return;
      }
      var payload := world.encode(Finish(client.transferId));
      if payload.Failure? {
        Fail(payload.error);
        return;
      }
      var id := client.BeginFinish();
      var written := Send(FrameOf(Finish(client.transferId), id, payload.value), io);
      if written.Failure? {
        FailAndAbort(written.error);
      }
    }

    /** The next piece of the file in a frame of its own. */
    method PumpChunk(payload: Bytes, size: nat, io: Io)
      requires Linked()
      modifies this, client, client.decoder
      ensures Linked() && client == old(client) && (client.file == null || client.file == old(client.file))
      ensures State() == SendChunk(old(State()), payload, size, io)
    {
      hide TransferClient.SendFrame, FailTransfer, NextId, SocketDown, ScheduleSendPump, TcpTransferClient.Value;
      var id := client.TakeRequestId();
      var written := Send(Frame(FILE_CHUNK, 0, id, payload), io);
      if written.Failure? {
        FailAndAbort(written.error);
        return;
      }
      client.Advance(size);
    }

    method SendNext(io: Io)
      requires Linked()
      modifies this, client, client.decoder, client.file
      ensures Linked() && client == old(client) && (client.file == null || client.file == old(client.file))
      ensures State() == SendNextChunk(world, old(State()), io)
    {
      hide SendFileFinish, SendChunk, FailTransfer, EncodeChunk, ReadAt;
      client.pumpScheduled := false;
      if client.state != Sending || client.file == null {
        return;
      }
      if !client.connected {
        Fail(LOST_WHILE_SENDING);
        return;
      }
      if client.bytesToWrite + |client.remainder| >= HIGH_WATER_MARK {
        return;
      }
      if client.sendOffset >= client.fileSize || client.file.AtEnd() {
        SendFinish(io);
        return;
      }
      if io.readFails {
        Fail(FILE_ERROR);
        return;
      }
      var data := client.file.Read();
      var payload := EncodeFileChunkPayload(FileChunk(client.transferId, client.sendOffset % WORD, data));
      if payload.Failure? {
        Fail(payload.error);
        return;
      }
      PumpChunk(payload.value, |data|, io);
    }

    method FlushLeftOver(io: Io)
      requires Linked()
      modifies this, client, client.decoder
      ensures Linked() && client == old(client) && (client.file == null || client.file == old(client.file))
      ensures State() == FlushWriteRemainder(old(State()), io)
    {
      hide FailTransfer, ScheduleSendPump, ScheduleRemainderFlush, SocketDown;
      assert client.remainder == State().client.remainder && client.wire == State().client.wire;
      hide TcpTransferClient.Value;
      var wanted := client.TakeFlush();
      if client.remainder == [] {
        client.SchedulePump();
        return;
      }
      if !wanted {
        client.DropLeftOver();
        return;
      }
      var taken := BytesTaken(io.accepts, |client.remainder|);
      if taken < 0 {
        FailAndAbort(WRITE_ERROR);
        return;
      }
      client.WriteLeftOver(taken);
      if client.remainder != [] {
        client.ScheduleFlush();
      } else {
        client.SchedulePump();
      }
    }

    /* ---------------------------------------------------------------- frames */

    method OnHelloAck(frame: Frame, io: Io)
      requires Linked()
      modifies this, client, client.decoder
      ensures Linked() && client == old(client) && (client.file == null || client.file == old(client.file))
      ensures State() == HandleHelloAck(world, old(State()), frame, io)
    {
      hide FailTransfer, SendFile, TransferClient.HandleError, SocketDown;
      if client.state != HelloSent || frame.requestId != client.helloId {
        FailAndAbort(UNEXPECTED_STATE);
        return;
      }
      var ack := Decode(world, frame);
      if ack.Failure? || !ack.value.HelloAck? {
        ReportAndDisconnect();
        return;
      }
      client.CompleteHandshake();
      BeginSend(io);
    }

    method OnAccept(frame: Frame)
      requires Linked()
      modifies this, client, client.decoder
      ensures Linked() && client == old(client) && (client.file == null || client.file == old(client.file))
      ensures State() == HandleFileAccept(world, old(State()), frame)
    {
      hide FailTransfer, TransferClient.HandleError, SocketDown;
      if client.state != Offering {
        FailAndAbort(UNEXPECTED_STATE);
        return;
      }
      var accept := Decode(world, frame);
      if accept.Failure? || !accept.value.Accept?
         || frame.requestId != client.offerId || accept.value.transferId != client.transferId {
        ReportAndDisconnect();
        return;
      }
      if client.file != null {
        client.state := Sending;
        client.SchedulePump();
      } else {
        client.state := Idle;
      }
    }

    method OnReject(frame: Frame)
      requires Linked()
      modifies this, client, client.decoder
      ensures Linked() && client == old(client) && (client.file == null || client.file == old(client.file))
      ensures State() == HandleFileReject(world, old(State()), frame)
    {
      hide FailTransfer, FinishOutgoing, TransferClient.HandleError, SocketDown;
      if client.state != Offering {
        FailAndAbort(UNEXPECTED_STATE);
        return;
      }
      var reject := Decode(world, frame);
      if reject.Failure? || !reject.value.Reject?
         || frame.requestId != client.offerId || reject.value.transferId != client.transferId {
        ReportAndDisconnect();
        return;
      }
      client.Drop(if client.file != null then Failed else Idle);
      Complete(Failure(reject.value.error));
    }

    method OnResult(frame: Frame)
      requires Linked()
      modifies this, client, client.decoder
      ensures Linked() && client == old(client) && (client.file == null || client.file == old(client.file))
      ensures State() == HandleFileResult(world, old(State()), frame)
    {
      hide FailTransfer, FinishOutgoing, SocketDown;
      if Ended(client.state) {
        return;
      }
      if client.state != Finishing {
        FailAndAbort(UNEXPECTED_STATE);
        return;
      }
      var result := Decode(world, frame);
      if result.Failure? {
        FailAndAbort(result.error);
        return;
      }
      var m := result.value;
      if !m.FileResult? || frame.requestId != client.finishId || m.transferId != client.transferId {
        FailAndAbort(UNEXPECTED_RESULT);
        return;
      }
      client.End(if m.ok then Completed else Failed);
      Complete(if m.ok then Success(()) else Failure(m.error));
    }

    /**
     The acknowledgement of this hello, the accept of this offer and the positive result of this finish
     lead on. Any other frame ends the send: a reject or a negative result with the error it gives, the
     rest with the error of the client that received it.
     */
    method Dispatch(frame: Frame, io: Io)
      requires Valid()
      modifies this, client, client.decoder
      ensures Valid() && client == old(client) && (client.file == null || client.file == old(client.file))
      ensures State() == DispatchFrame(world, old(State()), frame, io)
      ensures old(client.state) == HelloSent ==> HandshakeSettled(world, old(State()), frame, io, State())
      ensures old(client.state) == Offering ==> OfferSettled(world, old(State()), frame, State())
      ensures old(client.state) == Offering && RejectsOffer(world, old(State()), frame) ==>
        !active && completions == old(completions) + [Failure(Decode(world, frame).value.error)]
      ensures old(client.state) == Finishing ==> Concludes(old(State()), State(), Verdict(world, old(State()), frame))
      ensures old(client.state) == Finishing && ResolvesFinish(world, old(State()), frame) ==>
        var m := Decode(world, frame).value;
        completions == old(completions) + [if m.ok then Success(()) else Failure(m.error)]
      ensures old(active) && (old(client.state) == Connecting || old(client.state) == Sending) ==>
        Concludes(old(State()), State(), Failure(OutOfTurn(frame.kind)))
      ensures !old(active) ==> !active && completions == old(completions)
    {
      hide Inv, HandleHelloAck, HandleFileAccept, HandleFileReject, HandleFileResult, TransferClient.HandleError, SocketDown,
        HandshakeSettled, OfferSettled, ResolvesFinish, RejectsOffer, Verdict;
      DispatchKeeps(world, State(), frame, io);
      DispatchObserved(world, State(), frame, io);
      if frame.kind == HELLO_ACK {
        OnHelloAck(frame, io);
      } else if frame.kind == FILE_ACCEPT {
        OnAccept(frame);
      } else if frame.kind == FILE_REJECT {
        OnReject(frame);
      } else if frame.kind == FILE_RESULT {
        OnResult(frame);
      } else {
        ReportAndDisconnect();
      }
    }

    method DispatchEach(frames: seq<Frame>, ios: seq<Io>)
      requires Valid()
      modifies this, client, client.decoder
      ensures Valid() && client == old(client) && (client.file == null || client.file == old(client.file))
      ensures State() == DispatchAll(world, old(State()), frames, ios)
    {
      hide DispatchFrame, Inv, HandshakeSettled, OfferSettled, ResolvesFinish, RejectsOffer, Verdict, Linked, State;
      for i := 0 to |frames|
        invariant Valid() && client == old(client) && (client.file == null || client.file == old(client.file))
        invariant State() == DispatchAll(world, old(State()), frames[..i], ios)
      {
        Dispatch(frames[i], IoAt(ios, i));
        assert frames[..i + 1][..i] == frames[..i];
      }
      assert frames[..|frames|] == frames;
    }

    /* ---------------------------------------------------------------- events */

    method Push(bytes: Bytes) returns (frames: Result<seq<Frame>>)
      requires Linked()
      modifies client.decoder
      ensures Linked()
      ensures var c := old(State()).client;
        && frames == PushResult(c.buffer, bytes).0
        && State() == old(State()).(client := c.(buffer := PushResult(c.buffer, bytes).1))
    {
      hide PushResult;
      frames := client.decoder.Push(bytes);
    }

    /** What has arrived goes through the client's decoder, and every frame it completes is dispatched. */
    method ReadyRead(bytes: Bytes, ios: seq<Io>)
      requires Valid()
      modifies this, client, client.decoder
      ensures Valid() && client == old(client) && (client.file == null || client.file == old(client.file))
      ensures State() == HandleReadyRead(world, old(State()), bytes, ios)
      ensures old(State()).active && PushResult(old(State()).client.buffer, bytes).0.Failure? ==>
        Concludes(old(State()), State(), Failure(CONNECTION_ERROR))
    {
      hide Inv, DispatchAll, PushResult, TransferClient.HandleError, SocketDown, Linked, State, Concludes;
      ReadyReadKeeps(world, State(), bytes, ios);
      if State().active && PushResult(State().client.buffer, bytes).0.Failure? {
        BadStreamEnds(world, State(), bytes, ios);
      }
      BufferKeeps(world, State(), PushResult(State().client.buffer, bytes).1);
      var frames := Push(bytes);
      if frames.Failure? {
        ReportAndDisconnect();
      } else {
        DispatchEach(frames.value, ios);
      }
    }

    /** The client greets, or the send ends with what keeps it from doing so. */
    method Connected(io: Io)
      requires Valid() && client.state == Connecting
      modifies this, client, client.decoder
      ensures Valid() && client == old(client) && (client.file == null || client.file == old(client.file))
      ensures State() == SendHello(world, old(State()).(client := old(State()).client.(connected := true)), io)
      ensures GreetingTaken(world, old(State()), io, State())
    {
      hide Inv, SendHello, GreetingTaken;
      HelloKeeps(world, State(), io);
      GreetingDecision(world, State(), io);
      client.connected := true;
      Greet(io);
    }

    /** The hash of the file has come in: the file is offered, or the send ends, or the hash is stale and dropped. */
    method HashDone(hashed: bool, io: Io)
      requires Valid() && client.hashing.Some? && IsLowerHex(io.transferId, TRANSFER_ID_LENGTH)
      modifies this, client, client.decoder
      ensures Valid() && client == old(client)
      ensures client.file == null || client.file == old(client.file) || fresh(client.file)
      ensures State() == HandleHashResult(world, old(State()), hashed, io)
      ensures HashTaken(world, old(State()), hashed, io, State())
    {
      hide Inv, HandleHashResult, HashTaken;
      HashKeeps(world, State(), hashed, io);
      HashDecision(world, State(), hashed, io);
      OnHashed(hashed, io);
    }

    /** A scheduled pump fires: below the mark the next chunk goes out or, after the last one, the finish. */
    method Pump(io: Io)
      requires Valid() && client.pumpScheduled
      modifies this, client, client.decoder, client.file
      ensures Valid() && client == old(client) && (client.file == null || client.file == old(client.file))
      ensures State() == SendNextChunk(world, old(State()), io)
      ensures PumpTaken(world, old(State()), io, State())
    {
      hide Inv, SendNextChunk, PumpTaken;
      PumpKeeps(world, State(), io);
      PumpDecision(world, State(), io);
      SendNext(io);
    }

    /** A scheduled flush: nothing is lost or sent twice, and what is still left over waits for the next one. */
    method Flush(io: Io)
      requires Valid() && client.flushScheduled
      modifies this, client, client.decoder
      ensures Valid() && client == old(client) && (client.file == null || client.file == old(client.file))
      ensures State() == FlushWriteRemainder(old(State()), io)
      ensures old(active) ==> FlushTaken(old(State()), io, State())
    {
      hide Inv, FlushWriteRemainder, FlushTaken;
      FlushKeeps(world, State(), io);
      FlushObserved(world, State(), io);
      FlushLeftOver(io);
    }

    /** A waiting pump is scheduled exactly once there is room below the mark. */
    method BytesWritten(n: nat)
      requires Valid() && n <= client.bytesToWrite
      modifies client
      ensures Valid() && client == old(client) && (client.file == null || client.file == old(client.file))
      ensures State() == old(State()).(client := HandleBytesWritten(old(State()).client.(drained := old(State()).client.drained + n)))
      ensures old(client.state) == Sending && !old(client.pumpScheduled) && old(client.remainder) == [] && client.connected ==>
        (client.pumpScheduled <==> client.bytesToWrite < HIGH_WATER_MARK)
    {
      hide Inv, HandleBytesWritten;
      DrainKeeps(world, State(), n);
      client.LetGo(n);
    }

    /** No send stays active over a lost connection: it ends, and for that reason. */
    method Disconnected()
      requires Valid()
      modifies this, client, client.decoder
      ensures Valid() && client == old(client) && (client.file == null || client.file == old(client.file))
      ensures State() == HandleDisconnected(old(State()))
      ensures !active && completions == old(completions) + if old(active) then [Failure(CLOSED_EARLY)] else []
      ensures old(active) ==> LetsGo(client.Value())
    {
      hide Inv, FinishOutgoing;
      EndingDecision(world, State(), Event.Disconnected);
      DisconnectedEnds(world, State());
      client.Lose();
      Complete(Failure(CLOSED_EARLY));
    }

    method SocketError()
      requires Valid()
      modifies this, client, client.decoder
      ensures Valid() && client == old(client) && (client.file == null || client.file == old(client.file))
      ensures State() == TransferClient.HandleError(old(State()))
      ensures !active && completions == old(completions) + if old(active) then [Failure(CONNECTION_ERROR)] else []
      ensures old(active) ==> LetsGo(client.Value())
    {
      hide Inv, TransferClient.HandleError, Endable;
      EndingDecision(world, State(), Event.SocketError);
      InvIsEndable(world, State());
      ErrorEnds(world, State());
      ReportError();
    }

    method Stop()
      requires Valid()
      modifies this, client, client.decoder
      ensures Valid() && client == old(client) && (client.file == null || client.file == old(client.file))
      ensures State() == FinishOutgoing(old(State()), Failure(STOPPED))
      ensures !active && completions == old(completions) + if old(active) then [Failure(STOPPED)] else []
      ensures old(active) ==> LetsGo(client.Value())
    {
      hide Inv, FinishOutgoing, Counted, Core;
      EndingDecision(world, State(), Event.Stop);
      OfEndable(world, State());
      FinishEnds(world, State(), Failure(STOPPED));
      Complete(Failure(STOPPED));
    }
  }

  /** What a frame leads to in each state. */
  lemma DispatchObserved(w: World, s: Sender, f: Frame, io: Io)
    requires Faithful(w) && Inv(w, s)
    ensures var t := DispatchFrame(w, s, f, io);
      && (s.client.state == HelloSent ==> HandshakeSettled(w, s, f, io, t))
      && (s.client.state == Offering ==> OfferSettled(w, s, f, t))
      && (s.client.state == Offering && RejectsOffer(w, s, f) ==>
            Decode(w, f).Success? && Decode(w, f).value.Reject? && Concludes(s, t, Failure(Decode(w, f).value.error)))
      && (s.client.state == Finishing ==> Concludes(s, t, Verdict(w, s, f)))
      && (ResolvesFinish(w, s, f) ==>
            && Decode(w, f).Success? && Decode(w, f).value.FileResult?
            && Verdict(w, s, f) == if Decode(w, f).value.ok then Success(()) else Failure(Decode(w, f).value.error))
      && (s.active && (s.client.state == Connecting || s.client.state == Sending) ==>
            Concludes(s, t, Failure(OutOfTurn(f.kind))))
      && (!s.active ==> !t.active && t.completions == s.completions)
  {
    RejectIsNoAccept(w, s, f);
    ResolvingIsResult(w, s, f);
    hide Inv, DispatchFrame, Concludes, HandshakeSettled, AcceptsOffer, ResolvesFinish, RejectsOffer, Verdict, OutOfTurn;
    if !s.active {
      InactiveStays(w, s, f, io);
    }
    match s.client.state
    case HelloSent => HandshakeDecision(w, s, f, io);
    case Offering => AcceptDecision(w, s, f, io);
    case Finishing => ResultDecision(w, s, f, io);
    case Connecting => if s.active { SurpriseDecision(w, s, f, io); }
    case Sending => if s.active { SurpriseDecision(w, s, f, io); }
    case _ =>
  }

  lemma RejectIsNoAccept(w: World, s: Sender, f: Frame)
    ensures RejectsOffer(w, s, f) ==> !AcceptsOffer(w, s, f) && Decode(w, f).Success? && Decode(w, f).value.Reject?
  {}

  lemma ResolvingIsResult(w: World, s: Sender, f: Frame)
    ensures ResolvesFinish(w, s, f) ==>
      && Decode(w, f).Success? && Decode(w, f).value.FileResult?
      && Verdict(w, s, f) == if Decode(w, f).value.ok then Success(()) else Failure(Decode(w, f).value.error)
  {}

  /** Without an active send no frame completes anything. */
  lemma InactiveStays(w: World, s: Sender, f: Frame, io: Io)
    requires Inv(w, s) && !s.active
    ensures var t := DispatchFrame(w, s, f, io); !t.active && t.completions == s.completions
  {
    hide Core;
  }

  lemma FlushObserved(w: World, s: Sender, io: Io)
    requires Inv(w, s) && s.client.flushScheduled
    ensures s.active ==> FlushTaken(s, io, FlushWriteRemainder(s, io))
  {
    hide Inv, FlushTaken, FlushWriteRemainder;
    if s.active {
      FlushDecision(w, s, io);
    }
  }
}
