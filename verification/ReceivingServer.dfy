/**
 The receiving end as the objects it is made of: the table of live connections, the receive directory
 and the one transfer with its open handle. Every handler carries out its step on what these objects
 stand for, and promises its caller who owns the transfer, what is on the wire and which files there are.
 */
module ReceivingServer {
  import opened Bytes
  import opened ChunkCodec
  import opened FrameCodec
  import opened Messages
  import opened Results
  import opened TransferServer
  import opened ReceiverInvariant
  import opened ReceiverAnswers
  import opened ReceiverDecisions
  import opened Connections
  import opened Disk

  class ActiveTransfer {
    const owner: Socket
    const requestId: uint64
    const transferId: Bytes
    const sha256: Bytes
    const fileSize: nat
    const target: Name
    const part: StoredFile
    var state: ReceiveState
    var offset: nat
    var hashed: Bytes

    constructor (owner: Socket, requestId: uint64, offer: Message, part: StoredFile)
      requires offer.Offer?
      ensures this.part == part
      ensures Value() == Transfer(Accepted, owner, requestId, offer.transferId, offer.sha256, offer.fileSize, 0,
                                  offer.fileName, [])
    {
      this.owner, this.requestId, this.transferId := owner, requestId, offer.transferId;
      this.sha256, this.fileSize, this.target := offer.sha256, offer.fileSize, offer.fileName;
      this.part, this.state, this.offset, this.hashed := part, Accepted, 0, [];
    }

    ghost function Value(): Transfer
      reads this
    {
      Transfer(state, owner, requestId, transferId, sha256, fileSize, offset, target, hashed)
    }

    /** The data has been written: hash it and wait for what comes next. */
    method Advance(data: Bytes)
      modifies this
      ensures var t := old(Value());
        Value() == t.(hashed := t.hashed + data, offset := t.offset + |data|, state := Receiving)
    {
      hashed := hashed + data;
      offset := offset + |data|;
      state := Receiving;
    }
  }

  class TcpTransferServer {
    const world: World
    const table: ConnectionTable
    const directory: ReceiveDirectory
    var active: ActiveTransfer?
    ghost const initial: map<Name, Bytes>
    ghost var taken: map<Name, nat>
    ghost var published: seq<Publication>
    ghost var setbacks: seq<Setback>

    /** The parts are sound and share nothing, and the handle of the active transfer leads to its part file. */
    ghost predicate Linked()
      reads this, table, table.Repr, directory, directory.Repr, active
    {
      && table.Valid() && directory.Valid()
      && table.Repr !! directory.Repr && this !in table.Repr && this !in directory.Repr
      && (active != null ==>
            && active !in table.Repr && active !in directory.Repr
            && (PartName(active.target) in directory.files ==>
                  directory.LeadsTo(active.part, PartName(active.target))))
    }

    /** What the objects stand for. */
    ghost function State(): Server
      reads this, table, directory, active
    {
      Server(if active == null then None else Some(active.Value()), table.known, directory.contents,
             taken, published, setbacks)
    }

    ghost predicate Valid()
      reads this, table, table.Repr, directory, directory.Repr, active
    {
      Linked() && Faithful(world) && Inv(world, initial, State())
    }

    constructor (world: World, directory: ReceiveDirectory)
      requires Faithful(world) && directory.Valid()
      ensures Valid() && this.world == world && this.directory == directory && initial == directory.contents
      ensures State() == Fresh(directory.contents) && fresh(table.Repr) && active == null
    {
      this.world, this.directory, this.initial := world, directory, directory.contents;
      table := new ConnectionTable();
      active, taken, published, setbacks := null, map[], [], [];
      new;
      EveryRunIsSafe(world, directory.contents, []);
    }

    /** Connections are open exactly while the table holds them. */
    lemma OpenIff(c: Socket)
      requires Linked()
      ensures IsOpen(State(), c) <==> c in table.links
      ensures c in table.links ==>
        ConnectionOf(State(), c).remainder == table.links[c].remainder
        && ConnectionOf(State(), c).helloComplete == table.links[c].helloComplete
        && ConnectionOf(State(), c).disconnectAfterWrite == table.links[c].disconnectAfterWrite
        && {table.links[c], table.links[c].decoder} <= table.Repr
    {}

    /* ---------------------------------------------------------------- cleaning up and sending */

    method Cleanup(removePart: bool)
      requires Linked()
      modifies this, directory
      ensures Linked() && table.Repr == old(table.Repr) && directory.Repr == old(directory.Repr)
      ensures active == null
      ensures State() == CleanupActiveTransfer(old(State()), removePart)
    {
      if active == null {
        return;
      }
      if removePart {
        directory.Remove(PartName(active.target));
      }
      active := null;
    }

    /** The connection is gone, and its transfer with the part file if it owned it. */
    method Remove(c: Socket)
      requires Linked()
      modifies this, table, directory
      ensures Linked() && table.Repr == old(table.Repr) && directory.Repr == old(directory.Repr)
      ensures (active == null || (active == old(active) && active.owner != c)) && c !in table.links
      ensures State() == RemoveConnection(old(State()), c)
    {
      if active != null && active.owner == c {
        Cleanup(true);
      }
      table.Forget(c);
    }

    method HandOver(c: Socket, frame: Frame, bytes: Bytes, accepted: nat)
      requires Linked() && c in table.links && bytes == Layout(frame) && accepted <= |bytes|
      modifies table, table.links[c]
      ensures Linked() && table.Repr == old(table.Repr) && directory.Repr == old(directory.Repr)
      ensures active == old(active) && table.links == old(table.links)
      ensures State() == WithConnection(old(State()), c, Sent(ConnectionOf(old(State()), c), frame, accepted))
      ensures table.links[c].wire + table.links[c].remainder == old(table.links[c].wire) + Layout(frame)
    {
      table.Hand(c, frame, bytes, accepted);
    }

    /** A frame is sent exactly if nothing is left over, it can be encoded, the limit holds and the socket does not fail. */
    method Send(c: Socket, frame: Frame, io: Io) returns (sent: bool)
      requires Linked()
      modifies this, table, table.Repr, directory
      ensures Linked() && table.Repr == old(table.Repr) && directory.Repr == old(directory.Repr)
      ensures active == null || active == old(active)
      ensures State() == SendFrame(old(State()), c, frame, io)
      ensures sent <==> c in old(table.links) && c in table.links
      ensures c in old(table.links) ==>
        (sent <==> old(table.links[c].remainder) == [] && Encodable(frame) && io.accepts >= 0
                   && io.pending + |Layout(frame)| <= PENDING_CONTROL_WRITE_LIMIT)
      ensures sent ==> table.links[c].wire + table.links[c].remainder == old(table.links[c].wire) + Layout(frame)
    {
      OpenIff(c);
      if c !in table.links {
        return false;
      }
      SendOutcomes(State(), c, frame, io);
      hide RemoveConnection, Layout, Encodable, Linked, WithConnection, Sent, SendFrame, State;
      var bytes, accepted := [], -1;
      if table.links[c].remainder == [] {
        var encoded := Encode(frame);
        var available := PENDING_CONTROL_WRITE_LIMIT - io.pending;
        if encoded.Success? && available >= 0 && |encoded.value| <= available {
          bytes := encoded.value;
          accepted := BytesTaken(io.accepts, |bytes|);
        }
      }
      if accepted < 0 {
        Remove(c);
        return false;
      }
      HandOver(c, frame, bytes, accepted);
      return true;
    }

    method SendControl(c: Socket, m: Message, requestId: uint64, io: Io)
      requires Linked()
      modifies this, table, table.Repr, directory
      ensures Linked() && table.Repr == old(table.Repr) && directory.Repr == old(directory.Repr)
      ensures active == null || active == old(active)
      ensures State() == SendMessage(world, old(State()), c, m, requestId, io)
    {
      hide RemoveConnection, SendFrame, Layout, Encodable, Linked, State;
      var payload := world.encode(m);
      if payload.Failure? {
        Remove(c);
      } else {
        var _ := Send(c, FrameOf(m, requestId, payload.value), io);
      }
    }

    /** The transfer is given up, and its failure on record; the part file is gone. */
    method Fail(c: Socket, requestId: uint64, error: Error, io: Io)
      requires Linked()
      modifies this, table, table.Repr, directory
      ensures Linked() && table.Repr == old(table.Repr) && directory.Repr == old(directory.Repr)
      ensures active == null || active == old(active)
      ensures State() == FailReceive(world, old(State()), c, requestId, error, io)
    {
      hide SendMessage, CleanupActiveTransfer;
      var id := if active == null then UNKNOWN_TRANSFER_ID else active.transferId;
      setbacks := setbacks + [Setback(c, error)];
      SendControl(c, FileResult(id, false, error), requestId, io);
      Cleanup(true);
    }

    method CloseAfterPendingWrite(c: Socket, io: Io)
      requires Linked()
      modifies this, table, table.Repr, directory
      ensures Linked() && table.Repr == old(table.Repr) && directory.Repr == old(directory.Repr)
      ensures active == null || active == old(active)
      ensures State() == DisconnectAfterPendingWrite(old(State()), c, io)
    {
      hide RemoveConnection;
      OpenIff(c);
      if c !in table.links {
        return;
      }
      if table.links[c].remainder != [] {
        table.CloseAfterWrite(c);
      } else if io.closes {
        Remove(c);
      }
    }

    method RejectConnection(c: Socket, requestId: uint64, id: Bytes, error: Error, io: Io)
      requires Linked()
      modifies this, table, table.Repr, directory
      ensures Linked() && table.Repr == old(table.Repr) && directory.Repr == old(directory.Repr)
      ensures active == null || active == old(active)
      ensures State() == RejectConnectionReceive(world, old(State()), c, requestId, id, error, io)
    {
      hide SendMessage, DisconnectAfterPendingWrite, Linked, State;
      SendControl(c, FileResult(id, false, error), requestId, io);
      CloseAfterPendingWrite(c, io);
    }

    /* ---------------------------------------------------------------- frames */

    method HandleHelloFrame(c: Socket, frame: Frame, io: Io)
      requires Linked() && Faithful(world) && c in table.links && frame.kind == HELLO
      modifies this, table, table.Repr, directory
      ensures Linked() && table.Repr == old(table.Repr) && directory.Repr == old(directory.Repr)
      ensures active == null || active == old(active)
      ensures State() == HandleHello(world, old(State()), c, frame, io)
      ensures if old(table.links[c].helloComplete) || Decode(world, frame).Failure? then !IsOpen(State(), c)
              else && Answered(world, old(ConnectionOf(State(), c)), ConnectionOf(State(), c), frame.requestId, HelloAck, io)
                   && (IsOpen(State(), c) ==> ConnectionOf(State(), c).helloComplete)
    {
      hide SendMessage, RemoveConnection, Faithful, Answered;
      OpenIff(c);
      HelloObserved(world, State(), c, frame, io);
      if table.links[c].helloComplete || Decode(world, frame).Failure? || world.encode(HelloAck).Failure? {
        Remove(c);
        return;
      }
      table.Greet(c);
      SendControl(c, HelloAck, frame.requestId, io);
    }

    method Validate(target: Name, io: Io) returns (r: Result<()>)
      requires Linked()
      ensures r == ValidateOfferTarget(State(), target, io)
    {
      if active != null {
        return Failure(BUSY);
      }
      if !io.directory {
        return Failure(NO_DIRECTORY);
      }
      if target in directory.files {
        return Failure(TARGET_EXISTS);
      }
      if io.statFails {
        return Failure(STAT_FAILED);
      }
      return Success(());
    }

    method Clear(target: Name)
      requires Linked() && active == null
      modifies this, directory
      ensures Linked() && table.Repr == old(table.Repr) && directory.Repr == old(directory.Repr) && active == null
      ensures State() == Cleared(old(State()), target)
    {
      directory.Remove(PartName(target));
      taken := taken[PartName(target) := |published|];
    }

    /** Opens a new part file and records the transfer, unless the system does not let it. */
    method Begin(c: Socket, requestId: uint64, offer: Message, io: Io) returns (r: Result<()>)
      requires Linked() && offer.Offer? && active == null
      modifies this, directory
      ensures Linked() && table.Repr == old(table.Repr) && fresh(directory.Repr - old(directory.Repr))
      ensures (active == null || fresh(active)) && (r.Success? <==> io.opens) && (r.Failure? ==> r.error == OPEN_FAILED)
      ensures State() == if io.opens then BeginReceive(old(State()), c, requestId, offer, io).value else old(State())
    {
      if !io.opens {
        return Failure(OPEN_FAILED);
      }
      var handle := directory.Create(PartName(offer.fileName));
      active := new ActiveTransfer(c, requestId, offer, handle);
      return Success(());
    }

    /** The offer of a connection that has shaken hands: afterwards it owns the transfer, or nobody new does, and it is told. */
    method HandleFileOffer(c: Socket, frame: Frame, io: Io)
      requires Linked() && Faithful(world) && c in table.links && table.links[c].helloComplete && frame.kind == FILE_OFFER
      modifies this, table, table.Repr, directory
      ensures Linked() && table.Repr == old(table.Repr) && fresh(directory.Repr - old(directory.Repr))
      ensures active == null || active == old(active) || fresh(active)
      ensures State() == HandleOffer(world, old(State()), c, frame, io)
      ensures old(active) == null ==>
        (active != null <==> MayBegin(world, old(State()), frame, io) && c in table.links)
      ensures old(active) == null && active != null ==>
        && active.owner == c && active.offset == 0 && active.target == Decode(world, frame).value.fileName
        && directory.LeadsTo(active.part, PartName(active.target)) && active.part.content == []
      ensures Answered(world, old(ConnectionOf(State(), c)), ConnectionOf(State(), c), frame.requestId,
                       OfferAnswer(world, old(State()), frame, io), io)
    {
      OpenIff(c);
      OfferObserved(world, State(), c, frame, io);
      TakeOffer(c, frame, io);
      hide Linked, HandleOffer, Answered, OfferAnswer;
      OpenIff(c);
      if active != null && PartName(active.target) in directory.contents {
        HandleLeads();
      }
    }

    method TakeOffer(c: Socket, frame: Frame, io: Io)
      requires Linked()
      modifies this, table, table.Repr, directory
      ensures Linked() && table.Repr == old(table.Repr) && fresh(directory.Repr - old(directory.Repr))
      ensures active == null || active == old(active) || fresh(active)
      ensures State() == HandleOffer(world, old(State()), c, frame, io)
    {
      hide SendMessage, Linked, Cleared;
      var offer := Decode(world, frame);
      if offer.Failure? {
        SendControl(c, Reject(UNKNOWN_TRANSFER_ID, offer.error), frame.requestId, io);
        return;
      }
      var m := offer.value;
      if !m.Offer? {
        SendControl(c, Reject(UNKNOWN_TRANSFER_ID, BAD_PAYLOAD), frame.requestId, io);
        return;
      }
      var ready := Validate(m.fileName, io);
      if ready.Success? {
        Clear(m.fileName);
        ready := Begin(c, frame.requestId, m, io);
      }
      SendControl(c, if ready.Success? then Accept(m.transferId) else Reject(m.transferId, ready.error), frame.requestId, io);
    }

    lemma HandleLeads()
      requires Linked() && active != null && PartName(active.target) in directory.contents
      ensures directory.LeadsTo(active.part, PartName(active.target))
      ensures active.part.content == directory.contents[PartName(active.target)]
    {}

    method Store(c: Socket, requestId: uint64, data: Bytes, io: Io)
      requires Linked() && active != null && PartName(active.target) in directory.contents
      modifies this, active, table, table.Repr, directory, directory.Repr
      ensures Linked() && table.Repr == old(table.Repr) && directory.Repr == old(directory.Repr)
      ensures active == null || active == old(active)
      ensures State() == StoreChunk(world, old(State()), c, requestId, data, io)
    {
      hide FailReceive, ConnectionTable.Valid;
      HandleLeads();
      var written := directory.Write(active.part, PartName(active.target), data, io.writes);
      assert written == |data| ==> data[..written] == data;
      if written != |data| {
        Fail(c, requestId, WRITE_FAILED, io);
        return;
      }
      active.Advance(data);
    }

    method TakeChunk(c: Socket, frame: Frame, io: Io)
      requires Linked() && (active != null ==> PartName(active.target) in directory.contents)
      modifies this, active, table, table.Repr, directory, directory.Repr
      ensures Linked() && table.Repr == old(table.Repr) && directory.Repr == old(directory.Repr)
      ensures active == null || active == old(active)
      ensures State() == HandleChunk(world, old(State()), c, frame, io)
    {
      hide FailReceive, RejectConnectionReceive, DecodeChunk, StoreChunk, Linked;
      var chunk := DecodeFileChunkPayload(frame.payload);
      if active == null || active.owner != c {
        var (id, error) := if chunk.Failure? then (UNKNOWN_TRANSFER_ID, chunk.error) else (chunk.value.transferId, NOT_OWNER);
        RejectConnection(c, frame.requestId, id, error, io);
        return;
      }
      if chunk.Failure? {
        Fail(c, frame.requestId, chunk.error, io);
        return;
      }
      if chunk.value.transferId != active.transferId || (active.state != Accepted && active.state != Receiving) {
        Fail(c, frame.requestId, WRONG_TRANSFER, io);
        return;
      }
      if chunk.value.offset != active.offset {
        Fail(c, frame.requestId, WRONG_OFFSET, io);
        return;
      }
      var bounds := ValidateChunkBounds(active.offset, active.fileSize, |chunk.value.data|);
      if bounds.Failure? {
        Fail(c, frame.requestId, bounds.error, io);
        return;
      }
      Store(c, frame.requestId, chunk.value.data, io);
    }

    /**
     A chunk from the owner: the expected one goes to the part file if there is room for all of it, any
     other ends the transfer, and the owner is told what was wrong. A chunk from anybody else leaves
     transfer and files alone and costs the connection.
     */
    method HandleFileChunk(c: Socket, frame: Frame, io: Io)
      requires Valid() && c in table.links && table.links[c].helloComplete && frame.kind == FILE_CHUNK
      modifies this, active, table, table.Repr, directory, directory.Repr
      ensures Linked() && table.Repr == old(table.Repr) && directory.Repr == old(directory.Repr)
      ensures active == null || active == old(active)
      ensures State() == HandleChunk(world, old(State()), c, frame, io)
      ensures old(active) != null && old(active).owner == c ==>
        var part := PartName(old(active).target);
        if IsExpected(old(active.Value()), frame) && |DecodeChunk(frame.payload).value.data| <= io.writes then
          var data := DecodeChunk(frame.payload).value.data;
          && active != null && active.offset == old(active.offset) + |data| && active.hashed == old(active.hashed) + data
          && directory.contents == old(directory.contents)[part := old(active.hashed) + data]
        else
          var defect := ChunkDefect(old(active.Value()), frame, io).value;
          && active == null && directory.contents == old(directory.contents) - {part}
          && setbacks == old(setbacks) + [Setback(c, defect)]
          && Answered(world, old(ConnectionOf(State(), c)), ConnectionOf(State(), c), frame.requestId,
                      FileResult(old(active).transferId, false, defect), io)
      ensures old(active) == null || old(active).owner != c ==>
        && active == old(active) && directory.contents == old(directory.contents)
        && Dismissed(world, old(ConnectionOf(State(), c)), ConnectionOf(State(), c), frame.requestId,
                     StrangerAnswer(world, frame), io)
    {
      OpenIff(c);
      hide Linked, HandleChunk, Inv, Answered, Dismissed, StrangerAnswer, Faithful;
      ChunkObserved(world, initial, State(), c, frame, io);
      TakeChunk(c, frame, io);
    }

    /** The part file becomes the target, if it is complete, hashes as offered and the system lets it. */
    method Complete(c: Socket, requestId: uint64, io: Io)
      requires Linked() && active != null && PartName(active.target) in directory.contents
      modifies this, active, table, table.Repr, directory, directory.Repr
      ensures Linked() && table.Repr == old(table.Repr) && directory.Repr == old(directory.Repr)
      ensures active == null || active == old(active)
      ensures State() == CompleteReceive(world, old(State()), c, requestId, io)
    {
      hide FailReceive, SendMessage;
      if active.offset != active.fileSize {
        Fail(c, requestId, WRONG_SIZE, io);
        return;
      }
      if !io.flushes {
        Fail(c, requestId, FLUSH_FAILED, io);
        return;
      }
      if world.sha256(active.hashed) != active.sha256 {
        Fail(c, requestId, WRONG_HASH, io);
        return;
      }
      var renamed := Publish(io.renames);
      if !renamed {
        Fail(c, requestId, RENAME_FAILED, io);
        return;
      }
      SendControl(c, FileResult(active.transferId, true, NO_ERROR), requestId, io);
      Cleanup(false);
    }

    method Publish(allowed: bool) returns (renamed: bool)
      requires Linked() && active != null && PartName(active.target) in directory.contents
      modifies this, directory
      ensures Linked() && table.Repr == old(table.Repr) && directory.Repr == old(directory.Repr) && active == old(active)
      ensures renamed == (allowed && active.target !in old(directory.contents))
      ensures State() == if renamed then Rename(old(State()), active.Value()) else old(State())
    {
      assert |PartName(active.target)| > |active.target|;
      renamed := directory.Rename(PartName(active.target), active.target, allowed);
      if renamed {
        published := published + [Publication(active.owner, active.transferId, active.sha256, active.fileSize, active.target,
                                              directory.contents[active.target])];
      }
    }

    method TakeFinish(c: Socket, frame: Frame, io: Io)
      requires Linked() && (active != null ==> PartName(active.target) in directory.contents)
      modifies this, active, table, table.Repr, directory, directory.Repr
      ensures Linked() && table.Repr == old(table.Repr) && directory.Repr == old(directory.Repr)
      ensures active == null || active == old(active)
      ensures State() == HandleFinish(world, old(State()), c, frame, io)
    {
      hide FailReceive, RejectConnectionReceive, CompleteReceive;
      var finish := Decode(world, frame);
      var error := if finish.Failure? then Some(finish.error) else if !finish.value.Finish? then Some(BAD_PAYLOAD) else None;
      if active == null || active.owner != c {
        var id := if error.Some? then UNKNOWN_TRANSFER_ID else finish.value.transferId;
        RejectConnection(c, frame.requestId, id, if error.Some? then error.value else NOT_OWNER, io);
        return;
      }
      if error.Some? {
        Fail(c, frame.requestId, error.value, io);
        return;
      }
      if finish.value.transferId != active.transferId || (active.state != Accepted && active.state != Receiving) {
        Fail(c, frame.requestId, WRONG_TRANSFER, io);
        return;
      }
      active.state := Finishing;
      Complete(c, frame.requestId, io);
    }

    /**
     A finish from the owner ends the transfer: the target appears with the received bytes exactly if they
     are all there and hash as offered, and either way the part file is gone and the owner is told.
     */
    method HandleFileFinish(c: Socket, frame: Frame, io: Io)
      requires Valid() && c in table.links && table.links[c].helloComplete && frame.kind == FILE_FINISH
      modifies this, active, table, table.Repr, directory, directory.Repr
      ensures Linked() && table.Repr == old(table.Repr) && directory.Repr == old(directory.Repr)
      ensures active == null || active == old(active)
      ensures State() == HandleFinish(world, old(State()), c, frame, io)
      ensures old(active) != null && old(active).owner == c ==>
        var part := PartName(old(active).target);
        && active == null
        && directory.contents == (if MayPublish(world, old(active.Value()), frame, io)
                                  then (old(directory.contents) - {part})[old(active).target := old(active.hashed)]
                                  else old(directory.contents) - {part})
        && Answered(world, old(ConnectionOf(State(), c)), ConnectionOf(State(), c), frame.requestId,
                    FinishAnswer(world, old(active.Value()), frame, io), io)
      ensures old(active) == null || old(active).owner != c ==>
        && active == old(active) && directory.contents == old(directory.contents)
        && Dismissed(world, old(ConnectionOf(State(), c)), ConnectionOf(State(), c), frame.requestId,
                     StrangerAnswer(world, frame), io)
    {
      OpenIff(c);
      hide Linked, HandleFinish, Inv, Answered, Dismissed, StrangerAnswer, Faithful;
      FinishObserved(world, initial, State(), c, frame, io);
      TakeFinish(c, frame, io);
    }

    method Dispatch(c: Socket, frame: Frame, io: Io)
      requires Valid()
      modifies this, active, table, table.Repr, directory, directory.Repr
      ensures Valid() && table.Repr == old(table.Repr) && fresh(directory.Repr - old(directory.Repr))
      ensures active == null || active == old(active) || fresh(active)
      ensures State() == DispatchFrame(world, old(State()), c, frame, io)
    {
      OpenIff(c);
      DispatchKeeps(world, initial, State(), c, frame, io);
      hide HandleHello, HandleOffer, HandleChunk, HandleFinish, RemoveConnection, Inv, ChunkTaken, FinishTaken, MayBegin;
      if c !in table.links {
        return;
      }
      if frame.kind == HELLO {
        HandleHelloFrame(c, frame, io);
      } else if !table.links[c].helloComplete {
        Remove(c);
      } else if frame.kind == FILE_OFFER {
        HandleFileOffer(c, frame, io);
      } else if frame.kind == FILE_CHUNK {
        HandleFileChunk(c, frame, io);
      } else if frame.kind == FILE_FINISH {
        HandleFileFinish(c, frame, io);
      } else {
        Remove(c);
      }
    }

    /** Dispatches what a push has completed, as long as the connection lasts. */
    method DispatchEach(c: Socket, frames: seq<Frame>, ios: seq<Io>)
      requires Valid()
      modifies this, active, table, table.Repr, directory, directory.Repr
      ensures Valid() && table.Repr == old(table.Repr) && fresh(directory.Repr - old(directory.Repr))
      ensures active == null || active == old(active) || fresh(active)
      ensures State() == DispatchAll(world, old(State()), c, frames, ios)
    {
      hide DispatchFrame, Inv, Linked, State;
      for i := 0 to |frames|
        invariant Valid() && table.Repr == old(table.Repr) && fresh(directory.Repr - old(directory.Repr))
        invariant active == null || active == old(active) || fresh(active)
        invariant State() == DispatchAll(world, old(State()), c, frames[..i], ios)
      {
        OpenIff(c);
        if c !in table.links {
          ClosedStaysClosed(world, old(State()), c, frames, i, ios);
          return;
        }
        Dispatch(c, frames[i], IoAt(ios, i));
        assert frames[..i + 1][..i] == frames[..i];
      }
      assert frames[..|frames|] == frames;
    }

    method SetFlush(c: Socket, scheduled: bool)
      requires Linked() && c in table.links
      modifies table, table.links[c]
      ensures Linked() && table.Repr == old(table.Repr) && directory.Repr == old(directory.Repr)
      ensures active == old(active) && table.links == old(table.links)
      ensures State() == WithConnection(old(State()), c, ConnectionOf(old(State()), c).(flushScheduled := scheduled))
      ensures table.links[c].wire == old(table.links[c].wire) && table.links[c].remainder == old(table.links[c].remainder)
    {
      table.SetFlush(c, scheduled);
    }

    /** The socket takes some of what was left over; nothing is lost or sent twice. */
    method HandLeftOver(c: Socket, accepted: nat)
      requires Linked() && c in table.links && accepted <= |table.links[c].remainder|
      modifies table, table.links[c]
      ensures Linked() && table.Repr == old(table.Repr) && directory.Repr == old(directory.Repr)
      ensures active == old(active) && table.links == old(table.links)
      ensures var conn := ConnectionOf(old(State()), c);
        State() == WithConnection(old(State()), c, conn.(flushScheduled := accepted < |conn.remainder|,
                                                         remainder := conn.remainder[accepted..],
                                                         wire := conn.wire + conn.remainder[..accepted]))
      ensures table.links[c].remainder == old(table.links[c].remainder)[accepted..]
      ensures table.links[c].disconnectAfterWrite == old(table.links[c].disconnectAfterWrite)
      ensures table.links[c].wire + table.links[c].remainder == old(table.links[c].wire) + old(table.links[c].remainder)
    {
      var link := table.links[c];
      assert link.remainder[..accepted] + link.remainder[accepted..] == link.remainder;
      table.Flush(c, accepted);
    }

    method PushBytes(c: Socket, bytes: Bytes) returns (frames: Result<seq<Frame>>)
      requires Linked() && c in table.links
      modifies table, table.links[c].decoder
      ensures Linked() && table.Repr == old(table.Repr) && directory.Repr == old(directory.Repr)
      ensures active == old(active) && table.links == old(table.links)
      ensures var conn := ConnectionOf(old(State()), c);
        && frames == PushResult(conn.buffer, bytes).0
        && State() == WithConnection(old(State()), c, conn.(buffer := PushResult(conn.buffer, bytes).1))
    {
      hide PushResult;
      frames := table.Push(c, bytes);
    }

    /* ---------------------------------------------------------------- events */

    method HandleNewConnection(c: Socket)
      requires Valid() && c !in table.known
      modifies table
      ensures Valid() && fresh(table.Repr - old(table.Repr)) && directory.Repr == old(directory.Repr) && active == old(active)
      ensures State() == WithConnection(old(State()), c, NEW_CONNECTION) && c in table.links
    {
      hide Inv;
      ConnectKeeps(world, initial, State(), c);
      table.Add(c);
    }

    /** The bytes go through the connection's decoder and the frames they complete are dispatched. */
    method ReadyRead(c: Socket, bytes: Bytes, ios: seq<Io>)
      requires Valid()
      modifies this, active, table, table.Repr, directory, directory.Repr
      ensures Valid() && table.Repr == old(table.Repr) && fresh(directory.Repr - old(directory.Repr))
      ensures active == null || active == old(active) || fresh(active)
      ensures State() == HandleReadyRead(world, old(State()), c, bytes, ios)
      ensures c in old(table.links) && PushResult(old(ConnectionOf(State(), c)).buffer, bytes).0.Failure? ==>
        c !in table.links && (active == null || active.owner != c)
    {
      hide Inv, DispatchAll, PushResult, RemoveConnection, Linked, WithConnection, State, HandleReadyRead, ConnectionOf, IsOpen;
      OpenIff(c);
      ReadyReadCases(world, State(), c, bytes, ios);
      if c !in table.links {
        return;
      }
      BufferKeeps(world, initial, State(), c, PushResult(ConnectionOf(State(), c).buffer, bytes).1);
      var frames := PushBytes(c, bytes);
      if frames.Failure? {
        RemoveKeepsInv(world, initial, State(), c);
        Remove(c);
      } else {
        DispatchEach(c, frames.value, ios);
      }
    }

    method BytesWritten(c: Socket, closes: bool)
      requires Valid()
      modifies this, table, table.Repr, directory
      ensures Valid() && table.Repr == old(table.Repr) && directory.Repr == old(directory.Repr)
      ensures active == null || active == old(active)
      ensures State() == HandleBytesWritten(old(State()), c, closes)
      ensures c in old(table.links) ==>
        (c in table.links <==> !(old(table.links[c].remainder) == [] && old(table.links[c].disconnectAfterWrite) && closes))
    {
      OpenIff(c);
      hide Inv, RemoveConnection, Linked, WithConnection;
      WrittenKeeps(world, initial, State(), c, closes);
      if c !in table.links {
        return;
      }
      if table.links[c].remainder != [] {
        SetFlush(c, true);
      } else if table.links[c].disconnectAfterWrite && closes {
        Remove(c);
      }
    }

    /** The socket is offered what was left over; nothing is lost or sent twice. */
    method FlushRemainder(c: Socket, connected: bool, io: Io)
      requires Valid()
      modifies this, table, table.Repr, directory
      ensures Valid() && table.Repr == old(table.Repr) && directory.Repr == old(directory.Repr)
      ensures active == null || active == old(active)
      ensures State() == FlushWriteRemainder(old(State()), c, connected, io)
      ensures c in old(table.links) ==>
        (c in table.links <==>
           && (old(table.links[c].remainder) == [] || (connected && io.accepts >= 0))
           && !((old(table.links[c].remainder) == [] || io.accepts >= |old(table.links[c].remainder)|) && old(table.links[c].disconnectAfterWrite) && io.closes))
      ensures c in old(table.links) && c in table.links ==>
        table.links[c].wire + table.links[c].remainder == old(table.links[c].wire) + old(table.links[c].remainder)
    {
      hide Inv, RemoveConnection, Linked, WithConnection, State;
      OpenIff(c);
      FlushKeeps(world, initial, State(), c, connected, io);
      if c !in table.links {
        return;
      }
      var link := table.links[c];
      if link.remainder == [] {
        if link.disconnectAfterWrite && io.closes {
          Remove(c);
        } else {
          SetFlush(c, false);
        }
        return;
      }
      var accepted := BytesTaken(io.accepts, |link.remainder|);
      if !connected || accepted < 0 {
        Remove(c);
        return;
      }
      HandLeftOver(c, accepted);
      if link.remainder == [] && link.disconnectAfterWrite && io.closes {
        Remove(c);
      }
    }

    /** Whatever the connection owned is gone with it. */
    method HandleDisconnected(c: Socket)
      requires Valid()
      modifies this, table, directory
      ensures Valid() && table.Repr == old(table.Repr) && directory.Repr == old(directory.Repr)
      ensures active == null || active == old(active)
      ensures State() == RemoveConnection(old(State()), c)
      ensures c !in table.links && (active == null || active.owner != c)
    {
      hide Inv, RemoveConnection;
      RemoveKeepsInv(world, initial, State(), c);
      OwnerIsOpen(world, initial, RemoveConnection(State(), c));
      Remove(c);
      OpenIff(c);
    }

    method Close()
      requires Valid()
      modifies this, table, directory
      ensures Valid() && table.Repr == old(table.Repr) && directory.Repr == old(directory.Repr)
      ensures active == null || active == old(active)
      ensures State() == CloseAll(old(State()))
      ensures active == null && table.links == map[]
    {
      hide Inv;
      CloseKeeps(world, initial, State());
      table.ForgetAll();
      assert State() == old(State()).(connections := map c | c in old(State()).connections :: old(State()).connections[c].(open := false));
      Cleanup(true);
    }
  }

  /** Once the connection is gone the remaining frames of the push go unhandled. */
  lemma {:induction false} ClosedStaysClosed(w: World, s: Server, c: Socket, frames: seq<Frame>, i: nat, ios: seq<Io>)
    requires i <= |frames| && !IsOpen(DispatchAll(w, s, c, frames[..i], ios), c)
    ensures DispatchAll(w, s, c, frames, ios) == DispatchAll(w, s, c, frames[..i], ios)
    decreases |frames|
  {
    if i == |frames| {
      assert frames[..i] == frames;
    } else {
      var before := frames[..|frames| - 1];
      assert before[..i] == frames[..i];
      ClosedStaysClosed(w, s, c, before, i, ios);
      hide HandleHello, HandleOffer, HandleChunk, HandleFinish, RemoveConnection;
    }
  }

  lemma ReadyReadCases(w: World, s: Server, c: Socket, bytes: Bytes, ios: seq<Io>)
    ensures var conn := ConnectionOf(s, c);
      var push := PushResult(conn.buffer, bytes);
      var pushed := WithConnection(s, c, conn.(buffer := push.1));
      HandleReadyRead(w, s, c, bytes, ios)
      == if !IsOpen(s, c) then s
         else if push.0.Failure? then RemoveConnection(pushed, c)
         else DispatchAll(w, pushed, c, push.0.value, ios)
  {
    hide PushResult, DispatchAll, RemoveConnection;
  }

  lemma OwnerIsOpen(w: World, initial: map<Name, Bytes>, s: Server)
    requires Inv(w, initial, s)
    ensures s.active.Some? ==> IsOpen(s, s.active.value.owner)
  {}

  lemma BufferKeeps(w: World, initial: map<Name, Bytes>, s: Server, c: Socket, buffer: Bytes)
    requires Inv(w, initial, s) && IsOpen(s, c)
    ensures Inv(w, initial, WithConnection(s, c, ConnectionOf(s, c).(buffer := buffer)))
  {
    hide Inv;
    KnownStream(w, initial, s, c);
    MoveKeeps(w, initial, s, c, ConnectionOf(s, c).(buffer := buffer));
  }

  lemma PartIsThere(w: World, initial: map<Name, Bytes>, s: Server)
    requires Inv(w, initial, s)
    ensures s.active.Some? ==> PartName(s.active.value.target) in s.files
                               && s.files[PartName(s.active.value.target)] == s.active.value.hashed
  {}

  lemma ChunkObserved(w: World, initial: map<Name, Bytes>, s: Server, c: Socket, frame: Frame, io: Io)
    requires Faithful(w) && Inv(w, initial, s)
    requires IsOpen(s, c) && ConnectionOf(s, c).helloComplete && frame.kind == FILE_CHUNK
    ensures var t := HandleChunk(w, s, c, frame, io);
      && (s.active.Some? ==> PartName(s.active.value.target) in s.files
                             && s.files[PartName(s.active.value.target)] == s.active.value.hashed)
      && (Owns(s, c) ==> ChunkTaken(w, s, c, frame, io, t))
      && (!Owns(s, c) ==> t.active == s.active && t.files == s.files
                          && Dismissed(w, ConnectionOf(s, c), ConnectionOf(t, c), frame.requestId, StrangerAnswer(w, frame), io))
  {
    hide Inv, ChunkTaken, HandleChunk, Faithful, Dismissed, StrangerAnswer;
    PartIsThere(w, initial, s);
    if Owns(s, c) {
      ChunkDecision(w, initial, s, c, frame, io);
    } else {
      StrangerDecision(w, s, c, frame, io);
    }
  }

  lemma FinishObserved(w: World, initial: map<Name, Bytes>, s: Server, c: Socket, frame: Frame, io: Io)
    requires Faithful(w) && Inv(w, initial, s)
    requires IsOpen(s, c) && ConnectionOf(s, c).helloComplete && frame.kind == FILE_FINISH
    ensures var t := HandleFinish(w, s, c, frame, io);
      && (s.active.Some? ==> PartName(s.active.value.target) in s.files)
      && (Owns(s, c) ==> FinishTaken(w, s, c, frame, io, t))
      && (!Owns(s, c) ==> t.active == s.active && t.files == s.files
                          && Dismissed(w, ConnectionOf(s, c), ConnectionOf(t, c), frame.requestId, StrangerAnswer(w, frame), io))
  {
    hide Inv, FinishTaken, HandleFinish, Faithful, Dismissed, StrangerAnswer;
    PartIsThere(w, initial, s);
    if Owns(s, c) {
      FinishDecision(w, initial, s, c, frame, io);
    } else {
      StrangerDecision(w, s, c, frame, io);
    }
  }

  lemma OfferObserved(w: World, s: Server, c: Socket, frame: Frame, io: Io)
    requires Faithful(w) && IsOpen(s, c) && ConnectionOf(s, c).helloComplete && frame.kind == FILE_OFFER
    ensures var t := HandleOffer(w, s, c, frame, io);
      && Answered(w, ConnectionOf(s, c), ConnectionOf(t, c), frame.requestId, OfferAnswer(w, s, frame, io), io)
      && (s.active.None? ==> OfferTaken(w, s, c, frame, io, t))
  {
    hide HandleOffer, OfferTaken, Faithful, Answered, OfferAnswer;
    OfferIsAnswered(w, s, c, frame, io);
    if s.active.None? {
      OfferDecision(w, s, c, frame, io);
    }
  }

  lemma HelloObserved(w: World, s: Server, c: Socket, frame: Frame, io: Io)
    requires Faithful(w) && IsOpen(s, c) && frame.kind == HELLO
    ensures var t := HandleHello(w, s, c, frame, io);
      if ConnectionOf(s, c).helloComplete || Decode(w, frame).Failure? then !IsOpen(t, c)
      else Answered(w, ConnectionOf(s, c), ConnectionOf(t, c), frame.requestId, HelloAck, io)
           && (IsOpen(t, c) ==> ConnectionOf(t, c).helloComplete)
  {
    hide HandleHello, Faithful, Answered;
    if ConnectionOf(s, c).helloComplete || Decode(w, frame).Failure? {
      OutOfTurnCloses(w, s, c, frame, io);
    } else {
      HelloDecision(w, s, c, frame, io);
    }
  }

  /** The three ways sending a frame can go. */
  lemma SendOutcomes(s: Server, c: Socket, frame: Frame, io: Io)
    ensures var conn, accepted := ConnectionOf(s, c), BytesTaken(io.accepts, |Layout(frame)|);
      SendFrame(s, c, frame, io) ==
        if !IsOpen(s, c) then s
        else if conn.remainder == [] && Encodable(frame) && accepted >= 0
             && io.pending + |Layout(frame)| <= PENDING_CONTROL_WRITE_LIMIT
        then WithConnection(s, c, Sent(conn, frame, accepted))
        else RemoveConnection(s, c)
  {
    hide Layout, Encodable, RemoveConnection;
  }
}
