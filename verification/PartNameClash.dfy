/**
 A published file can be lost: if its name ends in the part file suffix, an offer of the name without
 the suffix removes it, even an offer that is rejected because the part file then cannot be opened.
 */
module PartNameClash {
  import opened Bytes
  import opened ChunkCodec
  import opened FrameCodec
  import opened Messages
  import opened Results
  import opened TransferServer
  import opened ReceiverInvariant
  import opened ReceiverDecisions
  import opened ReliableReceiver

  const GOOD_IO := Io(true, false, true, MAX_PAYLOAD_SIZE, true, true, 0, PENDING_CONTROL_WRITE_LIMIT, true)
  const SHUT_IO := GOOD_IO.(opens := false)

  predicate Offers(w: World, f: Frame, id: Bytes, target: Name, data: Bytes) {
    && f.kind == FILE_OFFER && Decode(w, f).Success?
    && var m := Decode(w, f).value;
       m.Offer? && m.transferId == id && m.fileName == target && m.fileSize == |data| && m.sha256 == w.sha256(data)
  }

  /** Hello, offer, one chunk and finish of a file. */
  predicate Transfers(w: World, frames: seq<Frame>, id: Bytes, target: Name, data: Bytes) {
    && |frames| == 4 && (forall f :: f in frames ==> Encodable(f))
    && frames[0].kind == HELLO && Decode(w, frames[0]).Success?
    && Offers(w, frames[1], id, target, data)
    && frames[2].kind == FILE_CHUNK && DecodeChunk(frames[2].payload) == Success(FileChunk(id, 0, data))
    && frames[3].kind == FILE_FINISH && Decode(w, frames[3]) == Success(Finish(id))
    && Sayable(w, HelloAck) && Sayable(w, Accept(id)) && Sayable(w, FileResult(id, true, NO_ERROR))
  }

  /** Somebody sends a file and then offers another one, whose part file cannot be opened. */
  function Clash(frames: seq<Frame>, again: Frame): seq<Event> {
    [Connect(0), Receive(0, LayoutAll(frames), FOUR_GOOD), Receive(0, LayoutAll([again]), [SHUT_IO])]
  }

  lemma WholeFramesArrive(w: World, s: Server, c: Socket, frames: seq<Frame>, ios: seq<Io>)
    requires forall f :: f in frames ==> Encodable(f)
    requires IsOpen(s, c) && ConnectionOf(s, c).buffer == []
    ensures Apply(w, s, Receive(c, LayoutAll(frames), ios)) == DispatchAll(w, s, c, frames, ios)
  {
    hide Layout, LayoutAll, Encodable, DispatchAll, Drain;
    DrainOfLayouts(frames, []);
    assert [] + LayoutAll(frames) == LayoutAll(frames) + [];
    assert Drain([]) == Drained([], [], None) by { DrainByHead([]); }
    assert frames + [] == frames;
    assert s.connections[c := s.connections[c]] == s.connections;
  }

  lemma TwoSteps(w: World, s: Server, a: Event, b: Event)
    ensures After(w, s, [a, b]) == Apply(w, Apply(w, s, a), b)
  {
    hide Apply;
    assert [a, b][1..] == [b] && [b][1..] == [];
    assert After(w, Apply(w, s, a), [b]) == After(w, Apply(w, Apply(w, s, a), b), []);
  }

  lemma RejectedOfferClears(w: World, s: Server, again: Frame, other: Bytes, name: Name, lost: Bytes)
    requires Talking(s, 0) && s.active.None? && Offers(w, again, other, name, lost)
    requires name !in s.files
    ensures var t := DispatchFrame(w, s, 0, again, SHUT_IO);
      t.active.None? && t.files == s.files - {PartName(name)} && t.published == s.published
  {
    hide SendMessage;
    SendOutcome(w, Cleared(s, name), 0, Reject(other, OPEN_FAILED), again.requestId, SHUT_IO);
  }

  /** A connection that is open, has nothing left over and has shaken hands. */
  predicate Talking(s: Server, c: Socket) {
    IsOpen(s, c) && ConnectionOf(s, c).helloComplete && ConnectionOf(s, c).remainder == [] && ConnectionOf(s, c).buffer == []
  }

  const FOUR_GOOD := [GOOD_IO, GOOD_IO, GOOD_IO, GOOD_IO]

  lemma FourFrames(w: World, s: Server, f0: Frame, f1: Frame, f2: Frame, f3: Frame)
    ensures DispatchAll(w, s, 0, [f0, f1, f2, f3], FOUR_GOOD)
         == DispatchFrame(w, DispatchFrame(w, DispatchFrame(w, DispatchFrame(w, s, 0, f0, GOOD_IO), 0, f1, GOOD_IO),
                                           0, f2, GOOD_IO), 0, f3, GOOD_IO)
  {
    hide DispatchFrame;
    assert [f0, f1, f2, f3][..3] == [f0, f1, f2] && [f0, f1, f2][..2] == [f0, f1] && [f0, f1][..1] == [f0] && [f0][..0] == [];
    assert forall i: nat :: i < 4 ==> IoAt(FOUR_GOOD, i) == GOOD_IO;
    assert DispatchAll(w, s, 0, [], FOUR_GOOD) == s;
    var s1 := DispatchAll(w, s, 0, [f0], FOUR_GOOD);
    assert s1 == DispatchFrame(w, s, 0, f0, GOOD_IO);
    var s2 := DispatchAll(w, s, 0, [f0, f1], FOUR_GOOD);
    assert s2 == DispatchFrame(w, s1, 0, f1, GOOD_IO);
    assert DispatchAll(w, s, 0, [f0, f1, f2], FOUR_GOOD) == DispatchFrame(w, s2, 0, f2, GOOD_IO);
  }

  /** Hello and offer: the connection owns the transfer, and its part file is empty. */
  lemma OfferIsTaken(w: World, s: Server, frames: seq<Frame>, id: Bytes, target: Name, data: Bytes)
    requires Transfers(w, frames, id, target, data)
    requires s == WithConnection(Fresh(map[]), 0, NEW_CONNECTION)
    ensures var t := DispatchFrame(w, DispatchFrame(w, s, 0, frames[0], GOOD_IO), 0, frames[1], GOOD_IO);
      && Talking(t, 0) && t.files == map[PartName(target) := []] && t.published == []
      && t.active == Some(Transfer(Accepted, 0, frames[1].requestId, id, w.sha256(data), |data|, 0, target, []))
  {
    hide DispatchFrame, Answered, DecodeChunk;
    HelloIsAnswered(w, s, 0, frames[0], GOOD_IO);
    AnsweredKeeps(w, ConnectionOf(s, 0).(helloComplete := true), HelloAck, frames[0].requestId);
    var greeted := DispatchFrame(w, s, 0, frames[0], GOOD_IO);
    assert Talking(greeted, 0);
    OfferIsAccepted(w, greeted, 0, frames[1], GOOD_IO);
    AnsweredKeeps(w, ConnectionOf(greeted, 0), Accept(id), frames[1].requestId);
  }

  lemma FileIsReceived(w: World, s: Server, frames: seq<Frame>, id: Bytes, target: Name, data: Bytes)
    requires Transfers(w, frames, id, target, data) && |data| <= MAX_PAYLOAD_SIZE
    requires s == WithConnection(Fresh(map[]), 0, NEW_CONNECTION)
    ensures var t := DispatchAll(w, s, 0, frames, FOUR_GOOD);
      Talking(t, 0) && t.active.None? && t.files == map[target := data] && |t.published| == 1
  {
    hide DispatchFrame, Answered, DecodeChunk, Offers;
    assert frames == [frames[0], frames[1], frames[2], frames[3]];
    FourFrames(w, s, frames[0], frames[1], frames[2], frames[3]);
    OfferIsTaken(w, s, frames, id, target, data);
    var begun := DispatchFrame(w, DispatchFrame(w, s, 0, frames[0], GOOD_IO), 0, frames[1], GOOD_IO);
    ChunkIsStored(w, begun, 0, frames[2], GOOD_IO);
    assert [] + data == data;
    var stored := DispatchFrame(w, begun, 0, frames[2], GOOD_IO);
    FinishPublishes(w, stored, 0, frames[3], GOOD_IO);
    AnsweredKeeps(w, ConnectionOf(stored, 0), FileResult(id, true, NO_ERROR), frames[3].requestId);
  }

  lemma AnsweredKeeps(w: World, conn: Connection, m: Message, requestId: uint64)
    requires Sayable(w, m)
    ensures var t := Answered(w, conn, m, requestId, GOOD_IO);
      t.open == conn.open && t.helloComplete == conn.helloComplete && t.buffer == conn.buffer && t.remainder == []
  {}

  /**
   A run at whose end a published file is gone, though nothing but an offer of another name came in
   after it, and that offer was rejected.
   */
  lemma RejectedOfferRemovesPublishedFile(w: World, frames: seq<Frame>, again: Frame, id: Bytes, other: Bytes, name: Name,
                                          data: Bytes, lost: Bytes)
    requires Transfers(w, frames, id, PartName(name), data) && |data| <= MAX_PAYLOAD_SIZE
    requires Encodable(again) && Offers(w, again, other, name, lost)
    ensures var run := Clash(frames, again);
      var published, after := After(w, Fresh(map[]), run[..2]), After(w, Fresh(map[]), run);
      && published.files == map[PartName(name) := data] && published.active.None?
      && after.files == map[] && after.active.None? && after.published == published.published
  {
    var run := Clash(frames, again);
    var s := WithConnection(Fresh(map[]), 0, NEW_CONNECTION);
    assert Apply(w, Fresh(map[]), run[0]) == s;
    hide DispatchFrame, Layout, LayoutAll, Encodable, DecodeChunk, Apply, Offers;
    var published := After(w, Fresh(map[]), run[..2]);
    assert run[..2] == [run[0], run[1]];
    TwoSteps(w, Fresh(map[]), run[0], run[1]);
    WholeFramesArrive(w, s, 0, frames, run[1].ios);
    FileIsReceived(w, s, frames, id, PartName(name), data);
    assert After(w, Fresh(map[]), run) == Apply(w, published, run[2]) by {
      ThreeSteps(w, Fresh(map[]), run[0], run[1], run[2]);
    }
    WholeFramesArrive(w, published, 0, [again], [SHUT_IO]);
    OneFrame(w, published, again);
    RejectedOfferClears(w, published, again, other, name, lost);
  }

  lemma OneFrame(w: World, s: Server, frame: Frame)
    ensures DispatchAll(w, s, 0, [frame], [SHUT_IO]) == DispatchFrame(w, s, 0, frame, SHUT_IO)
  {
    hide DispatchFrame;
    assert [frame][..0] == [];
    assert DispatchAll(w, s, 0, [], [SHUT_IO]) == s;
  }

  lemma ThreeSteps(w: World, s: Server, a: Event, b: Event, c: Event)
    ensures After(w, s, [a, b, c]) == Apply(w, After(w, s, [a, b]), c)
  {
    hide Apply;
    assert [a, b, c][1..] == [b, c];
    TwoSteps(w, s, a, b);
    TwoSteps(w, Apply(w, s, a), b, c);
  }
}
