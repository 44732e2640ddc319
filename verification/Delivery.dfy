/**
 Liveness end to end: with a receiver whose file system does not fail and that has nothing else to do,
 with sockets that go on accepting and bytes that arrive, a send ends after a bounded number of steps,
 and it ends with the file delivered.
 */
module Delivery {
  import opened Bytes
  import opened ChunkCodec
  import opened FrameCodec
  import opened Messages
  import opened Results
  import opened TransferSystem
  import Client = TransferClient
  import Sending = SenderInvariant
  import SenderHistory
  import SenderDecisions
  import Progress = SenderProgress
  import Server = TransferServer
  import Receiving = ReceiverInvariant
  import ReliableReceiver
  import Serving = ReceiverProgress
  import ServerHistory
  import Honest = HonestReceiver

  /* ---------------------------------------------------------------- runs in which nothing fails */

  /** Both ends can say what a transfer of the file takes. */
  ghost predicate CanTalk(w: World, job: Client.Job) {
    && Progress.CanSay(w, job)
    && forall id: Bytes :: IsLowerHex(id, TRANSFER_ID_LENGTH) ==> Serving.CanAnswer(w, id)
  }

  function Link(y: System): Server.Connection {
    Server.ConnectionOf(y.server, y.me)
  }

  /** A step at either end or a delivery that does something, and meets no failure. */
  predicate Good(y: System, e: Event) {
    && y.sender.active && Enabled(y, e)
    && match e
       case AtSender(Connected(io)) => Progress.Serviceable(io)
       case AtSender(HashDone(hashed, io)) => hashed && y.sender.client.state == Client.Offering && Progress.Serviceable(io)
       case AtSender(PumpFires(io)) => Progress.Serviceable(io)
       case AtSender(FlushFires(io)) => Progress.Serviceable(io)
       case AtSender(Drained(n)) => n >= 1
       case AtServer(FlushFires(c, connected, io)) =>
         c == y.me && connected && Link(y).flushScheduled && ReliableReceiver.Reliable(io) && io.accepts >= 1
       case ToServer(n, ios) => n >= 1 && Serving.ReliableAll(ios, Progress.ScriptLength(y.job))
       case ToSender(n, ios) => n >= 1 && n <= |ios| && forall io :: io in ios ==> Progress.Serviceable(io)
       case _ => false
  }

  predicate GoodRun(w: World, y: System, es: seq<Event>)
    decreases |es|
  {
    es == [] || (Good(y, es[0]) && GoodRun(w, Apply(w, y, es[0]), es[1..]))
  }

  /* ---------------------------------------------------------------- what such a run keeps */

  /** Answers the client has taken off the server's stream. */
  function AnswersHeard(y: System): nat
    requires y.heard <= |Reply(y)|
  {
    |Drain(Reply(y)[..y.heard]).frames|
  }

  /** The transfer is under way: what has been taken has been answered, and what was answered has been heeded. */
  ghost predicate OnTrack(w: World, y: System) {
    && y.read <= |Stream(y)| && y.heard <= |Reply(y)|
    && y.sender.active && |y.sender.completions| == y.earlier && Progress.Ids(y.sender.client)
    && Taken(y) <= |y.sender.client.sent|
    && Serving.Serving(w, y.job, y.sender.client.offeredId, y.sender.client.sent, y.server, y.me, Taken(y))
    && AnswersHeard(y) == Progress.Heard(y.sender.client.state)
  }

  /** What is still to be done. */
  function Rank(y: System): int {
    Progress.SendRank(y.job, y.sender.client) - y.read + Serving.AnswerRank(Link(y)) - 2 * y.heard
  }

  lemma OfInv(w: World, initial: map<Server.Name, Bytes>, y: System)
    requires Inv(w, initial, y)
    ensures Sending.Inv(w, y.sender) && Receiving.Inv(w, initial, y.server) && y.me in y.server.connections
    ensures y.read <= y.sender.client.drained <= |Stream(y)| && y.heard <= |Reply(y)|
    ensures Server.IsOpen(y.server, y.me) ==> Link(y).buffer == Drain(Stream(y)[..y.read]).rest
    ensures y.sender.active ==> y.sender.client.buffer == Drain(Reply(y)[..y.heard]).rest
    ensures y.sender.job == y.job && y.sender.accepted == y.earlier + 1
    ensures Honest.Follows(w, y.job, y.sender.client.offeredId, y.server, y.me, Taken(y))
  {
    hide Sending.Inv, Receiving.Inv, Honest.Follows, Drain;
  }

  /** A stream all of whose frames have been taken off has no bytes left, neither on the wire nor left over. */
  lemma AllTaken(sent: seq<Frame>, stream: Bytes, n: nat, remainder: Bytes)
    requires n <= |stream| && stream + remainder == LayoutAll(sent) && Drain(stream[..n]).frames == sent
    ensures n == |stream| && remainder == []
  {
    hide Drain, Layout, LayoutAll, HeadOf;
    DrainCanonical(stream[..n]);
    assert |LayoutAll(sent)| <= n;
  }

  lemma PrefixOfSameLength<T>(a: seq<T>, b: seq<T>)
    requires a <= b && |a| == |b|
    ensures a == b
  {}

  /** Once all the answers there are have been heard, the socket of the connection has taken everything. */
  lemma AllHeard(w: World, initial: map<Server.Name, Bytes>, y: System)
    requires Inv(w, initial, y) && Server.IsOpen(y.server, y.me)
    requires y.heard <= |Reply(y)| && AnswersHeard(y) >= |Link(y).sent|
    ensures Link(y).remainder == [] && y.heard == |Reply(y)|
  {
    hide Sending.Inv, Honest.Follows, Drain, Outcome;
    assert Receiving.StreamSound(Link(y));
    HeardOfSent(w, initial, y.server, y.me, y.heard);
    PrefixOfSameLength(Drain(Reply(y)[..y.heard]).frames, Link(y).sent);
    AllTaken(Link(y).sent, Reply(y), y.heard, Link(y).remainder);
  }

  lemma LiveStream(w: World, s: Client.Sender)
    requires Sending.Inv(w, s) && s.active
    ensures s.client.wire + s.client.remainder == LayoutAll(s.client.sent)
  {
    hide Sending.Core, Sending.ChunksOnly;
    if s.client.state == Client.Connecting {
      assert LayoutAll([]) == [];
    }
  }

  lemma AllSentTaken(w: World, y: System)
    requires Sending.Inv(w, y.sender) && y.sender.active && y.read <= |Stream(y)|
    requires Taken(y) >= |y.sender.client.sent|
    ensures y.sender.client.remainder == [] && y.read == |Stream(y)|
  {
    hide Sending.Inv, Drain;
    LiveStream(w, y.sender);
    TakenOfSent(w, y.sender, y.read);
    PrefixOfSameLength(Drain(Stream(y)[..y.read]).frames, y.sender.client.sent);
    AllTaken(y.sender.client.sent, Stream(y), y.read, y.sender.client.remainder);
  }

  /** How far the script has come in each state. */
  lemma StateOfScript(w: World, s: Client.Sender)
    requires Sending.Inv(w, s) && s.active
    ensures var c := s.client;
      match c.state
      case Connecting => |c.sent| == 0
      case HelloSent => |c.sent| == 1
      case Offering => |c.sent| == if c.fileOpen then 2 else 1
      case Sending => |c.sent| >= 2
      case Finishing => |c.sent| >= 3
      case _ => false
  {
    hide Sending.Core, Sending.ChunksOnly;
  }

  lemma NotDoneBefore(w: World, job: Client.Job, id: Bytes, sent: seq<Frame>, i: nat)
    requires Sending.Script(w, job, id, sent) && i < |sent|
    ensures !Serving.Done(job, i)
  {
    hide Sending.IsMessage;
    if i >= 3 {
      if Sending.ChunksOnly(job, id, sent) {
        assert Sending.IsChunk(job, id, Sending.Body(sent)[i - 3], i - 3);
      } else {
        assert Sending.IsChunk(job, id, Sending.Body(sent[..|sent| - 1])[i - 3], i - 3);
      }
    }
  }

  /** No proper part of the script is all of it, and it is no longer than it should be. */
  lemma ScriptIsOpen(w: World, job: Client.Job, id: Bytes, sent: seq<Frame>)
    requires Sending.Script(w, job, id, sent)
    ensures forall i: nat :: i < |sent| ==> !Serving.Done(job, i)
    ensures |sent| <= Progress.ScriptLength(job)
  {
    hide Sending.Script;
    forall i: nat | i < |sent| ensures !Serving.Done(job, i) {
      NotDoneBefore(w, job, id, sent, i);
    }
    if |sent| > 3 {
      assert !Serving.Done(job, |sent| - 1);
    }
  }

  /** Frames are taken only while the connection's answers have all been heard, and then may come in one go. */
  lemma QuietBeforeTaking(w: World, initial: map<Server.Name, Bytes>, y: System)
    requires Inv(w, initial, y) && OnTrack(w, y) && Taken(y) < |y.sender.client.sent|
    ensures Link(y).remainder == [] && Serving.Paced(y.job, y.sender.client.sent, Taken(y))
  {
    OfInv(w, initial, y);
    var c := y.sender.client;
    StateOfScript(w, y.sender);
    OfSender(w, y.sender);
    ScriptIsOpen(w, y.job, c.offeredId, c.sent);
    HeardAtMostAnswered(w, initial, y);
    hide Inv, Sending.Inv, Receiving.Inv, Drain, Honest.Follows, Sending.Script;
    AllHeard(w, initial, y);
  }

  lemma HeardAtMostAnswered(w: World, initial: map<Server.Name, Bytes>, y: System)
    requires Inv(w, initial, y) && y.heard <= |Reply(y)|
    ensures AnswersHeard(y) <= |Link(y).sent|
  {
    OfInv(w, initial, y);
    hide Inv, Drain;
    HeardOfSent(w, initial, y.server, y.me, y.heard);
  }

  /* ---------------------------------------------------------------- steps at the sender */

  lemma ServingGrows(w: World, job: Client.Job, a: Bytes, b: Bytes, sent: seq<Frame>, more: seq<Frame>, s: Server.Server,
                     me: Server.Socket, j: nat)
    requires sent <= more && j <= |sent| && (j >= 2 ==> a == b) && Serving.Serving(w, job, a, sent, s, me, j)
    ensures Serving.Serving(w, job, b, more, s, me, j)
  {
    hide Serving.AnswersTo;
  }

  lemma SenderStaysOnTrack(w: World, initial: map<Server.Name, Bytes>, y: System, t: Client.Sender)
    requires Inv(w, initial, y) && OnTrack(w, y) && Progress.GoesOn(y.sender, t) && SenderHistory.Longer(y.sender, t)
    ensures OnTrack(w, y.(sender := t)) && Rank(y.(sender := t)) < Rank(y)
  {
    hide Inv, Drain, Serving.Serving, Progress.SendRank, Progress.Ids, Serving.AnswerRank;
    OfInv(w, initial, y);
    LongerKeepsTaken(y.sender, t, y.read);
    ServingGrows(w, y.job, y.sender.client.offeredId, t.client.offeredId, y.sender.client.sent, t.client.sent, y.server, y.me,
                 Taken(y));
  }

  /** Before its offer the sender has nothing left over: the hello has been answered. */
  lemma HelloIsOut(w: World, initial: map<Server.Name, Bytes>, y: System)
    requires Inv(w, initial, y) && OnTrack(w, y) && y.sender.client.state == Client.Offering && !y.sender.client.fileOpen
    ensures y.sender.client.remainder == []
  {
    hide Inv, Sending.Inv, Receiving.Inv, Drain, Honest.Follows;
    OfInv(w, initial, y);
    StateOfScript(w, y.sender);
    HeardAtMostAnswered(w, initial, y);
    AllSentTaken(w, y);
  }

  lemma HashingIsOffering(w: World, s: Client.Sender)
    requires Sending.Inv(w, s) && s.active && s.client.hashing.Some? && s.client.state == Client.Offering
    ensures !s.client.fileOpen
  {
    hide Sending.Core, Sending.ChunksOnly;
  }

  lemma GoodAtSender(w: World, initial: map<Server.Name, Bytes>, y: System, c: Client.Event)
    requires Faithful(w) && Sending.SmallControl(w) && CanTalk(w, y.job)
    requires Inv(w, initial, y) && OnTrack(w, y) && Good(y, AtSender(c))
    ensures Progress.GoesOn(y.sender, Client.Apply(w, y.sender, c))
  {
    hide Inv, Sending.Inv, OnTrack, Progress.GoesOn, Client.SendHello, Client.HandleHashResult, Client.SendNextChunk,
      Client.FlushWriteRemainder, Client.HandleBytesWritten, Progress.CanSay, Sending.SmallControl, Progress.Ids;
    OfInv(w, initial, y);
    OnTrackIds(w, y);
    match c
    case Connected(io) => Progress.ConnectedGoesOn(w, y.sender, io);
    case HashDone(hashed, io) =>
      HashingIsOffering(w, y.sender);
      HelloIsOut(w, initial, y);
      Progress.HashedGoesOn(w, y.sender, io);
    case PumpFires(io) => Progress.PumpGoesOn(w, y.sender, io);
    case FlushFires(io) => Progress.FlushGoesOn(w, y.sender, io);
    case Drained(n) => Progress.DrainGoesOn(w, y.sender, n);
  }

  lemma OnTrackIds(w: World, y: System)
    requires OnTrack(w, y)
    ensures Progress.Ids(y.sender.client) && y.sender.active
  {
    hide Serving.Serving, Drain;
  }

  lemma SenderStepOnTrack(w: World, initial: map<Server.Name, Bytes>, y: System, c: Client.Event)
    requires Faithful(w) && Sending.SmallControl(w) && CanTalk(w, y.job)
    requires Inv(w, initial, y) && OnTrack(w, y) && Good(y, AtSender(c))
    ensures var z := Apply(w, y, AtSender(c)); OnTrack(w, z) && Rank(z) < Rank(y)
  {
    hide Inv, OnTrack, Progress.GoesOn, Client.Apply, Rank, Client.Enabled;
    GoodAtSender(w, initial, y, c);
    OfInv(w, initial, y);
    SenderHistory.StepMoves(w, y.sender, c);
    SenderStaysOnTrack(w, initial, y, Client.Apply(w, y.sender, c));
  }

  /* ---------------------------------------------------------------- the receiver's flush */

  /** The connection after its socket has taken something of what was left over, or found nothing. */
  lemma FlushedLink(s: Server.Server, me: Server.Socket, io: Server.Io)
    requires Server.IsOpen(s, me) && !Server.ConnectionOf(s, me).disconnectAfterWrite
    requires Server.ConnectionOf(s, me).flushScheduled && io.accepts >= 1
    ensures var t := Server.FlushWriteRemainder(s, me, true, io);
      var a, b := Server.ConnectionOf(s, me), Server.ConnectionOf(t, me);
      && t.active == s.active && t.files == s.files
      && b.open && b.sent == a.sent && !b.disconnectAfterWrite && a.wire <= b.wire
      && Serving.AnswerRank(b) < Serving.AnswerRank(a)
  {
    var conn := Server.ConnectionOf(s, me);
    var accepted := BytesTaken(io.accepts, |conn.remainder|);
    assert conn.remainder != [] ==> accepted >= 1;
  }

  lemma FlushStepOnTrack(w: World, initial: map<Server.Name, Bytes>, y: System, e: Server.Event)
    requires Inv(w, initial, y) && OnTrack(w, y) && Good(y, AtServer(e))
    ensures var z := Apply(w, y, AtServer(e)); OnTrack(w, z) && Rank(z) < Rank(y)
  {
    hide Inv, Drain, Progress.SendRank, Progress.Ids, Serving.AnswerRank, Serving.Answers, Server.FlushWriteRemainder;
    FlushedLink(y.server, y.me, e.io);
    var z := Apply(w, y, AtServer(e));
    assert Reply(z)[..y.heard] == Reply(y)[..y.heard];
  }

  /* ---------------------------------------------------------------- bytes on their way to the server */

  /** The frames a piece of the stream completes are the next ones of the script. */
  lemma NextOfScript(sent: seq<Frame>, stream: Bytes, from: nat, n: nat)
    requires from + n <= |stream| && Decodes(stream, from, sent) && Decodes(stream, from + n, sent)
    ensures var k, m := |Drain(stream[..from]).frames|, |Drain(stream[..from + n]).frames|;
      var more := Drain(Drain(stream[..from]).rest + Piece(stream, from, n));
      && k <= m <= |sent| && more.error.None? && more.frames == sent[k..m]
  {
    hide Drain;
    NextPiece(stream, from, n);
    var d, e := Drain(stream[..from]), Drain(stream[..from + n]);
    assert e.frames == sent[..|e.frames|] && d.frames == sent[..|d.frames|];
  }

  lemma ScriptFrames(w: World, job: Client.Job, id: Bytes, sent: seq<Frame>)
    requires Sending.Script(w, job, id, sent)
    ensures forall j: nat :: j < |sent| ==> Honest.FrameAt(w, job, id, sent[j], j)
  {
    hide Sending.Script, Honest.FrameAt;
    forall j: nat | j < |sent| ensures Honest.FrameAt(w, job, id, sent[j], j) {
      ScriptAt(w, job, id, sent, j);
    }
  }

  /** An identifier that was offered is well formed, so the server can answer it. */
  lemma OfferedIsAnswerable(w: World, y: System)
    requires Faithful(w) && CanTalk(w, y.job) && Sending.Inv(w, y.sender) && y.sender.job == y.job
    requires |y.sender.client.sent| >= 2
    ensures Serving.CanAnswer(w, y.sender.client.offeredId)
  {
    OfSender(w, y.sender);
    hide Sending.Inv;
    var id := y.sender.client.offeredId;
    assert Sending.IsMessage(w, y.sender.client.sent[1], Client.OfferFor(w, y.job, id));
    DecodeWhatWasSent(w, Client.OfferFor(w, y.job, id), 0);
  }

  /** An identifier to stand in until there is an offer. */
  const SOME_ID: Bytes := Server.UNKNOWN_TRANSFER_ID

  lemma SomeIdIsAnswerable(w: World, job: Client.Job)
    requires CanTalk(w, job)
    ensures Serving.CanAnswer(w, SOME_ID)
  {
    hide Serving.CanAnswer;
    assert IsLowerHex(SOME_ID, TRANSFER_ID_LENGTH);
  }

  lemma PieceServed(w: World, initial: map<Server.Name, Bytes>, job: Client.Job, id: Bytes, sent: seq<Frame>, s: Server.Server,
                    me: Server.Socket, k: nat, m: nat, bytes: Bytes, ios: seq<Server.Io>)
    requires Faithful(w) && Receiving.Inv(w, initial, s) && |job.source| < Client.WORD && k <= m <= |sent|
    requires m > k ==> Serving.CanAnswer(w, id) && Server.ConnectionOf(s, me).remainder == [] && Serving.Paced(job, sent, k)
    requires Serving.Serving(w, job, id, sent, s, me, k) && Honest.Follows(w, job, id, s, me, k)
    requires forall j: nat :: j < |sent| ==> Honest.FrameAt(w, job, id, sent[j], j)
    requires Serving.ReliableAll(ios, m)
    requires var more := Drain(Server.ConnectionOf(s, me).buffer + bytes); more.error.None? && more.frames == sent[k..m]
    ensures var t := Server.HandleReadyRead(w, s, me, bytes, ios);
      && Serving.Serving(w, job, id, sent, t, me, m)
      && Serving.AnswerRank(Server.ConnectionOf(t, me)) <= Serving.AnswerRank(Server.ConnectionOf(s, me))
      && Server.ConnectionOf(s, me).wire <= Server.ConnectionOf(t, me).wire
  {
    hide Receiving.Inv, Honest.Follows, Drain, Honest.FrameAt, Server.DispatchAll, Serving.AnswerRank, Serving.Answers,
      Serving.CanAnswer, Serving.Paced;
    var conn := Server.ConnectionOf(s, me);
    var more := Drain(conn.buffer + bytes);
    BufferFollows(w, initial, job, id, s, me, k, more.rest);
    var pushed := Server.WithConnection(s, me, conn.(buffer := more.rest));
    Serving.SameRank(Server.ConnectionOf(pushed, me), conn);
    ServerHistory.DispatchAllSteady(w, pushed, me, more.frames, ios, me);
    if m > k {
      assert sent[k..k + (m - k)] == more.frames;
      Serving.FramesServed(w, initial, job, id, sent, pushed, me, k, m - k, ios);
    } else {
      NothingDispatched(w, pushed, me, ios);
    }
  }

  lemma NothingDispatched(w: World, s: Server.Server, me: Server.Socket, ios: seq<Server.Io>)
    ensures Server.DispatchAll(w, s, me, [], ios) == s
  {}

  /** The identifier of the offer, or any other while there is none. */
  function IdOf(c: Client.Client): Bytes {
    if |c.sent| >= 2 then c.offeredId else SOME_ID
  }

  /** Until the offer has gone out any identifier will do. */
  lemma AnyIdWillDo(w: World, initial: map<Server.Name, Bytes>, y: System)
    requires Faithful(w) && CanTalk(w, y.job) && Inv(w, initial, y) && OnTrack(w, y)
    ensures var c, id, k := y.sender.client, IdOf(y.sender.client), Taken(y);
      && Serving.CanAnswer(w, id) && Serving.Serving(w, y.job, id, c.sent, y.server, y.me, k)
      && Honest.Follows(w, y.job, id, y.server, y.me, k)
      && (forall j: nat :: j < |c.sent| ==> Honest.FrameAt(w, y.job, id, c.sent[j], j))
  {
    hide Inv, Sending.Inv, Receiving.Inv, Drain, Honest.Follows, Sending.Script, Serving.Serving, CanTalk, Serving.CanAnswer,
      Progress.Ids;
    var c, id, k := y.sender.client, IdOf(y.sender.client), Taken(y);
    OfInv(w, initial, y);
    OfSender(w, y.sender);
    if |c.sent| >= 2 {
      OfferedIsAnswerable(w, y);
    } else {
      SomeIdIsAnswerable(w, y.job);
      Sending.ScriptBeforeOffer(w, y.job, c.offeredId, id, c.sent);
    }
    ServingGrows(w, y.job, c.offeredId, id, c.sent, c.sent, y.server, y.me, k);
    IdDoesNotMatterYet(w, y.job, c.offeredId, id, y.server, y.me, k);
    ScriptFrames(w, y.job, id, c.sent);
  }

  /** The server has taken a piece of the stream and goes on serving it. */
  ghost predicate TookPiece(w: World, y: System, z: System) {
    && z.sender == y.sender && z.me == y.me && z.job == y.job && z.earlier == y.earlier && z.heard == y.heard
    && y.read < z.read <= |Stream(z)| && Taken(z) <= |z.sender.client.sent|
    && Serving.Serving(w, y.job, y.sender.client.offeredId, y.sender.client.sent, z.server, y.me, Taken(z))
    && Serving.AnswerRank(Link(z)) <= Serving.AnswerRank(Link(y)) && Reply(y) <= Reply(z)
  }

  lemma PieceTaken(w: World, initial: map<Server.Name, Bytes>, y: System, n: nat, ios: seq<Server.Io>)
    requires Faithful(w) && CanTalk(w, y.job) && Inv(w, initial, y) && OnTrack(w, y) && Good(y, ToServer(n, ios))
    ensures TookPiece(w, y, Apply(w, y, ToServer(n, ios)))
  {
    hide Inv, Sending.Inv, Receiving.Inv, Drain, Honest.Follows, Serving.Serving, CanTalk, Serving.CanAnswer, Progress.Ids,
      Server.HandleReadyRead, Honest.FrameAt, Decodes, Serving.AnswerRank, Piece, Sending.Script, Serving.Paced;
    var c, id, k := y.sender.client, IdOf(y.sender.client), Taken(y);
    OfInv(w, initial, y);
    var m := |Drain(Stream(y)[..y.read + n]).frames|;
    OfSender(w, y.sender);
    OnTrackIsOpen(w, y);
    SenderDecodes(w, y.sender, y.read);
    SenderDecodes(w, y.sender, y.read + n);
    NextOfScript(c.sent, Stream(y), y.read, n);
    ScriptIsOpen(w, y.job, c.offeredId, c.sent);
    AnyIdWillDo(w, initial, y);
    if m > k {
      QuietBeforeTaking(w, initial, y);
    }
    PieceServed(w, initial, y.job, id, c.sent, y.server, y.me, k, m, Piece(Stream(y), y.read, n), ios);
    var z := Apply(w, y, ToServer(n, ios));
    ServingGrows(w, y.job, id, c.offeredId, c.sent, c.sent, z.server, y.me, m);
  }

  lemma OnTrackIsOpen(w: World, y: System)
    requires OnTrack(w, y)
    ensures Server.IsOpen(y.server, y.me)
  {
    hide Drain, Serving.Answers;
  }

  lemma ToServerStaysOnTrack(w: World, initial: map<Server.Name, Bytes>, y: System, n: nat, ios: seq<Server.Io>)
    requires Faithful(w) && CanTalk(w, y.job) && Inv(w, initial, y) && OnTrack(w, y) && Good(y, ToServer(n, ios))
    ensures var z := Apply(w, y, ToServer(n, ios)); OnTrack(w, z) && Rank(z) < Rank(y)
  {
    hide Inv, OnTrack, TookPiece, Apply, Good, Rank, CanTalk;
    PieceTaken(w, initial, y, n, ios);
    StaysOnTrack(w, y, Apply(w, y, ToServer(n, ios)));
  }

  lemma StaysOnTrack(w: World, y: System, z: System)
    requires OnTrack(w, y) && TookPiece(w, y, z)
    ensures OnTrack(w, z) && Rank(z) < Rank(y)
  {
    hide Drain, Serving.Serving, Progress.Ids, Serving.AnswerRank, Progress.SendRank;
    assert Reply(z)[..y.heard] == Reply(y)[..y.heard];
  }

  /* ---------------------------------------------------------------- bytes on their way back */

  /** The answers a piece of the server's stream completes: the next one, if any. */
  lemma NextAnswers(w: World, initial: map<Server.Name, Bytes>, y: System, n: nat)
    requires Inv(w, initial, y) && OnTrack(w, y) && y.heard + n <= |Reply(y)|
    ensures var more := Drain(y.sender.client.buffer + Piece(Reply(y), y.heard, n));
      var h := |Drain(Reply(y)[..y.heard + n]).frames|;
      && AnswersHeard(y) <= h <= |Link(y).sent| && more.error.None?
      && more.frames == Link(y).sent[AnswersHeard(y)..h] && more.rest == Drain(Reply(y)[..y.heard + n]).rest
  {
    hide Drain, Serving.Serving, Progress.Ids, Piece;
    OfInv(w, initial, y);
    hide Inv;
    HeardOfSent(w, initial, y.server, y.me, y.heard);
    HeardOfSent(w, initial, y.server, y.me, y.heard + n);
    NextPiece(Reply(y), y.heard, n);
    var sent := Link(y).sent;
    var d, e := Drain(Reply(y)[..y.heard]), Drain(Reply(y)[..y.heard + n]);
    assert e.frames == sent[..|e.frames|] && d.frames == sent[..|d.frames|];
  }

  /** There is never more than one answer to be heard. */
  lemma OneAnswerAtMost(w: World, initial: map<Server.Name, Bytes>, y: System)
    requires Inv(w, initial, y) && OnTrack(w, y)
    ensures |Link(y).sent| <= AnswersHeard(y) + 1
    ensures y.sender.client.state == Client.Offering && !y.sender.client.fileOpen ==> |Link(y).sent| == AnswersHeard(y)
    ensures y.sender.client.state == Client.Connecting || y.sender.client.state == Client.Sending ==>
      |Link(y).sent| == AnswersHeard(y)
  {
    hide Drain, Progress.Ids, Serving.AnswersTo;
    OfInv(w, initial, y);
    var c := y.sender.client;
    StateOfScript(w, y.sender);
    HeardAtMostAnswered(w, initial, y);
    hide Inv, Sending.Inv, Receiving.Inv, Honest.Follows;
    if c.state == Client.Sending {
      SendingIsNotDone(w, initial, y);
    }
  }

  lemma SendingIsNotDone(w: World, initial: map<Server.Name, Bytes>, y: System)
    requires Inv(w, initial, y) && y.read <= |Stream(y)| && y.sender.active && y.sender.client.state == Client.Sending
    requires Taken(y) <= |y.sender.client.sent|
    ensures !Serving.Done(y.job, Taken(y))
  {
    OfInv(w, initial, y);
    hide Inv, Drain;
    ChunksAreNotDone(w, y.sender, Taken(y));
  }

  lemma ChunksAreNotDone(w: World, s: Client.Sender, j: nat)
    requires Sending.Inv(w, s) && s.active && s.client.state == Client.Sending && j <= |s.client.sent|
    ensures !Serving.Done(s.job, j)
  {
    hide LayoutAll, Sending.Script;
    var sent := s.client.sent;
    assert Sending.ChunksOnly(s.job, s.client.offeredId, sent);
    if j >= 3 {
      assert Sending.IsChunk(s.job, s.client.offeredId, Sending.Body(sent)[j - 3], j - 3);
    }
  }

  /** What the next answer is, for the state that waits for it. */
  predicate IsAwaited(w: World, s: Client.Sender, f: Frame) {
    && (s.client.state == Client.HelloSent ==> SenderDecisions.Acknowledges(w, s, f))
    && (s.client.state == Client.Offering ==> s.client.fileOpen && SenderDecisions.AcceptsOffer(w, s, f))
    && (s.client.state == Client.Finishing ==> SenderDecisions.ResolvesFinish(w, s, f) && Decode(w, f).value.ok)
    && (s.client.state == Client.HelloSent || s.client.state == Client.Offering || s.client.state == Client.Finishing)
  }

  lemma TransferIds(w: World, s: Client.Sender)
    requires Sending.Inv(w, s) && s.active
    ensures (s.client.state == Client.Offering && s.client.fileOpen) || s.client.state == Client.Finishing ==>
      s.client.transferId == s.client.offeredId
  {
    hide Sending.Core, Sending.ChunksOnly;
  }

  lemma AnswerIsAwaited(w: World, job: Client.Job, s: Client.Sender, answers: seq<Frame>, j: nat)
    requires Progress.Ids(s.client) && j <= |s.client.sent| && |answers| == Progress.Heard(s.client.state) + 1
    requires Serving.Answers(w, job, s.client.offeredId, s.client.sent, answers, j)
    requires Serving.Done(job, j) ==> j == |s.client.sent|
    requires s.client.state == Client.HelloSent || s.client.state == Client.Finishing
             || (s.client.state == Client.Offering && s.client.fileOpen)
    requires s.client.state != Client.HelloSent ==> s.client.transferId == s.client.offeredId
    ensures IsAwaited(w, s, answers[|answers| - 1])
  {
    hide Serving.Done;
  }

  /** The answer that is still to be heard is the one that is awaited. */
  lemma NextIsAwaited(w: World, initial: map<Server.Name, Bytes>, y: System)
    requires Inv(w, initial, y) && OnTrack(w, y) && |Link(y).sent| == AnswersHeard(y) + 1
    ensures IsAwaited(w, y.sender, Link(y).sent[AnswersHeard(y)])
  {
    hide Inv, Sending.Inv, Receiving.Inv, Honest.Follows, Drain, Serving.Answers, Progress.Ids, IsAwaited;
    OfInv(w, initial, y);
    OneAnswerAtMost(w, initial, y);
    StateOfScript(w, y.sender);
    TransferIds(w, y.sender);
    TakenWholeScript(w, initial, y);
    AnswerIsAwaited(w, y.job, y.sender, Link(y).sent, Taken(y));
  }

  /** If the finish has been taken there is nothing after it. */
  lemma TakenWholeScript(w: World, initial: map<Server.Name, Bytes>, y: System)
    requires Inv(w, initial, y) && OnTrack(w, y)
    ensures Serving.Done(y.job, Taken(y)) ==> Taken(y) == |y.sender.client.sent|
  {
    hide Drain, Serving.Serving, Progress.Ids;
    OfInv(w, initial, y);
    OfSender(w, y.sender);
    hide Inv, Sending.Inv, Sending.Script;
    ScriptIsOpen(w, y.job, y.sender.client.offeredId, y.sender.client.sent);
  }

  /** The sender once the answer has been dispatched. */
  lemma AwaitedIsHeard(w: World, s: Client.Sender, f: Frame, io: Client.Io)
    requires Faithful(w) && Sending.Inv(w, s) && s.active && IsAwaited(w, s, f) && io.fileExists
    ensures var t := Client.DispatchFrame(w, s, f, io);
      if s.client.state == Client.Finishing then SenderDecisions.Concludes(s, t, Success(())) else Progress.Hears(s, t, 1)
  {
    hide Sending.Inv, Client.DispatchFrame, SenderDecisions.Concludes, Progress.Hears, SenderDecisions.Acknowledges,
      SenderDecisions.AcceptsOffer;
    if s.client.state == Client.HelloSent {
      Progress.AckIsHeard(w, s, f, io);
    } else if s.client.state == Client.Offering {
      Progress.AcceptIsHeard(w, s, f, io);
    } else {
      SenderDecisions.ResultDecision(w, s, f, io);
    }
  }

  lemma BufferIsFree(w: World, s: Client.Sender, buffer: Bytes, f: Frame)
    requires IsAwaited(w, s, f)
    ensures IsAwaited(w, s.(client := s.client.(buffer := buffer)), f)
  {}

  lemma GoodHearing(y: System, n: nat, ios: seq<Client.Io>)
    requires Good(y, ToSender(n, ios))
    ensures n >= 1 && y.heard + n <= |Reply(y)| && Client.IoAt(ios, 0).fileExists && y.sender.active
  {
    assert ios[0] in ios;
  }

  /** How the sender fares when a piece brings the answers up to h. */
  predicate Fares(s: Client.Sender, t: Client.Sender, had: nat, h: nat) {
    && had <= h
    && (if h > had && s.client.state == Client.Finishing then SenderDecisions.Concludes(s, t, Success(()))
        else Progress.Hears(s, t, h - had))
  }

  lemma NothingNew(w: World, s: Client.Sender, bytes: Bytes, ios: seq<Client.Io>, had: nat)
    requires s.active && Progress.Ids(s.client)
    requires var more := Drain(s.client.buffer + bytes); more.error.None? && more.frames == []
    ensures Fares(s, Client.HandleReadyRead(w, s, bytes, ios), had, had)
  {
    hide Drain, Progress.Hears, Client.HandleReadyRead, Progress.Ids;
    Progress.ReadsNothing(w, s, bytes, ios);
    Progress.NothingIsHeard(s, Drain(s.client.buffer + bytes).rest);
  }

  lemma AnswerCame(w: World, s: Client.Sender, bytes: Bytes, ios: seq<Client.Io>, f: Frame, had: nat)
    requires Faithful(w) && Sending.Inv(w, s) && s.active && IsAwaited(w, s, f) && Client.IoAt(ios, 0).fileExists
    requires var more := Drain(s.client.buffer + bytes); more.error.None? && more.frames == [f]
    ensures Fares(s, Client.HandleReadyRead(w, s, bytes, ios), had, had + 1)
  {
    hide Sending.Inv, Drain, IsAwaited, Client.DispatchFrame, Client.HandleReadyRead, Progress.Hears, SenderDecisions.Concludes;
    var rest := Drain(s.client.buffer + bytes).rest;
    var pushed := s.(client := s.client.(buffer := rest));
    Progress.ReadsOne(w, s, bytes, ios, f);
    BufferIsFree(w, s, rest, f);
    Sending.BufferKeeps(w, s, rest);
    AwaitedIsHeard(w, pushed, f, Client.IoAt(ios, 0));
    FromPushed(s, rest, Client.DispatchFrame(w, pushed, f, Client.IoAt(ios, 0)));
  }

  /** What the sender makes of a piece of the server's stream. */
  lemma PieceHeard(w: World, initial: map<Server.Name, Bytes>, y: System, n: nat, ios: seq<Client.Io>)
    requires Faithful(w) && Inv(w, initial, y) && OnTrack(w, y) && y.heard + n <= |Reply(y)|
    requires Client.IoAt(ios, 0).fileExists
    ensures Fares(y.sender, Client.HandleReadyRead(w, y.sender, Piece(Reply(y), y.heard, n), ios),
                  AnswersHeard(y), |Drain(Reply(y)[..y.heard + n]).frames|)
  {
    hide Inv, Sending.Inv, Receiving.Inv, Honest.Follows, Drain, Serving.Serving, Progress.Ids, Piece, IsAwaited, Fares,
      Client.HandleReadyRead;
    OfInv(w, initial, y);
    NextAnswers(w, initial, y, n);
    OneAnswerAtMost(w, initial, y);
    var bytes, had := Piece(Reply(y), y.heard, n), AnswersHeard(y);
    var h := |Drain(Reply(y)[..y.heard + n]).frames|;
    if h == had {
      NothingNew(w, y.sender, bytes, ios, had);
    } else {
      assert Link(y).sent[had..h] == [Link(y).sent[had]];
      NextIsAwaited(w, initial, y);
      AnswerCame(w, y.sender, bytes, ios, Link(y).sent[had], had);
    }
  }

  /** The buffer has no part in what an answer leads to. */
  lemma FromPushed(s: Client.Sender, buffer: Bytes, t: Client.Sender)
    ensures var pushed := s.(client := s.client.(buffer := buffer));
      && (SenderDecisions.Concludes(pushed, t, Success(())) ==> SenderDecisions.Concludes(s, t, Success(())))
      && (Progress.Hears(pushed, t, 1) ==> Progress.Hears(s, t, 1))
  {
    Progress.StateIsFree(s.job, s.client, s.client.(buffer := buffer));
    hide Progress.SendRank, Progress.Ids;
  }

  lemma ToSenderStaysOnTrack(w: World, initial: map<Server.Name, Bytes>, y: System, n: nat, ios: seq<Client.Io>)
    requires Faithful(w) && Inv(w, initial, y) && OnTrack(w, y) && Good(y, ToSender(n, ios))
    ensures var z := Apply(w, y, ToSender(n, ios)); Succeeded(z) || (OnTrack(w, z) && Rank(z) < Rank(y))
  {
    hide Inv, Sending.Inv, Receiving.Inv, Honest.Follows, Drain, Good, Piece, Client.HandleReadyRead, OnTrack, Rank, Fares,
      SenderHistory.Longer, SenderHistory.Confirms, SenderHistory.NoSuccess;
    GoodHearing(y, n, ios);
    OfInv(w, initial, y);
    PieceHeard(w, initial, y, n, ios);
    ReplyHeard(w, initial, y.sender, y.server, y.me, y.heard, n, ios);
    HeardOnTrack(w, y, n, Apply(w, y, ToSender(n, ios)).sender);
  }

  lemma HeardOnTrack(w: World, y: System, n: nat, t: Client.Sender)
    requires OnTrack(w, y) && n >= 1 && y.heard + n <= |Reply(y)| && SenderHistory.Longer(y.sender, t)
    requires y.sender.job == y.job
    requires Fares(y.sender, t, AnswersHeard(y), |Drain(Reply(y)[..y.heard + n]).frames|)
    ensures var z := y.(sender := t, heard := y.heard + n); Succeeded(z) || (OnTrack(w, z) && Rank(z) < Rank(y))
  {
    hide Drain, Serving.Serving, Progress.Ids, Progress.SendRank, Serving.AnswerRank;
    LongerKeepsTaken(y.sender, t, y.read);
    if t.active {
      ServingGrows(w, y.job, y.sender.client.offeredId, t.client.offeredId, y.sender.client.sent, t.client.sent, y.server,
                   y.me, Taken(y));
    }
  }

  /* ---------------------------------------------------------------- every step counts */

  lemma GoodStep(w: World, initial: map<Server.Name, Bytes>, y: System, e: Event)
    requires Faithful(w) && Sending.SmallControl(w) && CanTalk(w, y.job)
    requires Inv(w, initial, y) && OnTrack(w, y) && Good(y, e)
    ensures var z := Apply(w, y, e);
      Inv(w, initial, z) && ((OnTrack(w, z) && Rank(z) < Rank(y)) || (Succeeded(z) && e.ToSender?))
  {
    hide Inv, OnTrack, Apply, Rank, Succeeded, CanTalk, Sending.SmallControl;
    GoodIsEnabled(y, e);
    TransferSystem.InvStep(w, initial, y, e);
    match e
    case AtSender(c) => SenderStepOnTrack(w, initial, y, c);
    case AtServer(v) => FlushStepOnTrack(w, initial, y, v);
    case ToServer(n, ios) => ToServerStaysOnTrack(w, initial, y, n, ios);
    case ToSender(n, ios) => ToSenderStaysOnTrack(w, initial, y, n, ios);
  }

  lemma GoodIsEnabled(y: System, e: Event)
    requires Good(y, e)
    ensures Enabled(y, e) && y.sender.active
  {}

  /** The bytes still to be heard are part of what is to be done, and nothing to be done is negative. */
  lemma RankBound(w: World, initial: map<Server.Name, Bytes>, y: System)
    requires Inv(w, initial, y) && OnTrack(w, y)
    ensures Rank(y) >= 2 * (|Reply(y)| - y.heard) >= 0
  {
    hide Sending.Inv, Receiving.Inv, Honest.Follows, Drain, Progress.Ids, Sending.Script, Progress.ScriptLength,
      Serving.AnswersTo;
    OfInv(w, initial, y);
    OfSender(w, y.sender);
    ScriptIsOpen(w, y.job, y.sender.client.offeredId, y.sender.client.sent);
    hide Inv;
    assert |Link(y).sent| <= 3;
    var c := y.sender.client;
    assert Progress.FRAME_COST * (Progress.ScriptLength(y.job) - |c.sent|) >= 0;
  }

  lemma SuccessIsTheEnd(w: World, initial: map<Server.Name, Bytes>, y: System)
    requires Inv(w, initial, y) && Succeeded(y)
    ensures !y.sender.active
  {
    OfInv(w, initial, y);
    hide Inv;
    OfSender(w, y.sender);
  }

  /** However a run without failures goes, it has used up rank, or it has succeeded. */
  lemma {:induction false} GoodRunOnTrack(w: World, initial: map<Server.Name, Bytes>, y: System, es: seq<Event>)
    requires Faithful(w) && Sending.SmallControl(w) && CanTalk(w, y.job)
    requires Inv(w, initial, y) && OnTrack(w, y) && GoodRun(w, y, es)
    ensures var z := After(w, y, es);
      Inv(w, initial, z) && |es| <= Rank(y) && (Succeeded(z) || OnTrack(w, z))
    decreases |es|
  {
    hide Inv, OnTrack, Apply, Rank, Succeeded, CanTalk, Sending.SmallControl, Good;
    RankBound(w, initial, y);
    if es != [] {
      var z := Apply(w, y, es[0]);
      GoodStep(w, initial, y, es[0]);
      FixedStep(w, y, es[0]);
      if OnTrack(w, z) && Rank(z) < Rank(y) {
        GoodRunOnTrack(w, initial, z, es[1..]);
      } else {
        SuccessIsTheEnd(w, initial, z);
        if es[1..] != [] {
          GoodIsEnabled(z, es[1..][0]);
        }
        GoodHearing(y, es[0].n, es[0].senderIos);
      }
    }
  }

  /* ---------------------------------------------------------------- something can always be done */

  const GOOD_IO := Client.Io(1, true, true, false, SOME_ID)
  const GOOD_SERVER_IO :=
    Server.Io(true, false, true, MAX_PAYLOAD_SIZE, true, true, 0, 1, false)

  function ServerIos(n: nat): (ios: seq<Server.Io>)
    ensures Serving.ReliableAll(ios, n)
  {
    seq(n, _ => GOOD_SERVER_IO)
  }

  /** Some step is good as long as the send goes on. */
  lemma SomethingIsGood(w: World, initial: map<Server.Name, Bytes>, y: System)
    requires Inv(w, initial, y) && OnTrack(w, y)
    ensures exists e :: Good(y, e)
  {
    hide Sending.Inv, Receiving.Inv, Honest.Follows, Drain, Progress.Ids, Serving.AnswersTo;
    OfInv(w, initial, y);
    var c := y.sender.client;
    assert IsLowerHex(SOME_ID, TRANSFER_ID_LENGTH);
    if y.read < c.drained {
      assert Good(y, ToServer(1, ServerIos(Progress.ScriptLength(y.job))));
    } else if c.drained < |c.wire| {
      assert Good(y, AtSender(Client.Drained(1)));
    } else if c.flushScheduled {
      assert Good(y, AtSender(Client.FlushFires(GOOD_IO)));
    } else if c.pumpScheduled {
      assert Good(y, AtSender(Client.PumpFires(GOOD_IO)));
    } else if y.heard < |Reply(y)| {
      assert Good(y, ToSender(1, [GOOD_IO]));
    } else if Link(y).flushScheduled {
      assert Good(y, AtServer(Server.FlushFires(y.me, true, GOOD_SERVER_IO)));
    } else {
      AllQuiet(w, initial, y);
      if c.state == Client.Connecting {
        assert Good(y, AtSender(Client.Connected(GOOD_IO)));
      } else {
        assert Good(y, AtSender(Client.HashDone(true, GOOD_IO)));
      }
    }
  }

  /** With nothing under way the sender has yet to connect or to hash its file. */
  lemma AllQuiet(w: World, initial: map<Server.Name, Bytes>, y: System)
    requires Inv(w, initial, y) && OnTrack(w, y)
    requires var c := y.sender.client;
      y.read == |c.wire| == c.drained && !c.flushScheduled && !c.pumpScheduled
    requires y.heard == |Reply(y)| && !Link(y).flushScheduled
    ensures var c := y.sender.client;
      (c.state == Client.Connecting && !c.connected) || (c.state == Client.Offering && c.hashing.Some?)
  {
    hide Sending.Inv, Receiving.Inv, Honest.Follows, Drain, Progress.Ids, Serving.AnswersTo;
    OfInv(w, initial, y);
    NothingUnderWay(w, y.sender);
    QuietLink(w, initial, y);
    hide Inv;
    WholeStreamTaken(w, y.sender.client.sent, Stream(y));
    WholeStreamTaken(w, Link(y).sent, Reply(y));
    StateOfScript(w, y.sender);
    if y.sender.client.state == Client.Finishing {
      FinishedIsDone(w, y.sender);
    }
  }

  /** A sender with nothing to flush, to pump or to drain. */
  lemma NothingUnderWay(w: World, s: Client.Sender)
    requires Sending.Inv(w, s) && s.active && !s.client.flushScheduled && !s.client.pumpScheduled
    requires s.client.drained == |s.client.wire|
    ensures s.client.wire == LayoutAll(s.client.sent) && s.client.state != Client.Sending
    ensures s.client.state == Client.Connecting ==> !s.client.connected
    ensures s.client.state == Client.Offering && !s.client.fileOpen ==> s.client.hashing.Some?
    ensures forall f :: f in s.client.sent ==> Encodable(f)
  {
    LiveStream(w, s);
    OfSender(w, s);
    hide Sending.Core, Sending.ChunksOnly, LayoutAll;
  }

  lemma QuietLink(w: World, initial: map<Server.Name, Bytes>, y: System)
    requires Inv(w, initial, y) && Server.IsOpen(y.server, y.me) && !Link(y).flushScheduled
    ensures Reply(y) == LayoutAll(Link(y).sent) && forall f :: f in Link(y).sent ==> Encodable(f)
  {
    OfInv(w, initial, y);
    hide Inv;
    assert Receiving.StreamSound(Link(y));
  }

  lemma WholeStreamTaken(w: World, sent: seq<Frame>, stream: Bytes)
    requires stream == LayoutAll(sent) && forall f :: f in sent ==> Encodable(f)
    ensures Drain(stream[..|stream|]).frames == sent
  {
    hide Drain, LayoutAll, Encodable;
    DrainOfPrefix(sent, stream);
    assert stream[..|stream|] == stream;
  }

  lemma FinishedIsDone(w: World, s: Client.Sender)
    requires Sending.Inv(w, s) && s.active && s.client.state == Client.Finishing
    ensures Serving.Done(s.job, |s.client.sent|)
  {
    hide Sending.Core, Sending.ChunksOnly;
  }

  /* ---------------------------------------------------------------- the theorem */

  /** The server has no transfer and no file of that name, and has just accepted the connection. */
  lemma StartOnTrack(w: World, initial: map<Server.Name, Bytes>, y: System, before: Client.Sender)
    requires Starting(w, initial, y, before) && y.server.active.None? && y.job.fileName !in y.server.files
    ensures OnTrack(w, y) && Rank(y) <= Bound(y.job)
  {
    hide Sending.Inv, Receiving.Inv, Drain, Progress.ScriptLength;
    NothingDrained();
    assert Stream(y)[..0] == [] && Reply(y)[..0] == [];
  }

  /** How many steps a transfer of the file can take. */
  function Bound(job: Client.Job): nat {
    Progress.FRAME_COST * Progress.ScriptLength(job) + 3 * (3 * ReliableReceiver.ANSWER_LIMIT + 2)
  }

  lemma {:induction false} GoodIsLegal(w: World, y: System, es: seq<Event>)
    requires GoodRun(w, y, es)
    ensures Legal(w, y, es)
    decreases |es|
  {
    hide Good, Apply, Enabled;
    if es != [] {
      GoodIsEnabled(y, es[0]);
      GoodIsLegal(w, Apply(w, y, es[0]), es[1..]);
    }
  }

  /**
   Without failures and with nothing else for the receiver to do, a send is over after a bounded number
   of steps, whatever their order, and if no further step is possible it has succeeded: the source is
   there under its name.
   */
  lemma SendEndsDelivered(w: World, initial: map<Server.Name, Bytes>, y: System, before: Client.Sender, es: seq<Event>)
    requires Faithful(w) && Sending.SmallControl(w) && CanTalk(w, y.job)
    requires Starting(w, initial, y, before) && y.server.active.None? && y.job.fileName !in y.server.files
    requires GoodRun(w, y, es)
    ensures |es| <= Bound(y.job)
    ensures var z := After(w, y, es);
      && ((forall e :: !Good(z, e)) <==> Succeeded(z))
      && (Succeeded(z) ==> SourceArrived(z))
  {
    hide Inv, OnTrack, Good, Succeeded, Starting, Rank, Bound, CanTalk, Sending.SmallControl, SourceArrived, Legal, After,
      GoodRun;
    StartInv(w, initial, y, before);
    StartOnTrack(w, initial, y, before);
    GoodRunOnTrack(w, initial, y, es);
    GoodIsLegal(w, y, es);
    EndToEnd(w, initial, y, before, es);
    var z := After(w, y, es);
    if Succeeded(z) {
      SuccessIsTheEnd(w, initial, z);
      forall e ensures !Good(z, e) {
        if Good(z, e) {
          GoodIsEnabled(z, e);
          assert false;
        }
      }
    } else {
      SomethingIsGood(w, initial, z);
    }
  }
}
