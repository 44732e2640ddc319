/**
 Sender and receiver joined by two byte streams that may be cut anywhere: what an honest sender sends
 arrives, is checked and is published, whatever else happens on the receiver's other connections.
 */
module TransferSystem {
  import opened Bytes
  import opened FrameCodec
  import opened Messages
  import opened Results
  import Client = TransferClient
  import Sending = SenderInvariant
  import SenderHistory
  import Server = TransferServer
  import Receiving = ReceiverInvariant
  import ServerHistory
  import Honest = HonestReceiver

  /**
   `read` counts the bytes the server has read of the client's stream and `heard` those the client has
   read of the server's; `earlier` counts the sends completed before this one.
   */
  datatype System = System(
    sender: Client.Sender, server: Server.Server, me: Server.Socket, job: Client.Job, read: nat, heard: nat, earlier: nat)

  datatype Event =
    | AtSender(e: Client.Event)
    | AtServer(s: Server.Event)
    | ToServer(n: nat, serverIos: seq<Server.Io>)
    | ToSender(n: nat, senderIos: seq<Client.Io>)

  function Stream(y: System): Bytes {
    y.sender.client.wire
  }

  function Reply(y: System): Bytes {
    Server.ConnectionOf(y.server, y.me).wire
  }

  function Piece(stream: Bytes, from: nat, n: nat): Bytes {
    if from + n <= |stream| then stream[from..from + n] else []
  }

  /** Bytes arrive only once the sending socket has let go of them; anything else may happen any time. */
  predicate Enabled(y: System, e: Event) {
    match e
    case AtSender(c) => Client.Enabled(y.sender, c) && !c.StartSend? && !c.Receive?
    case AtServer(v) => !(v.Receive? && v.c == y.me)
    case ToServer(n, _) => y.read + n <= y.sender.client.drained
    case ToSender(n, _) => y.heard + n <= |Reply(y)|
  }

  function Apply(w: World, y: System, e: Event): System {
    match e
    case AtSender(c) => y.(sender := Client.Apply(w, y.sender, c))
    case AtServer(v) => y.(server := Server.Apply(w, y.server, v))
    case ToServer(n, ios) =>
      y.(server := Server.Apply(w, y.server, Server.Receive(y.me, Piece(Stream(y), y.read, n), ios)), read := y.read + n)
    case ToSender(n, ios) =>
      y.(sender := Client.Apply(w, y.sender, Client.Receive(Piece(Reply(y), y.heard, n), ios)), heard := y.heard + n)
  }

  ghost predicate Legal(w: World, y: System, es: seq<Event>)
    decreases |es|
  {
    es == [] || (Enabled(y, es[0]) && Legal(w, Apply(w, y, es[0]), es[1..]))
  }

  function After(w: World, y: System, es: seq<Event>): System
    decreases |es|
  {
    if es == [] then y else After(w, Apply(w, y, es[0]), es[1..])
  }

  /* ---------------------------------------------------------------- the invariant */

  /** Frames the server has taken off the client's stream. */
  function Taken(y: System): nat
    requires y.read <= |Stream(y)|
  {
    |Drain(Stream(y)[..y.read]).frames|
  }

  /** The source was published under its name by this connection. */
  predicate Delivered(server: Server.Server, me: Server.Socket, job: Client.Job, id: Bytes) {
    exists p | p in server.published :: p.owner == me && Honest.Delivers(job, id, p)
  }

  /** The send of this system has been completed with success. */
  predicate Succeeded(y: System) {
    |y.sender.completions| > y.earlier && y.sender.completions[y.earlier].Success?
  }

  ghost predicate Cursors(y: System) {
    && y.me in y.server.connections
    && y.read <= y.sender.client.drained <= |Stream(y)| && y.heard <= |Reply(y)|
    && (Server.IsOpen(y.server, y.me) ==>
          Server.ConnectionOf(y.server, y.me).buffer == Drain(Stream(y)[..y.read]).rest)
    && (y.sender.active ==> y.sender.client.buffer == Drain(Reply(y)[..y.heard]).rest)
  }

  ghost predicate Outcome(y: System) {
    && y.sender.accepted == y.earlier + 1 && y.sender.job == y.job
    && (Succeeded(y) ==>
          |y.sender.client.sent| >= 3 && Delivered(y.server, y.me, y.sender.job, y.sender.client.offeredId))
  }

  ghost predicate Inv(w: World, initial: map<Server.Name, Bytes>, y: System) {
    && Sending.Inv(w, y.sender)
    && Receiving.Inv(w, initial, y.server)
    && Cursors(y)
    && Honest.Follows(w, y.sender.job, y.sender.client.offeredId, y.server, y.me, Taken(y))
    && Outcome(y)
  }

  lemma OfSender(w: World, s: Client.Sender)
    requires Sending.Inv(w, s)
    ensures |s.job.source| < Client.WORD && s.client.wire <= LayoutAll(s.client.sent) && s.client.drained <= |s.client.wire|
    ensures forall f :: f in s.client.sent ==> Encodable(f)
    ensures Sending.Script(w, s.job, s.client.offeredId, s.client.sent)
    ensures s.accepted == |s.completions| + if s.active then 1 else 0
  {
    hide Sending.Script, LayoutAll;
  }

  /** Any piece of the client's stream decodes to frames of its script, in order. */
  lemma TakenOfSent(w: World, s: Client.Sender, n: nat)
    requires Sending.Inv(w, s) && n <= |s.client.wire|
    ensures var d := Drain(s.client.wire[..n]); d.error.None? && d.frames <= s.client.sent
  {
    OfSender(w, s);
    hide Sending.Inv, Encodable, LayoutAll, Sending.Script;
    assert s.client.wire[..n] <= LayoutAll(s.client.sent);
    DrainOfPrefix(s.client.sent, s.client.wire[..n]);
  }

  /** What the server sent on the connection, as far as it has been read, decodes to frames it sent. */
  lemma HeardOfSent(w: World, initial: map<Server.Name, Bytes>, server: Server.Server, me: Server.Socket, n: nat)
    requires Receiving.Inv(w, initial, server) && me in server.connections
    requires n <= |Server.ConnectionOf(server, me).wire|
    ensures var d := Drain(Server.ConnectionOf(server, me).wire[..n]);
      d.error.None? && d.frames <= Server.ConnectionOf(server, me).sent
  {
    var conn := Server.ConnectionOf(server, me);
    assert Receiving.StreamSound(conn);
    hide Receiving.Inv, Encodable, LayoutAll;
    assert conn.wire[..n] <= LayoutAll(conn.sent);
    DrainOfPrefix(conn.sent, conn.wire[..n]);
  }

  /* ---------------------------------------------------------------- steps at the sender */

  /** Before the offer has been taken its identifier does not matter. */
  lemma IdDoesNotMatterYet(w: World, job: Client.Job, a: Bytes, b: Bytes, server: Server.Server, me: Server.Socket, k: nat)
    requires Honest.Follows(w, job, a, server, me, k) && (k >= 2 ==> a == b)
    ensures Honest.Follows(w, job, b, server, me, k)
  {
    hide Honest.Delivers;
  }

  lemma LongerKeepsTaken(s: Client.Sender, t: Client.Sender, read: nat)
    requires SenderHistory.Longer(s, t) && read <= |s.client.wire|
    ensures read <= |t.client.wire| && t.client.wire[..read] == s.client.wire[..read]
  {}

  lemma SenderKeepsFollowing(w: World, y: System, t: Client.Sender)
    requires Sending.Inv(w, y.sender) && SenderHistory.Longer(y.sender, t) && Cursors(y)
    requires Honest.Follows(w, y.sender.job, y.sender.client.offeredId, y.server, y.me, Taken(y))
    ensures var z := y.(sender := t);
      && z.read <= |Stream(z)| && Taken(z) == Taken(y)
      && Honest.Follows(w, t.job, t.client.offeredId, z.server, z.me, Taken(z))
  {
    LongerKeepsTaken(y.sender, t, y.read);
    TakenOfSent(w, y.sender, y.read);
    hide Honest.Follows, Sending.Inv, Drain;
    IdDoesNotMatterYet(w, t.job, y.sender.client.offeredId, t.client.offeredId, y.server, y.me, Taken(y));
  }

  lemma NoSuccessKeepsOutcome(y: System, t: Client.Sender)
    requires Outcome(y) && SenderHistory.Longer(y.sender, t) && SenderHistory.NoSuccess(y.sender, t)
    requires y.sender.accepted == |y.sender.completions| + if y.sender.active then 1 else 0
    requires t.accepted == |t.completions| + if t.active then 1 else 0
    ensures Outcome(y.(sender := t))
  {
    hide Delivered;
  }

  lemma SenderStepKeeps(w: World, initial: map<Server.Name, Bytes>, y: System, c: Client.Event)
    requires Faithful(w) && Sending.SmallControl(w) && Inv(w, initial, y) && Enabled(y, AtSender(c))
    ensures Inv(w, initial, Apply(w, y, AtSender(c)))
  {
    hide Sending.Inv, Receiving.Inv, Honest.Follows, Client.Apply, Client.Enabled, Drain;
    var t := Client.Apply(w, y.sender, c);
    Sending.InvStep(w, y.sender, c);
    SenderHistory.StepMoves(w, y.sender, c);
    OfSender(w, y.sender);
    OfSender(w, t);
    SenderKeepsFollowing(w, y, t);
    NoSuccessKeepsOutcome(y, t);
    LongerKeepsTaken(y.sender, t, y.read);
    hide Outcome;
  }

  /* ---------------------------------------------------------------- steps at the server */

  lemma DeliveredStays(s: Server.Server, t: Server.Server, me: Server.Socket, job: Client.Job, id: Bytes)
    requires s.published <= t.published && Delivered(s, me, job, id)
    ensures Delivered(t, me, job, id)
  {
    hide Honest.Delivers;
    var p :| p in s.published && p.owner == me && Honest.Delivers(job, id, p);
    assert p in t.published;
  }

  lemma ServerKeepsOutcome(y: System, t: Server.Server)
    requires Outcome(y) && y.server.published <= t.published
    ensures Outcome(y.(server := t))
  {
    hide Delivered;
    if Succeeded(y) {
      DeliveredStays(y.server, t, y.me, y.sender.job, y.sender.client.offeredId);
    }
  }

  lemma SteadyKeepsCursors(y: System, t: Server.Server)
    requires Cursors(y) && ServerHistory.Steady(y.server, t, y.me)
    ensures Cursors(y.(server := t))
  {
    hide Drain;
    var before, after := Reply(y), Reply(y.(server := t));
    assert after[..y.heard] == before[..y.heard];
  }

  lemma ServerStepKeeps(w: World, initial: map<Server.Name, Bytes>, y: System, v: Server.Event)
    requires Faithful(w) && Inv(w, initial, y) && Enabled(y, AtServer(v))
    ensures Inv(w, initial, Apply(w, y, AtServer(v)))
  {
    assert y.me in y.server.connections;
    hide Sending.Inv, Receiving.Inv, Honest.Follows, Server.Apply, Drain, Cursors, Outcome;
    var t := Server.Apply(w, y.server, v);
    Receiving.InvStep(w, initial, y.server, v);
    ServerHistory.EventSteady(w, y.server, v, y.me);
    Honest.EventCalm(w, y.server, v, y.me);
    Honest.CalmFollows(w, y.sender.job, y.sender.client.offeredId, y.server, t, y.me, Taken(y));
    SteadyKeepsCursors(y, t);
    ServerKeepsOutcome(y, t);
  }

  /* ---------------------------------------------------------------- bytes on their way to the server */

  lemma {:induction false} HonestAll(w: World, initial: map<Server.Name, Bytes>, job: Client.Job, id: Bytes,
                                     s: Server.Server, me: Server.Socket, frames: seq<Frame>, ios: seq<Server.Io>, k: nat)
    requires Faithful(w) && Receiving.Inv(w, initial, s) && |job.source| < Client.WORD
    requires Honest.Follows(w, job, id, s, me, k)
    requires forall i :: 0 <= i < |frames| ==> Honest.FrameAt(w, job, id, frames[i], k + i)
    ensures var t := Server.DispatchAll(w, s, me, frames, ios);
      Receiving.Inv(w, initial, t) && Honest.Follows(w, job, id, t, me, k + |frames|)
    decreases |frames|
  {
    hide Receiving.Inv, Honest.Follows, Honest.FrameAt, Server.DispatchFrame;
    if frames != [] {
      var before, last := frames[..|frames| - 1], |frames| - 1;
      var t := Server.DispatchAll(w, s, me, before, ios);
      HonestAll(w, initial, job, id, s, me, before, ios, k);
      Receiving.DispatchKeeps(w, initial, t, me, frames[last], Server.IoAt(ios, last));
      Honest.HonestDispatch(w, initial, job, id, t, me, frames[last], Server.IoAt(ios, last), k + last);
    }
  }

  lemma ScriptAt(w: World, job: Client.Job, id: Bytes, sent: seq<Frame>, j: nat)
    requires Sending.Script(w, job, id, sent) && j < |sent|
    ensures Honest.FrameAt(w, job, id, sent[j], j)
  {
    hide Sending.IsMessage, Sending.IsChunk;
    if j >= 2 {
      if Sending.ChunksOnly(job, id, sent) {
        assert Sending.Body(sent)[j - 2] == sent[j];
      } else if j < |sent| - 1 {
        assert Sending.Body(sent[..|sent| - 1])[j - 2] == sent[j];
      }
    }
  }

  /** Taking n more bytes off a stream that decodes. */
  lemma NextPiece(stream: Bytes, from: nat, n: nat)
    requires from + n <= |stream| && Drain(stream[..from]).error.None? && Drain(stream[..from + n]).error.None?
    ensures var d, e := Drain(stream[..from]), Drain(stream[..from + n]);
      var more := Drain(d.rest + Piece(stream, from, n));
      more.error.None? && e.frames == d.frames + more.frames && e.rest == more.rest
  {
    hide Drain;
    assert stream[..from + n] == stream[..from] + stream[from..from + n];
    DrainSplit(stream[..from], stream[from..from + n]);
  }

  lemma BufferFollows(w: World, initial: map<Server.Name, Bytes>, job: Client.Job, id: Bytes, s: Server.Server,
                      me: Server.Socket, k: nat, buffer: Bytes)
    requires Receiving.Inv(w, initial, s) && Honest.Follows(w, job, id, s, me, k) && Server.IsOpen(s, me)
    ensures var t := Server.WithConnection(s, me, Server.ConnectionOf(s, me).(buffer := buffer));
      Receiving.Inv(w, initial, t) && Honest.Follows(w, job, id, t, me, k)
  {
    Receiving.KnownStream(w, initial, s, me);
    Receiving.MoveKeeps(w, initial, s, me, Server.ConnectionOf(s, me).(buffer := buffer));
    hide Receiving.Inv, Honest.Receives, Honest.Delivers;
  }

  /** The stream up to a point, taken to pieces, is the script so far. */
  ghost predicate Decodes(stream: Bytes, n: nat, sent: seq<Frame>)
    requires n <= |stream|
  {
    Drain(stream[..n]).error.None? && Drain(stream[..n]).frames <= sent
  }

  lemma NextFrames(w: World, job: Client.Job, id: Bytes, sent: seq<Frame>, stream: Bytes, from: nat, n: nat)
    requires Sending.Script(w, job, id, sent) && from + n <= |stream|
    requires Decodes(stream, from, sent) && Decodes(stream, from + n, sent)
    ensures var d, e := Drain(stream[..from]), Drain(stream[..from + n]);
      var more := Drain(d.rest + Piece(stream, from, n));
      && more.error.None? && e.rest == more.rest && |e.frames| == |d.frames| + |more.frames|
      && forall i :: 0 <= i < |more.frames| ==> Honest.FrameAt(w, job, id, more.frames[i], |d.frames| + i)
  {
    hide Drain, Sending.Script, Honest.FrameAt;
    NextPiece(stream, from, n);
    var d, e := Drain(stream[..from]), Drain(stream[..from + n]);
    var more := Drain(d.rest + Piece(stream, from, n));
    forall i | 0 <= i < |more.frames| ensures Honest.FrameAt(w, job, id, more.frames[i], |d.frames| + i) {
      assert more.frames[i] == e.frames[|d.frames| + i] == sent[|d.frames| + i];
      ScriptAt(w, job, id, sent, |d.frames| + i);
    }
  }

  /** The server after a piece, its connection being open. */
  lemma OpenTakes(w: World, initial: map<Server.Name, Bytes>, job: Client.Job, id: Bytes, sent: seq<Frame>, stream: Bytes,
                  s: Server.Server, me: Server.Socket, from: nat, n: nat, ios: seq<Server.Io>)
    requires Faithful(w) && Receiving.Inv(w, initial, s) && |job.source| < Client.WORD
    requires Sending.Script(w, job, id, sent) && from + n <= |stream|
    requires Decodes(stream, from, sent) && Decodes(stream, from + n, sent)
    requires Server.IsOpen(s, me) && Server.ConnectionOf(s, me).buffer == Drain(stream[..from]).rest
    requires Honest.Follows(w, job, id, s, me, |Drain(stream[..from]).frames|)
    ensures var t := Server.HandleReadyRead(w, s, me, Piece(stream, from, n), ios);
      && Honest.Follows(w, job, id, t, me, |Drain(stream[..from + n]).frames|)
      && (exists u :: Server.ConnectionOf(u, me).buffer == Drain(stream[..from + n]).rest && u.published == s.published
                      && Server.ConnectionOf(u, me).wire == Server.ConnectionOf(s, me).wire && me in u.connections
                      && ServerHistory.Steady(u, t, me))
  {
    hide Receiving.Inv, Honest.Follows, Drain, Sending.Script, Honest.FrameAt, Server.DispatchAll, Server.RemoveConnection,
      Decodes, Piece, ServerHistory.Steady;
    NextFrames(w, job, id, sent, stream, from, n);
    var conn := Server.ConnectionOf(s, me);
    var more := Drain(conn.buffer + Piece(stream, from, n));
    var k := |Drain(stream[..from]).frames|;
    BufferFollows(w, initial, job, id, s, me, k, more.rest);
    var pushed := Server.WithConnection(s, me, conn.(buffer := more.rest));
    HonestAll(w, initial, job, id, pushed, me, more.frames, ios, k);
    ServerHistory.DispatchAllSteady(w, pushed, me, more.frames, ios, me);
  }

  /** The server after a piece, its connection being closed. */
  lemma ClosedTakes(w: World, initial: map<Server.Name, Bytes>, job: Client.Job, id: Bytes, sent: seq<Frame>, stream: Bytes,
                    s: Server.Server, me: Server.Socket, from: nat, n: nat)
    requires Receiving.Inv(w, initial, s) && from + n <= |stream|
    requires Decodes(stream, from, sent) && Decodes(stream, from + n, sent) && !Server.IsOpen(s, me)
    requires Honest.Follows(w, job, id, s, me, |Drain(stream[..from]).frames|)
    ensures Honest.Follows(w, job, id, s, me, |Drain(stream[..from + n]).frames|)
  {
    hide Receiving.Inv, Honest.Follows, Drain;
    Honest.ClosedOwnsNothing(w, initial, s, me);
    NextPiece(stream, from, n);
    Honest.LaterFollows(w, job, id, s, me, |Drain(stream[..from]).frames|, |Drain(stream[..from + n]).frames|);
  }

  lemma SenderDecodes(w: World, s: Client.Sender, n: nat)
    requires Sending.Inv(w, s) && n <= |s.client.wire|
    ensures Decodes(s.client.wire, n, s.client.sent)
  {
    hide Sending.Inv, Drain;
    TakenOfSent(w, s, n);
  }

  lemma ToServerKeeps(w: World, initial: map<Server.Name, Bytes>, y: System, n: nat, ios: seq<Server.Io>)
    requires Faithful(w) && Inv(w, initial, y) && Enabled(y, ToServer(n, ios))
    ensures Inv(w, initial, Apply(w, y, ToServer(n, ios)))
  {
    hide Sending.Inv, Receiving.Inv, Honest.Follows, Drain, Outcome, Server.HandleReadyRead, Decodes, Sending.Script,
      ServerHistory.Steady, Piece;
    OfSender(w, y.sender);
    SenderDecodes(w, y.sender, y.read);
    SenderDecodes(w, y.sender, y.read + n);
    var bytes := Piece(Stream(y), y.read, n);
    Receiving.InvStep(w, initial, y.server, Server.Receive(y.me, bytes, ios));
    var z := Apply(w, y, ToServer(n, ios));
    var job, id := y.sender.job, y.sender.client.offeredId;
    if Server.IsOpen(y.server, y.me) {
      OpenTakes(w, initial, job, id, y.sender.client.sent, Stream(y), y.server, y.me, y.read, n, ios);
      var u :| Server.ConnectionOf(u, y.me).buffer == Drain(Stream(y)[..y.read + n]).rest
        && u.published == y.server.published
        && Server.ConnectionOf(u, y.me).wire == Reply(y) && y.me in u.connections && ServerHistory.Steady(u, z.server, y.me);
      SteadyCursors(y, u, z);
      hide Cursors;
      ServerKeepsOutcome(y, z.server);
      SameOutcome(y.(server := z.server), z);
    } else {
      ClosedTakes(w, initial, job, id, y.sender.client.sent, Stream(y), y.server, y.me, y.read, n);
      ClosedIgnores(w, y.server, y.me, bytes, ios);
      SameOutcome(y, z);
    }
  }

  lemma ClosedIgnores(w: World, s: Server.Server, me: Server.Socket, bytes: Bytes, ios: seq<Server.Io>)
    requires !Server.IsOpen(s, me)
    ensures Server.HandleReadyRead(w, s, me, bytes, ios) == s
  {}

  lemma SteadyCursors(y: System, u: Server.Server, z: System)
    requires Cursors(y) && ServerHistory.Steady(u, z.server, y.me) && y.me in u.connections
    requires u.published == y.server.published && Server.ConnectionOf(u, y.me).wire == Reply(y)
    requires z.sender == y.sender && z.me == y.me && z.heard == y.heard
    requires y.read <= z.read <= y.sender.client.drained
    requires Server.ConnectionOf(u, y.me).buffer == Drain(Stream(y)[..z.read]).rest
    ensures Cursors(z) && y.server.published <= z.server.published
  {
    hide Drain;
    assert Reply(z)[..y.heard] == Reply(y)[..y.heard];
  }

  lemma SameOutcome(y: System, z: System)
    requires Outcome(y) && z.sender == y.sender && z.server == y.server && z.me == y.me && z.earlier == y.earlier && z.job == y.job
    ensures Outcome(z)
  {}

  /* ---------------------------------------------------------------- bytes on their way back */

  /** A frame of the server that confirms the transfer was sent after the publication. */
  lemma ConfirmedMeansDelivered(w: World, initial: map<Server.Name, Bytes>, server: Server.Server, me: Server.Socket,
                                t: Client.Sender, f: Frame, k: nat)
    requires Receiving.Inv(w, initial, server) && me in server.connections
    requires f in Server.ConnectionOf(server, me).sent && SenderHistory.Confirms(w, t, f)
    requires Honest.Follows(w, t.job, t.client.offeredId, server, me, k)
    ensures Delivered(server, me, t.job, t.client.offeredId)
  {
    var id := t.client.offeredId;
    assert Receiving.ReportsDone(w, f, id);
    assert Receiving.PublishedFor(server.published, me, id) by { hide Receiving.FilesSound, Receiving.StreamsSound; }
    var i :| 0 <= i < |server.published| && server.published[i].owner == me && server.published[i].transferId == id;
    assert server.published[i] in server.published;
    hide Receiving.Inv, Honest.Delivers;
  }

  /** A piece of the server's stream completes frames that it sent. */
  lemma HeardFrames(w: World, initial: map<Server.Name, Bytes>, server: Server.Server, me: Server.Socket, from: nat, n: nat)
    requires Receiving.Inv(w, initial, server) && me in server.connections
    requires from + n <= |Server.ConnectionOf(server, me).wire|
    ensures var wire := Server.ConnectionOf(server, me).wire;
      var more := Drain(Drain(wire[..from]).rest + Piece(wire, from, n));
      && more.error.None? && more.rest == Drain(wire[..from + n]).rest
      && forall f :: f in more.frames ==> f in Server.ConnectionOf(server, me).sent
  {
    hide Receiving.Inv, Drain;
    var conn := Server.ConnectionOf(server, me);
    HeardOfSent(w, initial, server, me, from);
    HeardOfSent(w, initial, server, me, from + n);
    NextPiece(conn.wire, from, n);
    var d, more := Drain(conn.wire[..from]), Drain(Drain(conn.wire[..from]).rest + Piece(conn.wire, from, n));
    forall i | 0 <= i < |more.frames| ensures more.frames[i] in conn.sent {
      assert more.frames[i] == conn.sent[|d.frames| + i];
    }
  }

  /** What the client makes of a piece of the server's stream. */
  lemma ReplyHeard(w: World, initial: map<Server.Name, Bytes>, s: Client.Sender, server: Server.Server, me: Server.Socket,
                   from: nat, n: nat, ios: seq<Client.Io>)
    requires Faithful(w) && Sending.Inv(w, s) && Receiving.Inv(w, initial, server) && me in server.connections
    requires from + n <= |Server.ConnectionOf(server, me).wire|
    requires s.active ==> s.client.buffer == Drain(Server.ConnectionOf(server, me).wire[..from]).rest
    ensures var wire := Server.ConnectionOf(server, me).wire;
      var t := Client.HandleReadyRead(w, s, Piece(wire, from, n), ios);
      && SenderHistory.Longer(s, t)
      && (t.active ==> t.client.buffer == Drain(wire[..from + n]).rest)
      && (SenderHistory.NoSuccess(s, t)
          || (s.active && exists f :: f in Server.ConnectionOf(server, me).sent && SenderHistory.Confirms(w, t, f)))
  {
    hide Receiving.Inv, Sending.Inv, Drain, Client.HandleReadyRead, SenderHistory.Confirms, Piece;
    var wire := Server.ConnectionOf(server, me).wire;
    SenderHistory.ReceiveResolves(w, s, Piece(wire, from, n), ios);
    HeardFrames(w, initial, server, me, from, n);
  }

  lemma HeardOutcome(w: World, initial: map<Server.Name, Bytes>, y: System, t: Client.Sender, k: nat)
    requires Outcome(y) && Sending.Inv(w, y.sender) && Sending.Inv(w, t) && SenderHistory.Longer(y.sender, t)
    requires Receiving.Inv(w, initial, y.server) && y.me in y.server.connections
    requires Honest.Follows(w, t.job, t.client.offeredId, y.server, y.me, k)
    requires SenderHistory.NoSuccess(y.sender, t)
      || exists f :: f in Server.ConnectionOf(y.server, y.me).sent && SenderHistory.Confirms(w, t, f)
    ensures Outcome(y.(sender := t))
  {
    hide Sending.Inv, Receiving.Inv, Honest.Follows, SenderHistory.Confirms, Outcome, Delivered;
    OfSender(w, y.sender);
    OfSender(w, t);
    if SenderHistory.NoSuccess(y.sender, t) {
      NoSuccessKeepsOutcome(y, t);
    } else {
      var f :| f in Server.ConnectionOf(y.server, y.me).sent && SenderHistory.Confirms(w, t, f);
      ConfirmedMeansDelivered(w, initial, y.server, y.me, t, f, k);
      ConfirmedOutcome(w, y, t, f);
    }
  }

  lemma ConfirmedOutcome(w: World, y: System, t: Client.Sender, f: Frame)
    requires Outcome(y) && SenderHistory.Longer(y.sender, t) && SenderHistory.Confirms(w, t, f)
    requires Delivered(y.server, y.me, t.job, t.client.offeredId)
    ensures Outcome(y.(sender := t))
  {}

  lemma ToSenderKeeps(w: World, initial: map<Server.Name, Bytes>, y: System, n: nat, ios: seq<Client.Io>)
    requires Faithful(w) && Sending.SmallControl(w) && Inv(w, initial, y) && Enabled(y, ToSender(n, ios))
    ensures Inv(w, initial, Apply(w, y, ToSender(n, ios)))
  {
    hide Sending.Inv, Receiving.Inv, Honest.Follows, Drain, Client.HandleReadyRead, SenderHistory.Confirms, Outcome, Piece,
      Delivered, SenderHistory.NoSuccess;
    var z := Apply(w, y, ToSender(n, ios));
    var t := z.sender;
    Sending.InvStep(w, y.sender, Client.Receive(Piece(Reply(y), y.heard, n), ios));
    ReplyHeard(w, initial, y.sender, y.server, y.me, y.heard, n, ios);
    SenderKeepsFollowing(w, y, t);
    LongerKeepsTaken(y.sender, t, y.read);
    OfSender(w, t);
    HeardOutcome(w, initial, y, t, Taken(z));
    SameOutcome(y.(sender := t), z);
  }

  /* ---------------------------------------------------------------- every run */

  lemma InvStep(w: World, initial: map<Server.Name, Bytes>, y: System, e: Event)
    requires Faithful(w) && Sending.SmallControl(w) && Inv(w, initial, y) && Enabled(y, e)
    ensures Inv(w, initial, Apply(w, y, e))
  {
    hide Inv, Apply, Enabled;
    match e
    case AtSender(c) => SenderStepKeeps(w, initial, y, c);
    case AtServer(v) => ServerStepKeeps(w, initial, y, v);
    case ToServer(n, ios) => ToServerKeeps(w, initial, y, n, ios);
    case ToSender(n, ios) => ToSenderKeeps(w, initial, y, n, ios);
  }

  lemma {:induction false} InvRun(w: World, initial: map<Server.Name, Bytes>, y: System, es: seq<Event>)
    requires Faithful(w) && Sending.SmallControl(w) && Inv(w, initial, y) && Legal(w, y, es)
    ensures Inv(w, initial, After(w, y, es))
    decreases |es|
  {
    hide Inv, Apply, Enabled;
    if es != [] {
      InvStep(w, initial, y, es[0]);
      InvRun(w, initial, Apply(w, y, es[0]), es[1..]);
    }
  }

  /**
   A sender that has just accepted a send and a server, in whatever state its other connections have
   left it, that has just accepted the connection.
   */
  ghost predicate Starting(w: World, initial: map<Server.Name, Bytes>, y: System, before: Client.Sender) {
    && Sending.Inv(w, before) && !before.active && |y.job.source| < Client.WORD
    && y.sender == Client.Apply(w, before, Client.StartSend(y.job)) && y.earlier == |before.completions|
    && Receiving.Inv(w, initial, y.server) && y.me in y.server.connections
    && Server.ConnectionOf(y.server, y.me) == Server.NEW_CONNECTION
    && (forall p :: p in y.server.published ==> p.owner != y.me)
    && (forall x :: x in y.server.setbacks ==> x.owner != y.me)
    && y.read == 0 && y.heard == 0
  }

  lemma NothingDrained()
    ensures Drain([]) == Drained([], [], None)
  {}

  lemma StartInv(w: World, initial: map<Server.Name, Bytes>, y: System, before: Client.Sender)
    requires Faithful(w) && Sending.SmallControl(w) && Starting(w, initial, y, before)
    ensures Inv(w, initial, y)
  {
    hide Sending.Inv, Receiving.Inv, Drain;
    Sending.StartKeeps(w, before, y.job);
    NothingDrained();
    Receiving.KnownStream(w, initial, y.server, y.me);
    OfSender(w, y.sender);
    OfSender(w, before);
  }

  lemma {:induction false} FixedParts(w: World, y: System, es: seq<Event>)
    ensures After(w, y, es).me == y.me && After(w, y, es).job == y.job && After(w, y, es).earlier == y.earlier
    decreases |es|
  {
    if es != [] {
      FixedStep(w, y, es[0]);
      hide Apply;
      FixedParts(w, Apply(w, y, es[0]), es[1..]);
    }
  }

  lemma FixedStep(w: World, y: System, e: Event)
    ensures Apply(w, y, e).me == y.me && Apply(w, y, e).job == y.job && Apply(w, y, e).earlier == y.earlier
  {
    hide Client.Apply, Server.Apply;
  }

  /** The part file of this connection's transfer holds the source up to the expected offset. */
  ghost predicate PartIsPrefix(y: System) {
    Server.Owns(y.server, y.me) ==>
      var t := y.server.active.value;
      && t.target == y.job.fileName && t.offset <= |y.job.source|
      && Server.PartName(t.target) in y.server.files
      && y.server.files[Server.PartName(t.target)] == y.job.source[..t.offset]
  }

  /** The source has been published under its name, and is still there unless the name was taken for a part file since. */
  ghost predicate SourceArrived(y: System) {
    exists k :: PublishedAt(y, k)
      && (|| Receiving.TakenAfter(y.server.taken, y.job.fileName, k)
          || (y.job.fileName in y.server.files && y.server.files[y.job.fileName] == y.job.source))
  }

  /** The k-th transfer done is that of the source under its name by this connection. */
  predicate PublishedAt(y: System, k: nat) {
    && k < |y.server.published|
    && var p := y.server.published[k]; p.owner == y.me && p.target == y.job.fileName && p.content == y.job.source
  }

  lemma PartHoldsPrefix(w: World, initial: map<Server.Name, Bytes>, y: System)
    requires Inv(w, initial, y)
    ensures PartIsPrefix(y)
  {
    assert Receiving.PartMatches(y.server) by { hide Receiving.Base; }
    hide Sending.Inv, Receiving.Inv, Cursors, Honest.Delivers;
  }

  lemma SuccessMeansArrived(w: World, initial: map<Server.Name, Bytes>, y: System)
    requires Inv(w, initial, y) && Succeeded(y)
    ensures SourceArrived(y)
  {
    assert Receiving.TargetsRemain(y.server);
    hide Sending.Inv, Cursors, Honest.Follows, Receiving.Inv;
    var p :| p in y.server.published && p.owner == y.me && Honest.Delivers(y.sender.job, y.sender.client.offeredId, p);
    var k :| 0 <= k < |y.server.published| && y.server.published[k] == p;
    assert PublishedAt(y, k);
  }

  lemma OnlyFileSystemFails(w: World, initial: map<Server.Name, Bytes>, y: System)
    requires Inv(w, initial, y)
    ensures forall x :: x in y.server.setbacks && x.owner == y.me ==> x.error.code == IoError
  {
    hide Sending.Inv, Receiving.Inv, Cursors, Honest.Delivers, Honest.Receives;
  }

  /**
   End to end: however the streams are cut, whatever the sockets accept and whatever other connections
   do, a send completed with success has published the source under its name; nothing but the
   receiver's own file system ever failed the transfer; and while it lasts its part file holds the
   source up to the expected offset.
   */
  lemma EndToEnd(w: World, initial: map<Server.Name, Bytes>, y: System, before: Client.Sender, es: seq<Event>)
    requires Faithful(w) && Sending.SmallControl(w) && Starting(w, initial, y, before) && Legal(w, y, es)
    ensures var z := After(w, y, es);
      && z.me == y.me && z.job == y.job
      && (Succeeded(z) ==> SourceArrived(z))
      && (forall x :: x in z.server.setbacks && x.owner == z.me ==> x.error.code == IoError)
      && PartIsPrefix(z)
  {
    hide Inv, Legal, After, Starting, SourceArrived, PartIsPrefix, Succeeded;
    StartInv(w, initial, y, before);
    InvRun(w, initial, y, es);
    FixedParts(w, y, es);
    var z := After(w, y, es);
    PartHoldsPrefix(w, initial, z);
    OnlyFileSystemFails(w, initial, z);
    if Succeeded(z) {
      SuccessMeansArrived(w, initial, z);
    }
  }
}
