/**
 A reliable receiving end that has nothing else to do answers every frame of an honest sender: the hello
 and the offer with what the sender waits for, and the finish with the news that the file is there.
 */
module ReceiverProgress {
  import opened Bytes
  import opened ChunkCodec
  import opened FrameCodec
  import opened Messages
  import opened Results
  import opened TransferServer
  import opened ReceiverInvariant
  import opened ReliableReceiver
  import Client = TransferClient
  import Sending = SenderInvariant
  import Honest = HonestReceiver

  /** So many frames of the script are all of it, the finish included. */
  predicate Done(job: Client.Job, j: nat) {
    j >= 3 && (j - 3) * Client.CHUNK_SIZE >= |job.source|
  }

  function AnswersDue(job: Client.Job, j: nat): nat {
    if j < 2 then j else if Done(job, j) then 3 else 2
  }

  /** The frame answers the other one with this message. */
  predicate AnswersTo(w: World, f: Frame, m: Message, to: Frame) {
    f.kind == KindOf(m) && f.requestId == to.requestId && Decode(w, f) == Success(m)
  }

  /** The receiving end can say what an honest sender waits for. */
  predicate CanAnswer(w: World, id: Bytes) {
    Sayable(w, HelloAck) && Sayable(w, Accept(id)) && Sayable(w, FileResult(id, true, NO_ERROR))
  }

  /** What has been answered after j frames of the script. */
  predicate Answers(w: World, job: Client.Job, id: Bytes, sent: seq<Frame>, answers: seq<Frame>, j: nat)
    requires j <= |sent|
  {
    && |answers| == AnswersDue(job, j)
    && (j >= 1 ==> AnswersTo(w, answers[0], HelloAck, sent[0]))
    && (j >= 2 ==> AnswersTo(w, answers[1], Accept(id), sent[1]))
    && (Done(job, j) ==> AnswersTo(w, answers[2], FileResult(id, true, NO_ERROR), sent[j - 1]))
  }

  /** Connection me is being served: j frames of its script have been taken and answered. */
  predicate Serving(w: World, job: Client.Job, id: Bytes, sent: seq<Frame>, s: Server, me: Socket, j: nat)
    requires j <= |sent|
  {
    && IsOpen(s, me) && !ConnectionOf(s, me).disconnectAfterWrite
    && Answers(w, job, id, sent, ConnectionOf(s, me).sent, j)
    && (if j < 2 then s.active.None? && job.fileName !in s.files else if Done(job, j) then s.active.None? else Owns(s, me))
  }

  /** What a connection may still cost: answers to come, and the bytes of those under way. */
  function AnswerRank(conn: Connection): int {
    (3 * ANSWER_LIMIT + 2) * (3 - |conn.sent|) + 3 * |conn.remainder| + 2 * |conn.wire|
    + if conn.flushScheduled then 1 else 0
  }

  lemma AnsweredRank(w: World, conn: Connection, m: Message, requestId: uint64, io: Io)
    requires Sayable(w, m) && Reliable(io) && conn.remainder == []
    ensures AnswerRank(Answered(w, conn, m, requestId, io)) <= AnswerRank(conn)
  {
    hide Header;
  }

  lemma AnswerIsRead(w: World, conn: Connection, m: Message, to: Frame, io: Io)
    requires Faithful(w) && Sayable(w, m) && Reliable(io)
    ensures var next := Answered(w, conn, m, to.requestId, io);
      && next.sent == conn.sent + [next.sent[|conn.sent|]]
      && AnswersTo(w, next.sent[|conn.sent|], m, to)
      && next.open == conn.open && next.disconnectAfterWrite == conn.disconnectAfterWrite
  {
    hide Layout;
    DecodeWhatWasSent(w, m, to.requestId);
  }

  lemma HelloServed(w: World, job: Client.Job, id: Bytes, sent: seq<Frame>, s: Server, me: Socket, io: Io)
    requires Faithful(w) && CanAnswer(w, id) && Reliable(io) && |sent| >= 1
    requires Serving(w, job, id, sent, s, me, 0) && Honest.Follows(w, job, id, s, me, 0)
    requires ConnectionOf(s, me).remainder == [] && Sending.IsMessage(w, sent[0], Hello)
    ensures var t := DispatchFrame(w, s, me, sent[0], io);
      Serving(w, job, id, sent, t, me, 1) && AnswerRank(ConnectionOf(t, me)) <= AnswerRank(ConnectionOf(s, me))
  {
    hide DispatchFrame, Answered, AnswersTo, AnswerRank, Sayable;
    DecodeWhatWasSent(w, Hello, sent[0].requestId);
    var conn := ConnectionOf(s, me).(helloComplete := true);
    HelloIsAnswered(w, s, me, sent[0], io);
    AnsweredRank(w, conn, HelloAck, sent[0].requestId, io);
    AnswerIsRead(w, conn, HelloAck, sent[0], io);
    assert AnswerRank(conn) == AnswerRank(ConnectionOf(s, me)) by { SameRank(conn, ConnectionOf(s, me)); }
  }

  lemma SameRank(a: Connection, b: Connection)
    requires a.sent == b.sent && a.remainder == b.remainder && a.wire == b.wire && a.flushScheduled == b.flushScheduled
    ensures AnswerRank(a) == AnswerRank(b)
  {}

  lemma OfferServed(w: World, job: Client.Job, id: Bytes, sent: seq<Frame>, s: Server, me: Socket, io: Io)
    requires Faithful(w) && CanAnswer(w, id) && Reliable(io) && |sent| >= 2
    requires Serving(w, job, id, sent, s, me, 1) && Honest.Follows(w, job, id, s, me, 1)
    requires ConnectionOf(s, me).remainder == [] && Sending.IsMessage(w, sent[1], Client.OfferFor(w, job, id))
    ensures var t := DispatchFrame(w, s, me, sent[1], io);
      Serving(w, job, id, sent, t, me, 2) && AnswerRank(ConnectionOf(t, me)) <= AnswerRank(ConnectionOf(s, me))
  {
    hide DispatchFrame, Answered, AnswersTo, AnswerRank, Sayable;
    DecodeWhatWasSent(w, Client.OfferFor(w, job, id), sent[1].requestId);
    var conn := ConnectionOf(s, me);
    OfferIsAccepted(w, s, me, sent[1], io);
    AnsweredRank(w, conn, Accept(id), sent[1].requestId, io);
    AnswerIsRead(w, conn, Accept(id), sent[1], io);
  }

  /** A chunk needs no answer; the connection is as it was. */
  lemma ChunkServed(w: World, initial: map<Name, Bytes>, job: Client.Job, id: Bytes, sent: seq<Frame>, s: Server, me: Socket,
                    j: nat, io: Io)
    requires Inv(w, initial, s) && Reliable(io) && 2 <= j < |sent| && !Done(job, j)
    requires Serving(w, job, id, sent, s, me, j) && Honest.Follows(w, job, id, s, me, j)
    requires Sending.IsChunk(job, id, sent[j], j - 2)
    ensures var t := DispatchFrame(w, s, me, sent[j], io);
      Serving(w, job, id, sent, t, me, j + 1) && ConnectionOf(t, me) == ConnectionOf(s, me)
  {
    Sending.ReadLength(job.source, j - 2);
    assert Owns(s, me) && Honest.Receives(w, job, id, s.active.value, j);
    assert PartName(s.active.value.target) in s.files && s.active.value.state != Finishing by { hide Base; }
    hide Inv, DispatchFrame, AnswersTo, DecodeChunk, Client.ReadAt, Honest.Delivers;
    ChunkIsStored(w, s, me, sent[j], io);
  }

  lemma FinishServed(w: World, initial: map<Name, Bytes>, job: Client.Job, id: Bytes, sent: seq<Frame>, s: Server, me: Socket,
                     j: nat, io: Io)
    requires Faithful(w) && Inv(w, initial, s) && CanAnswer(w, id) && Reliable(io) && 2 <= j < |sent| && !Done(job, j)
    requires Serving(w, job, id, sent, s, me, j) && Honest.Follows(w, job, id, s, me, j)
    requires ConnectionOf(s, me).remainder == [] && (j - 2) * Client.CHUNK_SIZE >= |job.source|
    requires Sending.IsMessage(w, sent[j], Finish(id))
    ensures var t := DispatchFrame(w, s, me, sent[j], io);
      Serving(w, job, id, sent, t, me, j + 1) && AnswerRank(ConnectionOf(t, me)) <= AnswerRank(ConnectionOf(s, me))
  {
    DecodeWhatWasSent(w, Finish(id), sent[j].requestId);
    assert Owns(s, me) && Honest.Receives(w, job, id, s.active.value, j);
    assert job.source[..|job.source|] == job.source;
    assert s.active.value.target !in s.files && s.active.value.state != Finishing by { hide Base; }
    hide Inv, DispatchFrame, Answered, AnswersTo, AnswerRank, Sayable, Honest.Delivers, Rename;
    var conn := ConnectionOf(s, me);
    FinishPublishes(w, s, me, sent[j], io);
    RenameIsFor(s, s.active.value);
    AnsweredRank(w, conn, FileResult(id, true, NO_ERROR), sent[j].requestId, io);
    AnswerIsRead(w, conn, FileResult(id, true, NO_ERROR), sent[j], io);
  }

  /** The next frame of the script is taken and, if it calls for an answer, answered. */
  lemma FrameServed(w: World, initial: map<Name, Bytes>, job: Client.Job, id: Bytes, sent: seq<Frame>, s: Server, me: Socket,
                    j: nat, io: Io)
    requires Faithful(w) && Inv(w, initial, s) && CanAnswer(w, id) && Reliable(io) && j < |sent| && !Done(job, j)
    requires Serving(w, job, id, sent, s, me, j) && Honest.Follows(w, job, id, s, me, j)
    requires ConnectionOf(s, me).remainder == [] && Honest.FrameAt(w, job, id, sent[j], j)
    ensures var t := DispatchFrame(w, s, me, sent[j], io);
      && Serving(w, job, id, sent, t, me, j + 1) && AnswerRank(ConnectionOf(t, me)) <= AnswerRank(ConnectionOf(s, me))
      && (j >= 2 && !Done(job, j + 1) ==> ConnectionOf(t, me).remainder == [])
  {
    hide Inv, DispatchFrame, Serving, Honest.Follows, AnswerRank, CanAnswer, Sending.IsMessage;
    if j == 0 {
      HelloServed(w, job, id, sent, s, me, io);
    } else if j == 1 {
      OfferServed(w, job, id, sent, s, me, io);
    } else if Sending.IsChunk(job, id, sent[j], j - 2) {
      ChunkServed(w, initial, job, id, sent, s, me, j, io);
    } else {
      FinishServed(w, initial, job, id, sent, s, me, j, io);
    }
  }

  /** All the frames there are from place j on may come in one go. */
  predicate Paced(job: Client.Job, sent: seq<Frame>, j: nat) {
    && (j == 0 ==> |sent| <= 1) && (j == 1 ==> |sent| <= 2)
    && forall i: nat :: i < |sent| ==> !Done(job, i)
  }

  predicate ReliableAll(ios: seq<Io>, n: nat) {
    n <= |ios| && forall io :: io in ios ==> Reliable(io)
  }

  lemma {:induction false} FramesServed(w: World, initial: map<Name, Bytes>, job: Client.Job, id: Bytes, sent: seq<Frame>,
                                        s: Server, me: Socket, k: nat, n: nat, ios: seq<Io>)
    requires Faithful(w) && Inv(w, initial, s) && CanAnswer(w, id) && k + n <= |sent| && ReliableAll(ios, n)
    requires Serving(w, job, id, sent, s, me, k) && Honest.Follows(w, job, id, s, me, k) && |job.source| < Client.WORD
    requires Paced(job, sent, k) && (n > 0 ==> ConnectionOf(s, me).remainder == [])
    requires forall j: nat :: j < |sent| ==> Honest.FrameAt(w, job, id, sent[j], j)
    ensures var t := DispatchAll(w, s, me, sent[k..k + n], ios);
      && Inv(w, initial, t) && Honest.Follows(w, job, id, t, me, k + n)
      && Serving(w, job, id, sent, t, me, k + n) && AnswerRank(ConnectionOf(t, me)) <= AnswerRank(ConnectionOf(s, me))
      && (k + n < |sent| && n > 0 ==> ConnectionOf(t, me).remainder == [])
    decreases n
  {
    hide Inv, DispatchFrame, Serving, Honest.Follows, AnswerRank, CanAnswer, Honest.FrameAt, Reliable;
    if n > 0 {
      var before := sent[k..k + n - 1];
      assert sent[k..k + n][..n - 1] == before && sent[k..k + n][n - 1] == sent[k + n - 1];
      FramesServed(w, initial, job, id, sent, s, me, k, n - 1, ios);
      var t := DispatchAll(w, s, me, before, ios);
      var io := IoAt(ios, n - 1);
      assert io == ios[n - 1];
      FrameServed(w, initial, job, id, sent, t, me, k + n - 1, io);
      DispatchKeeps(w, initial, t, me, sent[k + n - 1], io);
      Honest.HonestDispatch(w, initial, job, id, t, me, sent[k + n - 1], io, k + n - 1);
    }
  }
}
