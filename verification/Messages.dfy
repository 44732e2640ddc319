/**
 The JSON messages of a transfer as values. Their encoding and SHA-256 belong to libraries; they are
 functions of a World, and Faithful says what is taken for granted about them.
 */
module Messages {
  import opened Bytes
  import opened ChunkCodec
  import opened FrameCodec
  import opened Results

  const SHA256_LENGTH: nat := 64

  datatype Message =
    | Hello
    | HelloAck
    | Offer(transferId: Bytes, fileName: Bytes, fileSize: uint64, chunkSize: uint64, sha256: Bytes)
    | Accept(transferId: Bytes)
    | Reject(transferId: Bytes, error: Error)
    | Finish(transferId: Bytes)
    | FileResult(transferId: Bytes, ok: bool, error: Error)

  function KindOf(m: Message): MessageType {
    match m
    case Hello => HELLO
    case HelloAck => HELLO_ACK
    case Offer(_, _, _, _, _) => FILE_OFFER
    case Accept(_) => FILE_ACCEPT
    case Reject(_, _) => FILE_REJECT
    case Finish(_) => FILE_FINISH
    case FileResult(_, _, _) => FILE_RESULT
  }

  /** No separators and no two dots in a row. */
  predicate IsSafeFileName(name: Bytes) {
    && name != []
    && (forall i :: 0 <= i < |name| ==> name[i] != 47 && name[i] != 92)
    && (forall i :: 0 <= i < |name| - 1 && name[i] == 46 ==> name[i + 1] != 46)
  }

  /** What both the encoder and the decoder of a message insist on. */
  predicate Validated(m: Message) {
    match m
    case Hello => true
    case HelloAck => true
    case Offer(id, name, _, chunkSize, sha256) =>
      && IsLowerHex(id, TRANSFER_ID_LENGTH) && IsSafeFileName(name)
      && 0 < chunkSize <= MAX_DATA_SIZE && IsLowerHex(sha256, SHA256_LENGTH)
    case Accept(id) => IsLowerHex(id, TRANSFER_ID_LENGTH)
    case Reject(id, _) => IsLowerHex(id, TRANSFER_ID_LENGTH)
    case Finish(id) => IsLowerHex(id, TRANSFER_ID_LENGTH)
    case FileResult(id, _, _) => IsLowerHex(id, TRANSFER_ID_LENGTH)
  }

  datatype World = World(
    encode: Message -> Result<Bytes>,
    decode: (MessageType, Bytes) -> Result<Message>,
    sha256: Bytes -> Bytes)

  /** Messages are validated both ways and decode to what was encoded. */
  ghost predicate Faithful(w: World) {
    && (forall m :: w.encode(m).Success? ==> Validated(m) && w.decode(KindOf(m), w.encode(m).value) == Success(m))
    && (forall kind, payload :: w.decode(kind, payload).Success? ==>
          KindOf(w.decode(kind, payload).value) == kind && Validated(w.decode(kind, payload).value))
  }

  function Decode(w: World, frame: Frame): Result<Message> {
    w.decode(frame.kind, frame.payload)
  }

  function FrameOf(m: Message, requestId: uint64, payload: Bytes): Frame {
    Frame(KindOf(m), 0, requestId, payload)
  }

  lemma DecodeWhatWasSent(w: World, m: Message, requestId: uint64)
    requires Faithful(w) && w.encode(m).Success?
    ensures Validated(m) && Decode(w, FrameOf(m, requestId, w.encode(m).value)) == Success(m)
  {}

  lemma DecodedIsValid(w: World, frame: Frame)
    requires Faithful(w) && Decode(w, frame).Success?
    ensures KindOf(Decode(w, frame).value) == frame.kind && Validated(Decode(w, frame).value)
  {}
}
