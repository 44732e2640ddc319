/** The binary payload of a FileChunk frame: transfer id, offset, length and data. */
module ChunkCodec {
  import opened Bytes
  import opened Results
  import opened FrameCodec

  const TRANSFER_ID_LENGTH: nat := 32
  const PREFIX_SIZE: nat := TRANSFER_ID_LENGTH + 8 + 4
  const MAX_DATA_SIZE: nat := MAX_PAYLOAD_SIZE - PREFIX_SIZE

  datatype FileChunk = FileChunk(transferId: Bytes, offset: uint64, data: Bytes)

  const BAD_TRANSFER_ID := Error(InvalidArgument, "invalid transfer_id")
  const PAYLOAD_TOO_LARGE := Error(PayloadTooLarge, "file chunk payload is too large")
  const DATA_TOO_LARGE := Error(PayloadTooLarge, "file chunk data is too large")
  const TOO_SHORT := Error(InvalidArgument, "file chunk payload is too short")
  const LENGTH_MISMATCH := Error(InvalidArgument, "file chunk data_length mismatch")

  predicate IsLowerHex(text: Bytes, length: nat) {
    |text| == length && forall i :: 0 <= i < |text| ==> 48 <= text[i] <= 57 || 97 <= text[i] <= 102
  }

  function EncodeChunk(chunk: FileChunk): Result<Bytes> {
    if !IsLowerHex(chunk.transferId, TRANSFER_ID_LENGTH) then Failure(BAD_TRANSFER_ID)
    else if |chunk.data| > MAX_DATA_SIZE then Failure(PAYLOAD_TOO_LARGE)
    else Success(chunk.transferId + BigEndian(chunk.offset, 8) + BigEndian(|chunk.data|, 4) + chunk.data)
  }

  function DecodeChunk(bytes: Bytes): Result<FileChunk> {
    if |bytes| > MAX_PAYLOAD_SIZE then Failure(PAYLOAD_TOO_LARGE)
    else if |bytes| < PREFIX_SIZE then Failure(TOO_SHORT)
    else if !IsLowerHex(bytes[..32], TRANSFER_ID_LENGTH) then Failure(BAD_TRANSFER_ID)
    else
      Widths();
      var length := FromBigEndian(bytes[40..44]);
      if length > MAX_DATA_SIZE then Failure(DATA_TOO_LARGE)
      else if |bytes| != PREFIX_SIZE + length then Failure(LENGTH_MISMATCH)
      else Success(FileChunk(bytes[..32], FromBigEndian(bytes[32..40]), bytes[44..]))
  }

  /** Every accepted chunk survives the wire. */
  lemma DecodeEncode(chunk: FileChunk)
    requires EncodeChunk(chunk).Success?
    ensures DecodeChunk(EncodeChunk(chunk).value) == Success(chunk)
    ensures |EncodeChunk(chunk).value| == PREFIX_SIZE + |chunk.data| <= MAX_PAYLOAD_SIZE
  {
    Widths();
    var b := EncodeChunk(chunk).value;
    assert b[..32] == chunk.transferId;
    assert b[32..40] == BigEndian(chunk.offset, 8);
    assert b[40..44] == BigEndian(|chunk.data|, 4);
    assert b[44..] == chunk.data;
    ReadAfterWrite(chunk.offset, 8);
    ReadAfterWrite(|chunk.data|, 4);
  }

  /** Every accepted payload is the encoding of what was read from it, and of nothing else. */
  lemma EncodeDecode(bytes: Bytes)
    requires DecodeChunk(bytes).Success?
    ensures EncodeChunk(DecodeChunk(bytes).value) == Success(bytes)
  {
    Widths();
    WriteAfterRead(bytes[32..40]);
    WriteAfterRead(bytes[40..44]);
    assert bytes == bytes[..32] + bytes[32..40] + bytes[40..44] + bytes[44..];
  }

  /** The payload is the encoding of some chunk. */
  ghost predicate IsEncodedChunk(bytes: Bytes) {
    exists chunk :: EncodeChunk(chunk) == Success(bytes)
  }

  /** Decoding accepts exactly the encodings. */
  lemma DecodesEncodings(bytes: Bytes)
    ensures DecodeChunk(bytes).Success? <==> IsEncodedChunk(bytes)
  {
    hide EncodeChunk, DecodeChunk;
    if DecodeChunk(bytes).Success? {
      EncodeDecode(bytes);
    }
    if chunk :| EncodeChunk(chunk) == Success(bytes) {
      DecodeEncode(chunk);
    }
  }

  /** What is wrong with a payload that is no encoding: its size, its identifier, or the length it gives for its data. */
  function DefectOf(bytes: Bytes): Error {
    if |bytes| > MAX_PAYLOAD_SIZE then PAYLOAD_TOO_LARGE
    else if |bytes| < PREFIX_SIZE then TOO_SHORT
    else if !IsLowerHex(bytes[..TRANSFER_ID_LENGTH], TRANSFER_ID_LENGTH) then BAD_TRANSFER_ID
    else if FromBigEndian(bytes[40..44]) > MAX_DATA_SIZE then DATA_TOO_LARGE
    else LENGTH_MISMATCH
  }

  /* ---------------------------------------------------------------- the loops that do it */

  /** Push the `width` bytes of a value, most significant first, as the shifting loops do. */
  method AppendBigEndian(out: Bytes, value: nat, width: nat) returns (r: Bytes)
    ensures r == out + BigEndian(value, width)
  {
    r := out;
    var left := width;
    while left > 0
      invariant 0 <= left <= width
      invariant r == out + BigEndian(value, width)[..width - left]
    {
      left := left - 1;
      BigEndianAt(value, width, width - 1 - left);
      r := r + [value / Pow256(left) % 256];
    }
  }

  method ReadBigEndian(bytes: Bytes) returns (value: nat)
    ensures value == FromBigEndian(bytes)
  {
    value := 0;
    for i := 0 to |bytes|
      invariant value == FromBigEndian(bytes[..i])
    {
      assert bytes[..i + 1][..i] == bytes[..i];
      value := value * 256 + bytes[i];
    }
    assert bytes[..|bytes|] == bytes;
  }

  method EncodeFileChunkPayload(chunk: FileChunk) returns (r: Result<Bytes>)
    ensures r == EncodeChunk(chunk)
    ensures r.Success? <==> IsLowerHex(chunk.transferId, TRANSFER_ID_LENGTH) && |chunk.data| <= MAX_DATA_SIZE
    ensures r.Failure? ==>
      r.error == if IsLowerHex(chunk.transferId, TRANSFER_ID_LENGTH) then PAYLOAD_TOO_LARGE else BAD_TRANSFER_ID
    ensures r.Success? ==> DecodeChunk(r.value) == Success(chunk)
  {
    if !IsLowerHex(chunk.transferId, TRANSFER_ID_LENGTH) {
      return Failure(BAD_TRANSFER_ID);
    }
    if |chunk.data| > MAX_DATA_SIZE {
      return Failure(PAYLOAD_TOO_LARGE);
    }
    DecodeEncode(chunk);
    var bytes: Bytes := [];
    for i := 0 to |chunk.transferId|
      invariant bytes == chunk.transferId[..i]
    {
      bytes := bytes + [chunk.transferId[i]];
    }
    assert bytes == chunk.transferId;
    bytes := AppendBigEndian(bytes, chunk.offset, 8);
    bytes := AppendBigEndian(bytes, |chunk.data|, 4);
    return Success(bytes + chunk.data);
  }

  method DecodeFileChunkPayload(bytes: Bytes) returns (r: Result<FileChunk>)
    ensures r == DecodeChunk(bytes)
    ensures r.Success? ==> EncodeChunk(r.value) == Success(bytes)
    ensures r.Success? <==> IsEncodedChunk(bytes)
    ensures r.Failure? ==> r.error == DefectOf(bytes)
  {
    DecodesEncodings(bytes);
    if |bytes| > MAX_PAYLOAD_SIZE {
      return Failure(PAYLOAD_TOO_LARGE);
    }
    if |bytes| < PREFIX_SIZE {
      return Failure(TOO_SHORT);
    }
    var transferId: Bytes := [];
    for i := 0 to TRANSFER_ID_LENGTH
      invariant transferId == bytes[..i]
    {
      transferId := transferId + [bytes[i]];
    }
    if !IsLowerHex(transferId, TRANSFER_ID_LENGTH) {
      return Failure(BAD_TRANSFER_ID);
    }
    Widths();
    var offset := ReadBigEndian(bytes[32..40]);
    var length := ReadBigEndian(bytes[40..44]);
    if length > MAX_DATA_SIZE {
      return Failure(DATA_TOO_LARGE);
    }
    if |bytes| != PREFIX_SIZE + length {
      return Failure(LENGTH_MISMATCH);
    }
    EncodeDecode(bytes);
    return Success(FileChunk(transferId, offset, bytes[44..]));
  }
}
