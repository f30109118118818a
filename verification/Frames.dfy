/** The plain frame codec of crates/sidewire-protocol/src/frame.rs. */
module Frames {
  import opened Wrappers
  import opened Bytes

  const MAGIC: seq<Byte> := [0x53, 0x49, 0x44, 0x45]
  const PROTOCOL_MAJOR: Byte := 1
  const PROTOCOL_MINOR: Byte := 2
  const HEADER_LEN := 16
  const MAX_PAYLOAD := 16 * 1024 * 1024

  datatype FrameKind =
    | Hello | HelloAck
    | ExecRequest | ExecStdout | ExecStderr | ExecExit
    | PushRequest | FileChunk | FileEnd | PullRequest | FileMeta
    | ProxyStartRequest | ProxyStartAck
    | PtyOpen | PtyOpenAck | PtyInput | PtyOutput | PtyResize | PtyExit | PtyClose
    | PtyComplete | PtyCompleteResult
    | ClipboardGet | ClipboardSet | ClipboardClear | ClipboardData
    | Ping | Pong | StreamCancel | StreamWindowUpdate
    | Error

  datatype Frame = Frame(kind: FrameKind, streamId: U32, payload: seq<Byte>)

  datatype FrameError =
    | PayloadTooLarge | InvalidMagic | UnsupportedVersion | UnknownKind | Truncated | InvalidLength

  datatype Metadata = Metadata(kind: FrameKind, streamId: U32, length: nat)

  function KindCode(kind: FrameKind): U16 {
    match kind
    case Hello => 1 case HelloAck => 2
    case ExecRequest => 10 case ExecStdout => 11 case ExecStderr => 12 case ExecExit => 13
    case PushRequest => 30 case FileChunk => 31 case FileEnd => 32 case PullRequest => 33 case FileMeta => 34
    case ProxyStartRequest => 40 case ProxyStartAck => 41
    case PtyOpen => 50 case PtyOpenAck => 51 case PtyInput => 52 case PtyOutput => 53
    case PtyResize => 54 case PtyExit => 55 case PtyClose => 56
    case PtyComplete => 57 case PtyCompleteResult => 58
    case ClipboardGet => 60 case ClipboardSet => 61 case ClipboardClear => 62 case ClipboardData => 63
    case Ping => 20 case Pong => 21 case StreamCancel => 22 case StreamWindowUpdate => 23
    case Error => 255
  }

  function KindFromCode(code: U16): Option<FrameKind> {
    match code
    case 1 => Some(Hello) case 2 => Some(HelloAck)
    case 10 => Some(ExecRequest) case 11 => Some(ExecStdout) case 12 => Some(ExecStderr) case 13 => Some(ExecExit)
    case 30 => Some(PushRequest) case 31 => Some(FileChunk) case 32 => Some(FileEnd)
    case 33 => Some(PullRequest) case 34 => Some(FileMeta)
    case 40 => Some(ProxyStartRequest) case 41 => Some(ProxyStartAck)
    case 50 => Some(PtyOpen) case 51 => Some(PtyOpenAck) case 52 => Some(PtyInput) case 53 => Some(PtyOutput)
    case 54 => Some(PtyResize) case 55 => Some(PtyExit) case 56 => Some(PtyClose)
    case 57 => Some(PtyComplete) case 58 => Some(PtyCompleteResult)
    case 60 => Some(ClipboardGet) case 61 => Some(ClipboardSet)
    case 62 => Some(ClipboardClear) case 63 => Some(ClipboardData)
    case 20 => Some(Ping) case 21 => Some(Pong) case 22 => Some(StreamCancel) case 23 => Some(StreamWindowUpdate)
    case 255 => Some(Error)
    case _ => None
  }

  /** The sixteen header bytes: magic, version, kind, stream id, payload length. */
  function Header(kind: FrameKind, streamId: U32, length: nat): (header: seq<Byte>)
    requires length <= MAX_PAYLOAD
    ensures |header| == HEADER_LEN
  {
    MAGIC + [PROTOCOL_MAJOR, PROTOCOL_MINOR] + Be16(KindCode(kind)) + Be32(streamId) + Be32(length)
  }

  function DecodeHeader(header: seq<Byte>): Result<Metadata, FrameError>
    requires |header| == HEADER_LEN
  {
    if header[0..4] != MAGIC then Err(InvalidMagic)
    else if header[4] != PROTOCOL_MAJOR then Err(UnsupportedVersion)
    else match KindFromCode(FromBe16(header[6..8]))
      case None => Err(UnknownKind)
      case Some(kind) =>
        var length := FromBe32(header[12..16]);
        if length > MAX_PAYLOAD then Err(PayloadTooLarge)
        else Ok(Metadata(kind, FromBe32(header[8..12]), length))
  }

  function EncodeFrame(frame: Frame): (bytes: seq<Byte>)
    requires |frame.payload| <= MAX_PAYLOAD
    ensures |bytes| == HEADER_LEN + |frame.payload|
  {
    Header(frame.kind, frame.streamId, |frame.payload|) + frame.payload
  }

  function DecodeFrame(bytes: seq<Byte>): Result<Frame, FrameError> {
    if |bytes| < HEADER_LEN then Err(Truncated)
    else match DecodeHeader(bytes[..HEADER_LEN])
      case Err(error) => Err(error)
      case Ok(meta) =>
        if |bytes| != HEADER_LEN + meta.length then Err(InvalidLength)
        else Ok(Frame(meta.kind, meta.streamId, bytes[HEADER_LEN..]))
  }

  /** `frame_header` fills a zeroed array field by field; the result is the header specification. */
  method FrameHeader(kind: FrameKind, streamId: U32, length: nat) returns (result: Result<seq<Byte>, FrameError>)
    ensures result == if length > MAX_PAYLOAD then Err(PayloadTooLarge) else Ok(Header(kind, streamId, length))
  {
    if length > MAX_PAYLOAD {
      return Err(PayloadTooLarge);
    }
    var header := new Byte[HEADER_LEN](_ => 0);
    CopyInto(header, 0, MAGIC);
    CopyInto(header, 4, [PROTOCOL_MAJOR, PROTOCOL_MINOR]);
    CopyInto(header, 6, Be16(KindCode(kind)));
    CopyInto(header, 8, Be32(streamId));
    CopyInto(header, 12, Be32(length));
    assert header[..] == Header(kind, streamId, length) by {
      assert header[0..4] == MAGIC && header[4..6] == [PROTOCOL_MAJOR, PROTOCOL_MINOR];
      assert header[6..8] == Be16(KindCode(kind)) && header[8..12] == Be32(streamId);
      assert header[..] == header[0..4] + header[4..6] + header[6..8] + header[8..12] + header[12..16];
    }
    return Ok(header[..]);
  }

  method CopyInto(target: array<Byte>, at: nat, bytes: seq<Byte>)
    requires at + |bytes| <= target.Length
    modifies target
    ensures target[..] == old(target[..at]) + bytes + old(target[at + |bytes|..])
  {
    for i := 0 to |bytes|
      invariant forall k :: 0 <= k < target.Length ==>
                  target[k] == if at <= k < at + i then bytes[k - at] else old(target[k])
    {
      target[at + i] := bytes[i];
    }
  }

  lemma HeaderRoundTrip(kind: FrameKind, streamId: U32, length: nat)
    requires length <= MAX_PAYLOAD
    ensures DecodeHeader(Header(kind, streamId, length)) == Ok(Metadata(kind, streamId, length))
  {
    hide FromBe16, FromBe32, Be16, Be32;
    var header := Header(kind, streamId, length);
    assert header[0..4] == MAGIC;
    assert header[6..8] == Be16(KindCode(kind));
    assert header[8..12] == Be32(streamId);
    assert header[12..16] == Be32(length);
    Be16RoundTrip(KindCode(kind));
    Be32RoundTrip(streamId);
    Be32RoundTrip(length);
  }

  /** Decoding undoes encoding for every frame the encoder accepts. */
  lemma FrameRoundTrip(frame: Frame)
    requires |frame.payload| <= MAX_PAYLOAD
    ensures DecodeFrame(EncodeFrame(frame)) == Ok(frame)
  {
    var bytes := EncodeFrame(frame);
    HeaderRoundTrip(frame.kind, frame.streamId, |frame.payload|);
    assert bytes[..HEADER_LEN] == Header(frame.kind, frame.streamId, |frame.payload|);
    assert bytes[HEADER_LEN..] == frame.payload;
  }

  /** Encoding undoes decoding, except that the decoder accepts every minor version (byte 5). */
  lemma DecodeIsInjective(bytes: seq<Byte>)
    requires DecodeFrame(bytes).Ok?
    ensures |DecodeFrame(bytes).value.payload| <= MAX_PAYLOAD
    ensures EncodeFrame(DecodeFrame(bytes).value)[5 := bytes[5]] == bytes
  {
    hide FromBe16, FromBe32, Be16, Be32;
    var frame := DecodeFrame(bytes).value;
    var header := bytes[..HEADER_LEN];
    FromBe16RoundTrip(header[6..8]);
    FromBe32RoundTrip(header[8..12]);
    FromBe32RoundTrip(header[12..16]);
    assert KindCode(frame.kind) == FromBe16(header[6..8]);
    assert header == header[0..4] + header[4..6] + header[6..8] + header[8..12] + header[12..16];
    var again := Header(frame.kind, frame.streamId, |frame.payload|);
    assert again[5 := bytes[5]] == header;
    assert EncodeFrame(frame)[5 := bytes[5]] == again[5 := bytes[5]] + frame.payload;
  }

  /** The decoder does not look at the minor version: strings that differ there alone decode alike. */
  lemma DecodeIgnoresMinorVersion(bytes: seq<Byte>, minor: Byte)
    requires |bytes| > 5
    ensures DecodeFrame(bytes[5 := minor]) == DecodeFrame(bytes)
    ensures minor != bytes[5] ==> bytes[5 := minor] != bytes
  {
    hide FromBe16, FromBe32, KindFromCode;
    var other := bytes[5 := minor];
    if |bytes| >= HEADER_LEN {
      var header, header' := bytes[..HEADER_LEN], other[..HEADER_LEN];
      assert header'[0..4] == header[0..4] && header'[6..8] == header[6..8];
      assert header'[8..12] == header[8..12] && header'[12..16] == header[12..16];
      assert other[HEADER_LEN..] == bytes[HEADER_LEN..];
    }
  }

  /** No proper prefix of an encoded frame decodes, so a truncated frame is never mistaken for a whole one. */
  lemma PrefixDoesNotDecode(frame: Frame, length: nat)
    requires |frame.payload| <= MAX_PAYLOAD && length < HEADER_LEN + |frame.payload|
    ensures DecodeFrame(EncodeFrame(frame)[..length]).Err?
  {
    var bytes := EncodeFrame(frame);
    if length >= HEADER_LEN {
      HeaderRoundTrip(frame.kind, frame.streamId, |frame.payload|);
      assert bytes[..length][..HEADER_LEN] == Header(frame.kind, frame.streamId, |frame.payload|);
    }
  }
}
