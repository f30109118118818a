/** The wire formats in numbers: what the bytes of a header and of a packet are, not only that they read back. */
module WireFormat {
  import opened Wrappers
  import opened Bytes
  import opened Frames
  import opened Sinks

  /** The value of a byte string in base 256, most significant byte first. */
  function Value(bytes: seq<Byte>): nat
    decreases |bytes|
  {
    if bytes == [] then 0 else Value(bytes[..|bytes| - 1]) * 256 + bytes[|bytes| - 1] as int
  }

  lemma ValueOfTwo(bytes: seq<Byte>)
    requires |bytes| == 2
    ensures Value(bytes) == bytes[0] as int * 256 + bytes[1] as int == FromBe16(bytes)
  {
    assert bytes[..1][..0] == [];
    assert Value(bytes[..1]) == bytes[0];
  }

  lemma ValueOfFour(bytes: seq<Byte>)
    requires |bytes| == 4
    ensures Value(bytes) == FromBe32(bytes)
  {
    assert bytes[..3][..2] == bytes[..2];
    ValueOfTwo(bytes[..2]);
  }

  /** Big-endian integers are written and read by their value. */
  lemma BigEndian(n: U32, m: U16)
    ensures |Be32(n)| == 4 && Value(Be32(n)) == n
    ensures |Be16(m)| == 2 && Value(Be16(m)) == m
  {
    ValueOfFour(Be32(n));
    Be32RoundTrip(n);
    ValueOfTwo(Be16(m));
    Be16RoundTrip(m);
  }

  /** The kinds of session, command and control frames by their codes. */
  lemma ControlCodes()
    ensures KindCode(Hello) == 1 && KindCode(HelloAck) == 2
    ensures KindCode(ExecRequest) == 10 && KindCode(ExecStdout) == 11
    ensures KindCode(ExecStderr) == 12 && KindCode(ExecExit) == 13
    ensures KindCode(Ping) == 20 && KindCode(Pong) == 21
    ensures KindCode(StreamCancel) == 22 && KindCode(StreamWindowUpdate) == 23
    ensures KindCode(Error) == 255
  {
  }

  /** Those of files, proxies and the clipboard. */
  lemma TransferCodes()
    ensures KindCode(PushRequest) == 30 && KindCode(FileChunk) == 31 && KindCode(FileEnd) == 32
    ensures KindCode(PullRequest) == 33 && KindCode(FileMeta) == 34
    ensures KindCode(ProxyStartRequest) == 40 && KindCode(ProxyStartAck) == 41
    ensures KindCode(ClipboardGet) == 60 && KindCode(ClipboardSet) == 61
    ensures KindCode(ClipboardClear) == 62 && KindCode(ClipboardData) == 63
  {
  }

  /** Those of terminals. */
  lemma TerminalCodes()
    ensures KindCode(PtyOpen) == 50 && KindCode(PtyOpenAck) == 51 && KindCode(PtyInput) == 52
    ensures KindCode(PtyOutput) == 53 && KindCode(PtyResize) == 54 && KindCode(PtyExit) == 55
    ensures KindCode(PtyClose) == 56 && KindCode(PtyComplete) == 57 && KindCode(PtyCompleteResult) == 58
  {
  }

  lemma CodeIsRead(kind: FrameKind)
    ensures KindFromCode(KindCode(kind)) == Some(kind)
  {
  }

  lemma ReadCodeIsOwn(code: U16)
    ensures KindFromCode(code).Some? ==> KindCode(KindFromCode(code).value) == code
  {
  }

  /** No other code stands for a kind, and no kind has two. */
  lemma CodesAreExact(code: U16)
    ensures KindFromCode(code).Some? ==> KindCode(KindFromCode(code).value) == code
    ensures forall kind :: KindCode(kind) == code ==> KindFromCode(code) == Some(kind)
  {
    ReadCodeIsOwn(code);
    hide KindCode, KindFromCode;
    forall kind | KindCode(kind) == code ensures KindFromCode(code) == Some(kind) {
      CodeIsRead(kind);
    }
  }

  /** An encoded frame byte by byte: the letters SIDE, version 1.2, kind, stream and length by their values, and the
      payload. */
  lemma FrameLayout(frame: Frame)
    requires |frame.payload| <= 16777216
    ensures var bytes := EncodeFrame(frame);
            && |bytes| == 16 + |frame.payload|
            && bytes[..6] == [0x53, 0x49, 0x44, 0x45, 1, 2] && Value(bytes[6..8]) == KindCode(frame.kind)
            && Value(bytes[8..12]) == frame.streamId && Value(bytes[12..16]) == |frame.payload|
            && bytes[16..] == frame.payload
  {
    var bytes, code, length := EncodeFrame(frame), KindCode(frame.kind), |frame.payload|;
    BigEndian(frame.streamId, code);
    BigEndian(length, 0);
    hide Value, KindCode, Be16, Be32;
    assert bytes[6..8] == Be16(code) && bytes[8..12] == Be32(frame.streamId) && bytes[12..16] == Be32(length);
  }

  predicate HasMagic(bytes: seq<Byte>)
    requires |bytes| >= 16
  {
    bytes[..4] == [0x53, 0x49, 0x44, 0x45]
  }

  /** Which error a byte string is: the first that applies, from the front of the header to its end, and last the length
      of the whole. Anything else decodes to the frame that its bytes say. */
  lemma DecodeByTheBytes(bytes: seq<Byte>)
    requires |bytes| >= 16
    ensures var r, code, length := DecodeFrame(bytes), Value(bytes[6..8]), Value(bytes[12..16]);
            if !HasMagic(bytes) then r == Err(InvalidMagic)
            else if bytes[4] != 1 then r == Err(UnsupportedVersion)
            else if forall kind :: KindCode(kind) != code then r == Err(UnknownKind)
            else if length > 16777216 then r == Err(PayloadTooLarge)
            else if |bytes| != 16 + length then r == Err(InvalidLength)
            else r.Ok? && KindCode(r.value.kind) == code && r.value.streamId == Value(bytes[8..12])
                 && r.value.payload == bytes[16..]
  {
    var header := bytes[..16];
    assert header[0..4] == bytes[..4] && header[6..8] == bytes[6..8];
    assert header[8..12] == bytes[8..12] && header[12..16] == bytes[12..16];
    ValueOfTwo(bytes[6..8]);
    ValueOfFour(bytes[8..12]);
    ValueOfFour(bytes[12..16]);
    CodesAreExact(FromBe16(bytes[6..8]));
    hide Value, FromBe16, FromBe32, KindCode, KindFromCode;
  }

  lemma ShortBytesAreTruncated(bytes: seq<Byte>)
    ensures DecodeFrame(bytes) == Err(Truncated) <==> |bytes| < 16
  {
    hide KindFromCode, FromBe16, FromBe32;
  }

  /** A packet is taken off an input exactly if the input begins with one: its length in four bytes, at most 128 KiB,
      and that many bytes. */
  lemma PacketIsTakenExactly(input: seq<Byte>, packet: seq<Byte>, rest: seq<Byte>)
    ensures TakePacket(input) == Some((packet, rest))
       <==> |packet| <= 131072 && |input| >= 4 && Value(input[..4]) == |packet| && input[4..] == packet + rest
  {
    if |input| >= 4 {
      ValueOfFour(input[..4]);
      hide Value, FromBe32;
      if |packet| <= 131072 && Value(input[..4]) == |packet| && input[4..] == packet + rest {
        assert input[4..4 + |packet|] == input[4..][..|packet|] == packet;
        assert input[4 + |packet|..] == input[4..][|packet|..] == rest;
      }
      if TakePacket(input) == Some((packet, rest)) {
        assert input[4..] == input[4..4 + |packet|] + input[4 + |packet|..];
      }
    }
  }

  lemma PacketLayout(bytes: seq<Byte>)
    requires |bytes| <= 131072
    ensures |Packet(bytes)| == 4 + |bytes| && Value(Packet(bytes)[..4]) == |bytes| && Packet(bytes)[4..] == bytes
  {
    BigEndian(|bytes|, 0);
    assert Packet(bytes)[..4] == Be32(|bytes|);
  }
}
