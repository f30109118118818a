/** The frame writer and reader of crates/sidewire-protocol/src/security.rs, plain and over Noise. */
module SecureFrames {
  import opened Wrappers
  import opened Bytes
  import opened Frames
  import opened Sinks
  import opened Records

  const NOISE_CHUNK := 60 * 1024
  const NOISE_TAG := 16
  const MAX_NOISE_MESSAGE := 65535

  /** One direction of a Noise transport: message `n` is sealed and opened under the counter value `n`. */
  datatype Noise = Noise(seal: (nat, seq<Byte>) -> seq<Byte>, open: (nat, seq<Byte>) -> Option<seq<Byte>>)
  {
    /** An ideal ordered record channel: sealing adds the tag and only the same position opens it. */
    ghost predicate Ideal() {
      forall n: nat, p: seq<Byte> :: Opens(n, p)
    }

    ghost predicate Opens(n: nat, p: seq<Byte>) {
      |seal(n, p)| == |p| + NOISE_TAG && open(n, seal(n, p)) == Some(p)
    }
  }

  /** A connection either writes frames as they are or cuts them into sealed records. */
  datatype Mode = Plain | Secure(noise: Noise, chunk: nat)
  {
    ghost predicate Valid() {
      Secure? ==> noise.Ideal() && 1 <= chunk <= MAX_NOISE_MESSAGE - NOISE_TAG - 1
    }
  }

  /** Every record fits the writer's limit for the chunk size. */
  ghost predicate Fit(records: seq<Record>, chunk: nat) {
    forall i :: 0 <= i < |records| ==> |records[i]| <= chunk + 1
  }

  /** The packets of a list of records, sealed under consecutive counters. */
  ghost function SealAll(noise: Noise, nonce: nat, records: seq<Record>): seq<Byte>
    requires noise.Ideal() && Fit(records, MAX_NOISE_MESSAGE - NOISE_TAG - 1)
    decreases |records|
  {
    if records == [] then []
    else
      assert noise.Opens(nonce, records[0]);
      Packet(noise.seal(nonce, records[0])) + SealAll(noise, nonce + 1, records[1..])
  }

  lemma SealFirst(noise: Noise, nonce: nat, records: seq<Record>, chunk: nat)
    requires noise.Ideal() && Fit(records, chunk) && chunk <= MAX_NOISE_MESSAGE - NOISE_TAG - 1 && records != []
    ensures |noise.seal(nonce, records[0])| <= MAX_PACKET
    ensures Fit(records, MAX_NOISE_MESSAGE - NOISE_TAG - 1) && Fit(records[1..], chunk)
    ensures SealAll(noise, nonce, records)
         == Packet(noise.seal(nonce, records[0])) + SealAll(noise, nonce + 1, records[1..])
  {
    assert noise.Opens(nonce, records[0]);
  }

  /** The records of a frame at the chunk size of the connection. */
  ghost function CutFrame(mode: Mode, frame: Frame): (records: seq<Record>)
    requires mode.Valid() && |frame.payload| <= MAX_PAYLOAD
    ensures mode.Secure? ==> Fit(records, mode.chunk)
  {
    if mode.Plain? then []
    else
      CutIsFlagged(EncodeFrame(frame), mode.chunk, 0);
      Cut(EncodeFrame(frame), mode.chunk, 0)
  }

  /** How many messages a frame takes. */
  ghost function Messages(mode: Mode, frame: Frame): nat
    requires mode.Valid() && |frame.payload| <= MAX_PAYLOAD
  {
    |CutFrame(mode, frame)|
  }

  /** The bytes a frame takes on the wire when `nonce` messages went before it. */
  ghost function OnWire(mode: Mode, nonce: nat, frame: Frame): (bytes: seq<Byte>)
    requires mode.Valid() && |frame.payload| <= MAX_PAYLOAD
  {
    if mode.Plain? then EncodeFrame(frame)
    else SealAll(mode.noise, nonce, CutFrame(mode, frame))
  }

  class SecureFrameWriter {
    const mode: Mode
    const sink: Sink
    var nonce: nat

    constructor (mode: Mode, sink: Sink)
      ensures this.mode == mode && this.sink == sink && nonce == 0
    {
      this.mode, this.sink, this.nonce := mode, sink, 0;
    }

    /** `write_noise_record`: refuses oversized plaintext, seals, sends one packet. */
    method WriteNoiseRecord(plaintext: Record) returns (result: WriteResult)
      requires mode.Secure? && mode.Valid()
      modifies this`nonce, sink
      ensures result == TooLarge <==> |plaintext| > mode.chunk + 1
      ensures result == TooLarge ==> sink.written == old(sink.written) && nonce == old(nonce)
      ensures result != TooLarge ==> |mode.noise.seal(old(nonce), plaintext)| <= MAX_PACKET
      ensures result != TooLarge ==>
                var packet := Packet(mode.noise.seal(old(nonce), plaintext));
                && nonce == old(nonce) + 1
                && old(sink.written) <= sink.written <= old(sink.written) + packet
                && (result == Written ==> sink.written == old(sink.written) + packet)
      ensures sink.Stopped() <==> old(sink.Stopped()) || result == Failed
    {
      if |plaintext| > mode.chunk + 1 {
        return TooLarge;
      }
      assert mode.noise.Opens(nonce, plaintext);
      var sealed := mode.noise.seal(nonce, plaintext);
      nonce := nonce + 1;
      result := sink.WriteRawPacket(sealed);
    }

    /** Fills the scratch buffer with the flag and the next stretch of header and payload. */
    method PlainRecord(frame: Frame, header: seq<Byte>, offset: nat, chunkLen: nat) returns (plain: Record)
      requires |frame.payload| <= MAX_PAYLOAD && header == Header(frame.kind, frame.streamId, |frame.payload|)
      requires offset + chunkLen <= HEADER_LEN + |frame.payload|
      ensures var encoded := EncodeFrame(frame);
              plain == [if offset + chunkLen == |encoded| then 1 else 0] + encoded[offset..offset + chunkLen]
    {
      var payload := frame.payload;
      var flag: Byte := if offset + chunkLen == HEADER_LEN + |payload| then 1 else 0;
      plain := [flag];
      ghost var stretch := EncodeFrame(frame)[offset..offset + chunkLen];
      if offset < HEADER_LEN {
        var headerEnd := Min(offset + chunkLen, HEADER_LEN);
        plain := plain + header[offset..headerEnd];
        var payloadTake := chunkLen - (headerEnd - offset);
        assert stretch == header[offset..headerEnd] + payload[..payloadTake];
        if payloadTake > 0 {
          plain := plain + payload[..payloadTake];
        }
      } else {
        var payloadStart := offset - HEADER_LEN;
        assert stretch == payload[payloadStart..payloadStart + chunkLen];
        plain := plain + payload[payloadStart..payloadStart + chunkLen];
      }
    }

    /** Sends the record that starts at the offset, which is the first of the remaining ones. */
    method WriteNext(frame: Frame, header: seq<Byte>, offset: nat, ghost remaining: seq<Record>)
        returns (ok: bool, next: nat)
      requires mode.Secure? && mode.Valid()
      requires |frame.payload| <= MAX_PAYLOAD && header == Header(frame.kind, frame.streamId, |frame.payload|)
      requires offset < HEADER_LEN + |frame.payload|
      requires remaining == Cut(EncodeFrame(frame), mode.chunk, offset) && Fit(remaining, mode.chunk)
      modifies this`nonce, sink
      ensures offset < next <= HEADER_LEN + |frame.payload|
      ensures remaining[1..] == Cut(EncodeFrame(frame), mode.chunk, next) && Fit(remaining[1..], mode.chunk)
      ensures nonce == old(nonce) + 1
      ensures old(sink.written) <= sink.written <= old(sink.written) + SealAll(mode.noise, old(nonce), remaining)
      ensures ok ==> (sink.written + SealAll(mode.noise, nonce, remaining[1..])
                      == old(sink.written) + SealAll(mode.noise, old(nonce), remaining))
      ensures sink.Stopped() <==> old(sink.Stopped()) || !ok
    {
      var chunkLen := Min(HEADER_LEN + |frame.payload| - offset, mode.chunk);
      next := offset + chunkLen;
      var plain := PlainRecord(frame, header, offset, chunkLen);
      SealFirst(mode.noise, nonce, remaining, mode.chunk);
      assert plain == remaining[0];
      var result := WriteNoiseRecord(plain);
      ok := result == Written;
    }

    method WriteRecords(frame: Frame, header: seq<Byte>) returns (ok: bool)
      requires mode.Secure? && mode.Valid()
      requires |frame.payload| <= MAX_PAYLOAD && header == Header(frame.kind, frame.streamId, |frame.payload|)
      modifies this`nonce, sink
      ensures old(sink.written) <= sink.written
                <= old(sink.written) + SealAll(mode.noise, old(nonce), CutFrame(mode, frame))
      ensures ok ==> sink.written == old(sink.written) + SealAll(mode.noise, old(nonce), CutFrame(mode, frame))
      ensures ok ==> nonce == old(nonce) + |CutFrame(mode, frame)|
      ensures sink.Stopped() <==> old(sink.Stopped()) || !ok
    {
      var total := HEADER_LEN + |frame.payload|;
      ghost var remaining := CutFrame(mode, frame);
      ghost var all, target := |remaining|, old(sink.written) + SealAll(mode.noise, nonce, remaining);
      var offset := 0;
      while offset < total
        invariant 0 <= offset <= total
        invariant remaining == Cut(EncodeFrame(frame), mode.chunk, offset) && Fit(remaining, mode.chunk)
        invariant nonce + |remaining| == old(nonce) + all
        invariant sink.written + SealAll(mode.noise, nonce, remaining) == target
        invariant old(sink.written) <= sink.written && sink.Stopped() == old(sink.Stopped())
      {
        ok, offset := WriteNext(frame, header, offset, remaining);
        remaining := remaining[1..];
        if !ok {
          return;
        }
      }
      return true;
    }

    /** `write_raw`: on success the wire gains exactly the frame; otherwise a prefix of it, or nothing when the
        payload is too large. */
    method WriteFrame(frame: Frame) returns (result: WriteResult)
      requires mode.Valid()
      modifies this`nonce, sink
      ensures result == TooLarge <==> |frame.payload| > MAX_PAYLOAD
      ensures result == TooLarge ==> sink.written == old(sink.written) && nonce == old(nonce)
      ensures result != TooLarge ==>
                old(sink.written) <= sink.written <= old(sink.written) + OnWire(mode, old(nonce), frame)
      ensures result == Written ==>
                && sink.written == old(sink.written) + OnWire(mode, old(nonce), frame)
                && nonce == old(nonce) + Messages(mode, frame)
      ensures sink.Stopped() <==> old(sink.Stopped()) || result == Failed
    {
      if mode.Plain? {
        result := sink.WriteRawFrame(frame);
        return;
      }
      var header := FrameHeader(frame.kind, frame.streamId, |frame.payload|);
      if header.Err? {
        return TooLarge;
      }
      var ok := WriteRecords(frame, header.value);
      return if ok then Written else Failed;
    }
  }

  datatype Received = Received(frame: Frame, nonce: nat, rest: seq<Byte>)

  /** Reads records from the input until the accumulator has a frame; `None` is any error. */
  function ReadRecords(noise: Noise, nonce: nat, input: seq<Byte>, acc: Accumulator): Option<Received>
    requires |acc.header| <= HEADER_LEN
    decreases |input|
  {
    match TakePacket(input)
    case None => None
    case Some((packet, rest)) =>
      match noise.open(nonce, packet)
      case None => None
      case Some(record) =>
        match Feed(acc, record)
        case Fail => None
        case Done(frame, _) => Some(Received(frame, nonce + 1, rest))
        case More(next) => ReadRecords(noise, nonce + 1, rest, next)
  }

  /** `read_frame` of the plain codec on the input that is left; `None` is end of file or a bad header. */
  function ReadPlain(input: seq<Byte>): Option<(Frame, seq<Byte>)> {
    if |input| < HEADER_LEN then None
    else match DecodeHeader(input[..HEADER_LEN])
      case Err(_) => None
      case Ok(meta) =>
        var end := HEADER_LEN + meta.length;
        if |input| < end then None
        else Some((Frame(meta.kind, meta.streamId, input[HEADER_LEN..end]), input[end..]))
  }

  function ReadNext(mode: Mode, nonce: nat, input: seq<Byte>): Option<Received> {
    if mode.Secure? then ReadRecords(mode.noise, nonce, input, START)
    else match ReadPlain(input)
      case None => None
      case Some((frame, rest)) => Some(Received(frame, nonce, rest))
  }

  class SecureFrameReader {
    const mode: Mode
    var input: seq<Byte>
    var nonce: nat

    constructor (mode: Mode, input: seq<Byte>)
      ensures this.mode == mode && this.input == input && nonce == 0
    {
      this.mode, this.input, this.nonce := mode, input, 0;
    }

    /** Takes exactly `length` bytes, or fails at end of file. */
    method ReadExact(length: nat) returns (bytes: Option<seq<Byte>>)
      modifies this`input
      ensures |old(input)| < length ==> bytes == None && input == old(input)
      ensures |old(input)| >= length ==> bytes == Some(old(input)[..length]) && input == old(input)[length..]
    {
      if |input| < length {
        return None;
      }
      bytes := Some(input[..length]);
      input := input[length..];
    }

    method ReadRawPacket() returns (packet: Option<seq<Byte>>)
      modifies this`input
      ensures match TakePacket(old(input))
              case None => packet == None
              case Some((bytes, rest)) => packet == Some(bytes) && input == rest
    {
      var header := ReadExact(4);
      if header.None? || FromBe32(header.value) > MAX_PACKET {
        return None;
      }
      ghost var length := FromBe32(header.value);
      packet := ReadExact(FromBe32(header.value));
      assert packet.Some? ==> old(input)[4..4 + length] == packet.value && input == old(input)[4 + length..];
    }

    /** The body of the record loop: header bytes, decoded header and payload are updated in place. */
    static method FeedRecord(acc: Accumulator, record: Record) returns (progress: Progress)
      requires |acc.header| <= HEADER_LEN
      requires acc.meta.Some? <==> |acc.header| == HEADER_LEN
      ensures progress == Feed(acc, record)
      ensures progress.More? ==>
                && |progress.acc.header| <= HEADER_LEN
                && (progress.acc.meta.Some? <==> |progress.acc.header| == HEADER_LEN)
    {
      if record == [] || record[0] > 1 {
        return Fail;
      }
      var finalFlag, bytes := record[0], record[1..];
      var header, metadata, payload := acc.header, acc.meta, acc.payload;
      if |header| < HEADER_LEN {
        var take := Min(HEADER_LEN - |header|, |bytes|);
        header := header + bytes[..take];
        bytes := bytes[take..];
        if |header| == HEADER_LEN {
          var decoded := DecodeHeader(header);
          if decoded.Err? {
            return Fail;
          }
          metadata := Some(decoded.value);
        }
      }
      if metadata.Some? {
        if |payload| + |bytes| > metadata.value.length {
          return Fail;
        }
        payload := payload + bytes;
        if finalFlag == 0 && |payload| == metadata.value.length {
          return Fail;
        }
      }
      if finalFlag == 1 {
        if metadata.None? || |payload| != metadata.value.length {
          return Fail;
        }
        return Done(Frame(metadata.value.kind, metadata.value.streamId, payload), []);
      }
      return More(Accumulator(header, metadata, payload));
    }

    /** `read_frame`: one record after the other until the final flag. */
    method ReadFrame() returns (frame: Option<Frame>)
      modifies this`input, this`nonce
      ensures match ReadNext(mode, old(nonce), old(input))
              case None => frame == None
              case Some(received) =>
                frame == Some(received.frame) && nonce == received.nonce && input == received.rest
    {
      hide Feed, ReadPlain;
      if mode.Plain? {
        frame := ReadPlainFrame();
        return;
      }
      var acc := START;
      while true
        invariant |acc.header| <= HEADER_LEN && (acc.meta.Some? <==> |acc.header| == HEADER_LEN)
        invariant ReadRecords(mode.noise, nonce, input, acc) == ReadNext(mode, old(nonce), old(input))
        decreases |input|
      {
        var packet := ReadRawPacket();
        if packet.None? {
          return None;
        }
        var record := mode.noise.open(nonce, packet.value);
        if record.None? {
          return None;
        }
        nonce := nonce + 1;
        var progress := FeedRecord(acc, record.value);
        match progress
        case Fail => return None;
        case Done(done, _) => return Some(done);
        case More(next) => acc := next;
      }
    }

    method ReadPlainFrame() returns (frame: Option<Frame>)
      modifies this`input
      ensures match ReadPlain(old(input))
              case None => frame == None
              case Some((expected, rest)) => frame == Some(expected) && input == rest
    {
      var header := ReadExact(HEADER_LEN);
      if header.None? {
        return None;
      }
      var meta := DecodeHeader(header.value);
      if meta.Err? {
        return None;
      }
      var payload := ReadExact(meta.value.length);
      if payload.None? {
        return None;
      }
      assert old(input)[HEADER_LEN..HEADER_LEN + meta.value.length] == payload.value;
      assert old(input)[HEADER_LEN + meta.value.length..] == input;
      return Some(Frame(meta.value.kind, meta.value.streamId, payload.value));
    }
  }

  /** Unsealing what was sealed feeds the accumulator the same records. */
  lemma {:induction false} ReadRecordsRuns(noise: Noise, nonce: nat, records: seq<Record>, acc: Accumulator,
                                           frame: Frame, rest: seq<Byte>)
    requires noise.Ideal() && |acc.header| <= HEADER_LEN
    requires Fit(records, MAX_NOISE_MESSAGE - NOISE_TAG - 1)
    requires Run(acc, records) == Done(frame, [])
    ensures ReadRecords(noise, nonce, SealAll(noise, nonce, records) + rest, acc)
         == Some(Received(frame, nonce + |records|, rest))
    decreases |records|
  {
    hide Feed, Packet, TakePacket;
    assert noise.Opens(nonce, records[0]);
    var sealed, later := noise.seal(nonce, records[0]), SealAll(noise, nonce + 1, records[1..]);
    assert SealAll(noise, nonce, records) + rest == Packet(sealed) + (later + rest);
    PacketRoundTrip(sealed, later + rest);
    if Feed(acc, records[0]).More? {
      ReadRecordsRuns(noise, nonce + 1, records[1..], Feed(acc, records[0]).acc, frame, rest);
    } else {
      assert records[1..] == [];
      assert later + rest == rest;
    }
  }

  /** The packets of a list, one after the other. */
  ghost function Packets(packets: seq<seq<Byte>>): seq<Byte>
    requires forall i :: 0 <= i < |packets| ==> |packets[i]| <= MAX_PACKET
    decreases |packets|
  {
    if packets == [] then [] else Packet(packets[0]) + Packets(packets[1..])
  }

  /** The packets open under consecutive counters, to these records. */
  ghost predicate Open(noise: Noise, nonce: nat, packets: seq<seq<Byte>>, records: seq<Record>) {
    && |packets| == |records|
    && (forall i :: 0 <= i < |packets| ==> |packets[i]| <= MAX_PACKET)
    && forall i :: 0 <= i < |packets| ==> noise.open(nonce + i, packets[i]) == Some(records[i])
  }

  lemma OpenTail(noise: Noise, nonce: nat, packets: seq<seq<Byte>>, records: seq<Record>)
    requires Open(noise, nonce, packets, records) && packets != []
    ensures Open(noise, nonce + 1, packets[1..], records[1..])
  {
    forall i | 0 <= i < |packets| - 1
      ensures |packets[1..][i]| <= MAX_PACKET && noise.open(nonce + 1 + i, packets[1..][i]) == Some(records[1..][i])
    {
      assert nonce + 1 + i == nonce + (i + 1) && packets[1..][i] == packets[i + 1] && records[1..][i] == records[i + 1];
    }
  }

  lemma OpenCons(noise: Noise, nonce: nat, packet: seq<Byte>, record: Record, packets: seq<seq<Byte>>,
                 records: seq<Record>)
    requires Open(noise, nonce + 1, packets, records) && |packet| <= MAX_PACKET
    requires noise.open(nonce, packet) == Some(record)
    ensures Open(noise, nonce, [packet] + packets, [record] + records)
  {
    forall i | 0 <= i < |packets| ensures noise.open(nonce + (i + 1), packets[i]) == Some(records[i]) {
      assert nonce + (i + 1) == nonce + 1 + i;
    }
  }

  /** The reader returns a frame only for packets at the front of its input that open one after the other to records
      that make it; nothing is skipped and nothing is left out. */
  lemma {:induction false} ReadingIsExact(noise: Noise, nonce: nat, input: seq<Byte>, acc: Accumulator,
                                          received: Received)
    returns (packets: seq<seq<Byte>>, records: seq<Record>)
    requires |acc.header| <= HEADER_LEN && ReadRecords(noise, nonce, input, acc) == Some(received)
    ensures Open(noise, nonce, packets, records) && received.nonce == nonce + |packets|
    ensures input == Packets(packets) + received.rest
    ensures Run(acc, records) == Done(received.frame, [])
    decreases |input|
  {
    hide Feed;
    var (packet, rest) := TakePacket(input).value;
    var record := noise.open(nonce, packet).value;
    assert input == Packet(packet) + rest by { TakenPacketIsThere(input); }
    match Feed(acc, record) {
      case Done(frame, _) =>
        packets, records := [packet], [record];
        assert packets[1..] == [] && Packets(packets) == Packet(packet) + [];
        assert Packet(packet) + [] == Packet(packet);
      case More(next) =>
        var later, others := ReadingIsExact(noise, nonce + 1, rest, next, received);
        packets, records := [packet] + later, [record] + others;
        OpenCons(noise, nonce, packet, record, later, others);
        assert packets[1..] == later && records[1..] == others;
        assert Packet(packet) + (Packets(later) + received.rest) == Packet(packet) + Packets(later) + received.rest;
    }
  }

  lemma TakenPacketIsThere(input: seq<Byte>)
    requires TakePacket(input).Some?
    ensures var (packet, rest) := TakePacket(input).value; |packet| <= MAX_PACKET && input == Packet(packet) + rest
  {
    var length := FromBe32(input[..4]);
    FromBe32RoundTrip(input[..4]);
    assert input == input[..4] + input[4..4 + length] + input[4 + length..];
    hide Be32, FromBe32;
  }

  /** And for every such input it does. */
  lemma {:induction false} OpenPacketsAreRead(noise: Noise, nonce: nat, packets: seq<seq<Byte>>, records: seq<Record>,
                                              acc: Accumulator, frame: Frame, rest: seq<Byte>)
    requires |acc.header| <= HEADER_LEN && Open(noise, nonce, packets, records)
    requires Run(acc, records) == Done(frame, [])
    ensures ReadRecords(noise, nonce, Packets(packets) + rest, acc)
         == Some(Received(frame, nonce + |packets|, rest))
    decreases |packets|
  {
    hide Feed, Packet, TakePacket;
    var later := Packets(packets[1..]);
    assert Packets(packets) + rest == Packet(packets[0]) + (later + rest);
    PacketRoundTrip(packets[0], later + rest);
    assert noise.open(nonce + 0, packets[0]) == Some(records[0]);
    if Feed(acc, records[0]).More? {
      OpenTail(noise, nonce, packets, records);
      OpenPacketsAreRead(noise, nonce + 1, packets[1..], records[1..], Feed(acc, records[0]).acc, frame, rest);
    } else {
      assert records[1..] == [];
      assert later + rest == rest;
    }
  }

  /** The plain reader returns exactly the frame whose encoding, in whatever minor version, its input begins with. */
  lemma PlainReadingIsExact(input: seq<Byte>, frame: Frame, rest: seq<Byte>)
    ensures ReadPlain(input) == Some((frame, rest))
       <==> |rest| <= |input| && input[|input| - |rest|..] == rest
            && DecodeFrame(input[..|input| - |rest|]) == Ok(frame)
  {
    hide DecodeHeader;
    if |rest| <= |input| {
      var bytes := input[..|input| - |rest|];
      assert |bytes| >= HEADER_LEN ==> bytes[..HEADER_LEN] == input[..HEADER_LEN];
      assert |bytes| >= HEADER_LEN ==> bytes[HEADER_LEN..] == input[HEADER_LEN..|bytes|];
    }
  }

  lemma PlainRoundTrip(frame: Frame, rest: seq<Byte>)
    requires |frame.payload| <= MAX_PAYLOAD
    ensures ReadPlain(EncodeFrame(frame) + rest) == Some((frame, rest))
  {
    var bytes := EncodeFrame(frame);
    HeaderRoundTrip(frame.kind, frame.streamId, |frame.payload|);
    assert (bytes + rest)[..HEADER_LEN] == Header(frame.kind, frame.streamId, |frame.payload|);
    assert (bytes + rest)[HEADER_LEN..|bytes|] == frame.payload && (bytes + rest)[|bytes|..] == rest;
  }

  lemma SecureRoundTrip(mode: Mode, nonce: nat, frame: Frame, rest: seq<Byte>)
    requires mode.Valid() && mode.Secure? && |frame.payload| <= MAX_PAYLOAD
    ensures ReadRecords(mode.noise, nonce, SealAll(mode.noise, nonce, CutFrame(mode, frame)) + rest, START)
         == Some(Received(frame, nonce + |CutFrame(mode, frame)|, rest))
  {
    hide Feed, EncodeFrame;
    var records := CutFrame(mode, frame);
    assert Run(START, records) == Done(frame, []) by {
      RecordsRoundTrip(frame, mode.chunk);
    }
    ReadRecordsRuns(mode.noise, nonce, records, START, frame, rest);
  }

  /** One frame on the wire, whatever follows it, reads back as that frame and leaves what follows. */
  lemma FrameOnWireRoundTrip(mode: Mode, nonce: nat, frame: Frame, rest: seq<Byte>)
    requires mode.Valid() && |frame.payload| <= MAX_PAYLOAD
    ensures ReadNext(mode, nonce, OnWire(mode, nonce, frame) + rest)
         == Some(Received(frame, nonce + Messages(mode, frame), rest))
  {
    hide ReadPlain, EncodeFrame, ReadRecords;
    if mode.Plain? {
      PlainRoundTrip(frame, rest);
    } else {
      SecureRoundTrip(mode, nonce, frame, rest);
    }
  }

  /** At the real chunk size every record respects the writer's plaintext limit, the Noise message limit and the
      packet limit that both ends enforce. */
  lemma RecordLimits(noise: Noise, nonce: nat, frame: Frame, i: nat)
    requires noise.Ideal() && |frame.payload| <= MAX_PAYLOAD
    requires i < |Cut(EncodeFrame(frame), NOISE_CHUNK, 0)|
    ensures Secure(noise, NOISE_CHUNK).Valid()
    ensures var record := Cut(EncodeFrame(frame), NOISE_CHUNK, 0)[i];
            && 1 < |record| <= 61441 && (i + 1 < |Cut(EncodeFrame(frame), NOISE_CHUNK, 0)| ==> |record| == 61441)
            && |noise.seal(nonce + i, record)| <= 65535 <= MAX_NOISE_MESSAGE <= MAX_PACKET
  {
    CutIsFlagged(EncodeFrame(frame), NOISE_CHUNK, 0);
    assert noise.Opens(nonce + i, Cut(EncodeFrame(frame), NOISE_CHUNK, 0)[i]);
  }

  ghost predicate Sendable(frames: seq<Frame>) {
    forall i :: 0 <= i < |frames| ==> |frames[i].payload| <= MAX_PAYLOAD
  }

  /** How many messages a list of frames takes. */
  ghost function NonceAfter(mode: Mode, frames: seq<Frame>): nat
    requires mode.Valid() && Sendable(frames)
    decreases |frames|
  {
    if frames == [] then 0
    else
      var last := |frames| - 1;
      NonceAfter(mode, frames[..last]) + Messages(mode, frames[last])
  }

  /** The wire bytes of a list of frames, one after the other. */
  ghost function Wire(mode: Mode, frames: seq<Frame>): seq<Byte>
    requires mode.Valid() && Sendable(frames)
    decreases |frames|
  {
    if frames == [] then []
    else
      var last := |frames| - 1;
      Wire(mode, frames[..last]) + OnWire(mode, NonceAfter(mode, frames[..last]), frames[last])
  }

  /** Everything the reader returns from an input until its first error. */
  function ReadAll(mode: Mode, nonce: nat, input: seq<Byte>): seq<Frame>
    decreases |input|
  {
    match ReadNext(mode, nonce, input)
    case None => []
    case Some(received) =>
      ReadNextConsumes(mode, nonce, input);
      [received.frame] + ReadAll(mode, received.nonce, received.rest)
  }

  lemma {:induction false} ReadRecordsConsumes(noise: Noise, nonce: nat, input: seq<Byte>, acc: Accumulator)
    requires |acc.header| <= HEADER_LEN && ReadRecords(noise, nonce, input, acc).Some?
    ensures |ReadRecords(noise, nonce, input, acc).value.rest| < |input|
    decreases |input|
  {
    var (packet, rest) := TakePacket(input).value;
    var record := noise.open(nonce, packet).value;
    if Feed(acc, record).More? {
      ReadRecordsConsumes(noise, nonce + 1, rest, Feed(acc, record).acc);
    }
  }

  lemma ReadNextConsumes(mode: Mode, nonce: nat, input: seq<Byte>)
    requires ReadNext(mode, nonce, input).Some?
    ensures |ReadNext(mode, nonce, input).value.rest| < |input|
  {
    if mode.Secure? {
      ReadRecordsConsumes(mode.noise, nonce, input, START);
    }
  }

  lemma ReadAllStep(mode: Mode, nonce: nat, frame: Frame, rest: seq<Byte>)
    requires mode.Valid() && |frame.payload| <= MAX_PAYLOAD
    ensures ReadAll(mode, nonce, OnWire(mode, nonce, frame) + rest)
         == [frame] + ReadAll(mode, nonce + Messages(mode, frame), rest)
  {
    hide ReadNext, OnWire, Messages;
    FrameOnWireRoundTrip(mode, nonce, frame, rest);
  }

  lemma JoinReads(mode: Mode, earlier: seq<Byte>, part: seq<Byte>, rest: seq<Byte>, frames: seq<Frame>, frame: Frame,
                  nonce: nat, next: nat)
    requires ReadAll(mode, 0, earlier + (part + rest)) == frames + ReadAll(mode, nonce, part + rest)
    requires ReadAll(mode, nonce, part + rest) == [frame] + ReadAll(mode, next, rest)
    ensures ReadAll(mode, 0, (earlier + part) + rest) == (frames + [frame]) + ReadAll(mode, next, rest)
  {
    hide ReadAll;
    assert (earlier + part) + rest == earlier + (part + rest);
    assert frames + ([frame] + ReadAll(mode, next, rest)) == (frames + [frame]) + ReadAll(mode, next, rest);
  }

  /** Back-to-back frames read back as exactly that list, followed by whatever the rest of the input reads as. */
  lemma {:induction false} WireRoundTrip(mode: Mode, frames: seq<Frame>, rest: seq<Byte>)
    requires mode.Valid() && Sendable(frames)
    ensures ReadAll(mode, 0, Wire(mode, frames) + rest) == frames + ReadAll(mode, NonceAfter(mode, frames), rest)
    decreases |frames|
  {
    hide ReadNext, OnWire, Messages;
    if frames == [] {
      assert [] + rest == rest;
    } else {
      var last := |frames| - 1;
      var init, frame := frames[..last], frames[last];
      var earlier, nonce := Wire(mode, init), NonceAfter(mode, init);
      var part, next := OnWire(mode, nonce, frame), nonce + Messages(mode, frame);
      assert Wire(mode, frames) == earlier + part && NonceAfter(mode, frames) == next && frames == init + [frame];
      WireRoundTrip(mode, init, part + rest);
      ReadAllStep(mode, nonce, frame, rest);
      JoinReads(mode, earlier, part, rest, init, frame, nonce, next);
    }
  }

  /** A frame cut off before its last byte reads as nothing. */
  lemma TruncatedFrameReadsNothing(mode: Mode, nonce: nat, frame: Frame, length: nat)
    requires mode.Valid() && |frame.payload| <= MAX_PAYLOAD && length < |OnWire(mode, nonce, frame)|
    ensures ReadAll(mode, nonce, OnWire(mode, nonce, frame)[..length]) == []
  {
    hide ReadNext, OnWire, Messages;
    var whole := OnWire(mode, nonce, frame);
    var part := whole[..length];
    if ReadNext(mode, nonce, part).Some? {
      ReadNextExtends(mode, nonce, part, whole[length..]);
      assert part + whole[length..] == whole + [];
      FrameOnWireRoundTrip(mode, nonce, frame, []);
      assert false;
    }
  }

  /** What the reader makes of an input it also makes of a longer one. */
  lemma {:induction false} ReadRecordsExtends(noise: Noise, nonce: nat, input: seq<Byte>, acc: Accumulator,
                                              more: seq<Byte>)
    requires |acc.header| <= HEADER_LEN && ReadRecords(noise, nonce, input, acc).Some?
    ensures var read := ReadRecords(noise, nonce, input, acc).value;
            ReadRecords(noise, nonce, input + more, acc) == Some(read.(rest := read.rest + more))
    decreases |input|
  {
    var (packet, rest) := TakePacket(input).value;
    assert (input + more)[..4] == input[..4];
    assert TakePacket(input + more) == Some((packet, rest + more)) by {
      var length := FromBe32(input[..4]);
      assert (input + more)[4..4 + length] == packet && (input + more)[4 + length..] == rest + more;
    }
    var record := noise.open(nonce, packet).value;
    if Feed(acc, record).More? {
      ReadRecordsExtends(noise, nonce + 1, rest, Feed(acc, record).acc, more);
    }
  }

  lemma ReadNextExtends(mode: Mode, nonce: nat, input: seq<Byte>, more: seq<Byte>)
    requires ReadNext(mode, nonce, input).Some?
    ensures var read := ReadNext(mode, nonce, input).value;
            ReadNext(mode, nonce, input + more) == Some(read.(rest := read.rest + more))
  {
    if mode.Secure? {
      ReadRecordsExtends(mode.noise, nonce, input, START, more);
    } else {
      assert (input + more)[..HEADER_LEN] == input[..HEADER_LEN];
      var end := HEADER_LEN + DecodeHeader(input[..HEADER_LEN]).value.length;
      assert (input + more)[HEADER_LEN..end] == input[HEADER_LEN..end];
      assert (input + more)[end..] == input[end..] + more;
    }
  }
}
