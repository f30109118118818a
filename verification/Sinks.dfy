/** Byte sinks that may accept any part of what they are offered, and the two vectored write loops over them. */
module Sinks {
  import opened Wrappers
  import opened Bytes
  import opened Frames

  const MAX_PACKET := 128 * 1024

  datatype WriteResult = Written | TooLarge | Failed

  /** The write half of a socket. Each call takes an arbitrary part of its input, takes nothing, fails, or never
      returns because its caller is dropped while it waits. `broken` records that a call failed or took nothing,
      `dropped` that one was dropped; either ends the write it belongs to. */
  class Sink {
    var written: seq<Byte>
    var broken: bool
    var dropped: bool

    predicate Stopped()
      reads this
    {
      broken || dropped
    }

    constructor ()
      ensures written == [] && !Stopped()
    {
      written, broken, dropped := [], false, false;
    }

    method WriteVectored(first: seq<Byte>, second: seq<Byte>) returns (taken: Option<nat>)
      modifies this
      ensures taken.None? ==> written == old(written)
      ensures taken.Some? ==> taken.value <= |first| + |second|
      ensures taken.Some? ==> written == old(written) + (first + second)[..taken.value]
      ensures Stopped() <==> old(Stopped()) || taken.None? || taken.value == 0
    {
      var fails: bool := *;
      if fails {
        var isDropped: bool := *;
        broken, dropped := broken || !isDropped, dropped || isDropped;
        return None;
      }
      var n: nat :| n <= |first| + |second|;
      written := written + (first + second)[..n];
      broken := broken || n == 0;
      return Some(n);
    }

    /** Repeats short writes until everything is taken; a write of nothing is an error. */
    method WriteAll(bytes: seq<Byte>) returns (ok: bool)
      modifies this
      ensures old(written) <= written <= old(written) + bytes
      ensures ok ==> written == old(written) + bytes
      ensures Stopped() <==> old(Stopped()) || !ok
    {
      var offset := 0;
      while offset < |bytes|
        invariant 0 <= offset <= |bytes| && Stopped() == old(Stopped())
        invariant written == old(written) + bytes[..offset]
      {
        var taken := WriteVectored(bytes[offset..], []);
        if taken.None? || taken.value == 0 {
          return false;
        }
        assert bytes[offset..] + [] == bytes[offset..];
        Advance(bytes, offset, taken.value);
        offset := offset + taken.value;
      }
      return true;
    }

    /** The loop shared by `write_raw_frame` and `write_raw_packet`: one vectored write carries the rest of the
        header and the body; once the header is gone the rest of the body follows. */
    method WriteHeaderThenBody(header: seq<Byte>, body: seq<Byte>) returns (ok: bool)
      modifies this
      ensures old(written) <= written <= old(written) + (header + body)
      ensures ok ==> written == old(written) + (header + body)
      ensures Stopped() <==> old(Stopped()) || !ok
    {
      ghost var all, start := header + body, written;
      var headerOffset: nat, bodyOffset: nat := 0, 0;
      ok := true;
      assert start + all[..0] == written;
      while headerOffset < |header| && ok
        invariant headerOffset <= |header| && bodyOffset <= |body|
        invariant headerOffset < |header| ==> bodyOffset == 0
        invariant headerOffset + bodyOffset <= |all| && written == start + all[..headerOffset + bodyOffset]
        invariant Stopped() <==> old(Stopped()) || !ok
        decreases |header| - headerOffset, ok
      {
        ok, headerOffset, bodyOffset := WriteStep(header, body, headerOffset, start);
      }
      Prefix(start, all, headerOffset + bodyOffset);
      if ok && bodyOffset < |body| {
        BodyIsLeft(start, header, body, bodyOffset);
        ok := WriteAll(body[bodyOffset..]);
      } else if ok {
        assert all[..headerOffset + bodyOffset] == all;
      }
    }

    /** One vectored write and the offset arithmetic after it. */
    method WriteStep(header: seq<Byte>, body: seq<Byte>, at: nat, ghost start: seq<Byte>)
        returns (ok: bool, headerOffset: nat, bodyOffset: nat)
      requires at < |header| && written == start + (header + body)[..at]
      modifies this
      ensures at <= headerOffset <= |header| && bodyOffset <= |body|
      ensures headerOffset < |header| ==> bodyOffset == 0
      ensures ok ==> at < headerOffset
      ensures Stopped() <==> old(Stopped()) || !ok
      ensures written == start + (header + body)[..headerOffset + bodyOffset]
    {
      headerOffset, bodyOffset := at, 0;
      var taken := WriteVectored(header[at..], body);
      if taken.None? || taken.value == 0 {
        return false, at, 0;
      }
      assert header[at..] + body == (header + body)[at..];
      Extend(start, header + body, at, taken.value);
      var headerLeft := |header| - at;
      if taken.value < headerLeft {
        headerOffset := at + taken.value;
      } else {
        headerOffset := |header|;
        bodyOffset := taken.value - headerLeft;
      }
      return true, headerOffset, bodyOffset;
    }

    /** `write_raw_frame`: everything or a prefix of the encoding; nothing at all when the payload is too large. */
    method WriteRawFrame(frame: Frame) returns (result: WriteResult)
      modifies this
      ensures result == TooLarge <==> |frame.payload| > MAX_PAYLOAD
      ensures result == TooLarge ==> written == old(written)
      ensures result != TooLarge ==> old(written) <= written <= old(written) + EncodeFrame(frame)
      ensures result == Written ==> written == old(written) + EncodeFrame(frame)
      ensures Stopped() <==> old(Stopped()) || result == Failed
    {
      var header := FrameHeader(frame.kind, frame.streamId, |frame.payload|);
      if header.Err? {
        return TooLarge;
      }
      var ok := WriteHeaderThenBody(header.value, frame.payload);
      return if ok then Written else Failed;
    }

    /** `write_raw_packet`: a four-byte length and the bytes. */
    method WriteRawPacket(bytes: seq<Byte>) returns (result: WriteResult)
      modifies this
      ensures result == TooLarge <==> |bytes| > MAX_PACKET
      ensures result == TooLarge ==> written == old(written)
      ensures result != TooLarge ==> old(written) <= written <= old(written) + Packet(bytes)
      ensures result == Written ==> written == old(written) + Packet(bytes)
      ensures Stopped() <==> old(Stopped()) || result == Failed
    {
      if |bytes| > MAX_PACKET {
        return TooLarge;
      }
      var ok := WriteHeaderThenBody(Be32(|bytes|), bytes);
      return if ok then Written else Failed;
    }
  }

  lemma Advance(bytes: seq<Byte>, at: nat, n: nat)
    requires at + n <= |bytes|
    ensures bytes[..at] + bytes[at..][..n] == bytes[..at + n]
  {
  }

  lemma Extend(start: seq<Byte>, all: seq<Byte>, at: nat, n: nat)
    requires at + n <= |all|
    ensures start + all[..at] + all[at..][..n] == start + all[..at + n]
  {
    assert all[at..][..n] == all[at..at + n];
    assert all[..at] + all[at..at + n] == all[..at + n];
    assert start + all[..at] + all[at..at + n] == start + (all[..at] + all[at..at + n]);
  }

  lemma Prefix(before: seq<Byte>, all: seq<Byte>, end: nat)
    requires end <= |all|
    ensures before <= before + all[..end] <= before + all
  {
  }

  lemma BodyIsLeft(start: seq<Byte>, header: seq<Byte>, body: seq<Byte>, offset: nat)
    requires offset <= |body|
    ensures start + (header + body) == start + (header + body)[..|header| + offset] + body[offset..]
  {
    assert header + body == (header + body)[..|header| + offset] + body[offset..];
  }

  function Packet(bytes: seq<Byte>): seq<Byte>
    requires |bytes| <= MAX_PACKET
  {
    Be32(|bytes|) + bytes
  }

  /** Splits a packet off the front of the input, as `read_raw_packet_into` does; `None` is end of file or a length
      above the limit. */
  function TakePacket(input: seq<Byte>): Option<(seq<Byte>, seq<Byte>)> {
    if |input| < 4 then None
    else
      var length := FromBe32(input[..4]);
      if length > MAX_PACKET || |input| < 4 + length then None
      else Some((input[4..4 + length], input[4 + length..]))
  }

  lemma PacketRoundTrip(bytes: seq<Byte>, rest: seq<Byte>)
    requires |bytes| <= MAX_PACKET
    ensures TakePacket(Packet(bytes) + rest) == Some((bytes, rest))
  {
    hide FromBe32, Be32;
    var input := Packet(bytes) + rest;
    Be32RoundTrip(|bytes|);
    assert input[..4] == Be32(|bytes|);
    assert input[4..4 + |bytes|] == bytes && input[4 + |bytes|..] == rest;
  }
}
