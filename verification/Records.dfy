/** Cutting a frame into flagged records, and putting it together again record by record. */
module Records {
  import opened Wrappers
  import opened Bytes
  import opened Frames

  type Record = seq<Byte>

  /** What the reader has accumulated: header bytes, the decoded header once it is whole, payload bytes. */
  datatype Accumulator = Accumulator(header: seq<Byte>, meta: Option<Metadata>, payload: seq<Byte>)

  datatype Progress = Fail | More(acc: Accumulator) | Done(frame: Frame, unread: seq<Record>)

  const START := Accumulator([], None, [])

  function Min(a: nat, b: nat): nat { if a < b then a else b }

  /** One turn of the loop of `SecureFrameReader::read_frame`. */
  function Feed(acc: Accumulator, record: Record): (progress: Progress)
    requires |acc.header| <= HEADER_LEN
    ensures progress.More? ==> |progress.acc.header| <= HEADER_LEN
    ensures progress.Done? ==> progress.unread == []
  {
    if record == [] || record[0] > 1 then Fail
    else
      var body := record[1..];
      var take := Min(HEADER_LEN - |acc.header|, |body|);
      var header := acc.header + body[..take];
      var decoded := if |acc.header| < HEADER_LEN == |header| then Some(DecodeHeader(header)) else None;
      if decoded.Some? && decoded.value.Err? then Fail
      else
        var meta := if decoded.Some? then Some(decoded.value.value) else acc.meta;
        var rest := body[take..];
        if meta.None? then
          if record[0] == 1 then Fail else More(Accumulator(header, meta, acc.payload))
        else
          var payload := acc.payload + rest;
          var whole := |payload| == meta.value.length;
          if |payload| > meta.value.length || whole != (record[0] == 1) then Fail
          else if whole then Done(Frame(meta.value.kind, meta.value.streamId, payload), [])
          else More(Accumulator(header, meta, payload))
  }

  /** Feeds records until the frame is done or the reader fails. */
  function Run(acc: Accumulator, records: seq<Record>): Progress
    requires |acc.header| <= HEADER_LEN
    decreases |records|
  {
    if records == [] then More(acc)
    else match Feed(acc, records[0])
      case Fail => Fail
      case Done(frame, _) => Done(frame, records[1..])
      case More(next) => Run(next, records[1..])
  }

  function Body(record: Record): seq<Byte> { if record == [] then [] else record[1..] }

  function Bodies(records: seq<Record>): seq<Byte>
    decreases |records|
  {
    if records == [] then [] else Body(records[0]) + Bodies(records[1..])
  }

  ghost predicate FlagsValid(records: seq<Record>) {
    forall i :: 0 <= i < |records| ==> |records[i]| > 0 && records[i][0] <= 1
  }

  ghost predicate IsFinal(record: Record) { |record| > 0 && record[0] == 1 }

  ghost predicate EndsAtFirstFinal(records: seq<Record>) {
    && |records| > 0
    && IsFinal(records[|records| - 1])
    && forall i :: 0 <= i < |records| - 1 ==> !IsFinal(records[i])
  }

  /** The accumulator holds exactly the bytes seen so far and those are not yet a whole frame. */
  ghost predicate Holds(acc: Accumulator, bytes: seq<Byte>) {
    && acc.header == bytes[..Min(HEADER_LEN, |bytes|)]
    && if |bytes| < HEADER_LEN then acc.meta == None && acc.payload == []
       else && acc.meta.Some? && DecodeHeader(acc.header) == Ok(acc.meta.value)
            && acc.payload == bytes[HEADER_LEN..] && |acc.payload| < acc.meta.value.length
  }

  /** The header of the bytes is already bad or their length already reaches what it declares. */
  ghost predicate Overrun(bytes: seq<Byte>) {
    |bytes| >= HEADER_LEN && match DecodeHeader(bytes[..HEADER_LEN])
      case Err(_) => true
      case Ok(meta) => |bytes| - HEADER_LEN >= meta.length
  }

  lemma FeedTracksBytes(acc: Accumulator, bytes: seq<Byte>, record: Record)
    requires Holds(acc, bytes) && |record| > 0 && record[0] <= 1
    ensures var seen := bytes + Body(record);
            if record[0] == 1 then
              Feed(acc, record) == match DecodeFrame(seen) case Ok(frame) => Done(frame, []) case Err(_) => Fail
            else if Overrun(seen) then Feed(acc, record) == Fail
            else Feed(acc, record).More? && Holds(Feed(acc, record).acc, seen)
  {
    hide DecodeHeader;
    var body := Body(record);
    var seen := bytes + body;
    var take := Min(HEADER_LEN - |acc.header|, |body|);
    assert acc.header + body[..take] == seen[..Min(HEADER_LEN, |seen|)];
    if |seen| >= HEADER_LEN {
      assert acc.payload + body[take..] == seen[HEADER_LEN..];
      if |bytes| >= HEADER_LEN {
        assert seen[..HEADER_LEN] == acc.header;
      }
    }
  }

  lemma OverrunIsFinal(bytes: seq<Byte>, more: seq<Byte>)
    requires Overrun(bytes) && (more != [] || DecodeFrame(bytes).Err?)
    ensures DecodeFrame(bytes + more).Err?
  {
    assert (bytes + more)[..HEADER_LEN] == bytes[..HEADER_LEN];
    assert more == [] ==> bytes + more == bytes;
  }

  /** No record before the last already completes a frame. */
  ghost predicate NoneComplete(bytes: seq<Byte>, records: seq<Record>) {
    forall k :: 0 <= k < |records| ==> DecodeFrame(bytes + Bodies(records[..k])).Err?
  }

  lemma NoneCompleteStep(bytes: seq<Byte>, records: seq<Record>)
    requires |records| > 0
    ensures NoneComplete(bytes, records)
       <==> DecodeFrame(bytes).Err? && NoneComplete(bytes + Body(records[0]), records[1..])
  {
    hide DecodeFrame;
    var seen, later := bytes + Body(records[0]), records[1..];
    assert bytes + Bodies(records[..0]) == bytes;
    forall k | 0 <= k < |later| ensures bytes + Bodies(records[..k + 1]) == seen + Bodies(later[..k]) {
      assert records[..k + 1][1..] == later[..k];
    }
    if DecodeFrame(bytes).Err? && NoneComplete(seen, later) {
      forall k | 0 <= k < |records| ensures DecodeFrame(bytes + Bodies(records[..k])).Err? {
        if k > 0 {
          assert bytes + Bodies(records[..(k - 1) + 1]) == seen + Bodies(later[..k - 1]);
        }
      }
    }
    if NoneComplete(bytes, records) {
      forall k | 0 <= k < |later| ensures DecodeFrame(seen + Bodies(later[..k])).Err? {
        assert bytes + Bodies(records[..k + 1]) == seen + Bodies(later[..k]);
      }
    }
  }

  lemma FlagsValidStep(records: seq<Record>)
    requires |records| > 0
    ensures FlagsValid(records) <==> |records[0]| > 0 && records[0][0] <= 1 && FlagsValid(records[1..])
  {
    assert forall i :: 0 <= i < |records| - 1 ==> records[1..][i] == records[i + 1];
    assert forall i :: 0 < i < |records| ==> records[i] == records[1..][i - 1];
  }

  ghost predicate Accepts(bytes: seq<Byte>, records: seq<Record>, frame: Frame) {
    FlagsValid(records) && DecodeFrame(bytes + Bodies(records)) == Ok(frame) && NoneComplete(bytes, records)
  }

  lemma AcceptsStep(bytes: seq<Byte>, records: seq<Record>, frame: Frame)
    requires |records| > 0 && |records[0]| > 0 && records[0][0] <= 1 && DecodeFrame(bytes).Err?
    ensures Accepts(bytes, records, frame) <==> Accepts(bytes + Body(records[0]), records[1..], frame)
  {
    hide DecodeFrame;
    FlagsValidStep(records);
    NoneCompleteStep(bytes, records);
    assert bytes + Bodies(records) == bytes + Body(records[0]) + Bodies(records[1..]);
  }

  lemma HeldIsIncomplete(acc: Accumulator, bytes: seq<Byte>)
    requires Holds(acc, bytes)
    ensures DecodeFrame(bytes).Err?
  {
  }

  lemma OverrunRejects(bytes: seq<Byte>, records: seq<Record>, frame: Frame)
    requires Overrun(bytes) && |records| > 0
    ensures !Accepts(bytes, records, frame)
  {
    if DecodeFrame(bytes).Err? {
      OverrunIsFinal(bytes, Bodies(records));
    } else {
      NoneCompleteStep(bytes, records);
    }
  }

  lemma {:induction false} RunRefinesDecode(acc: Accumulator, bytes: seq<Byte>, records: seq<Record>, frame: Frame)
    requires Holds(acc, bytes) && EndsAtFirstFinal(records)
    ensures Run(acc, records) == Done(frame, []) <==> Accepts(bytes, records, frame)
    decreases |records|
  {
    hide DecodeFrame, DecodeHeader;
    var first, later := records[0], records[1..];
    if first == [] || first[0] > 1 {
      assert !FlagsValid(records);
      return;
    }
    HeldIsIncomplete(acc, bytes);
    FeedTracksBytes(acc, bytes, first);
    AcceptsStep(bytes, records, frame);
    var seen := bytes + Body(first);
    if later == [] {
      assert seen + Bodies(later) == seen;
      return;
    }
    assert EndsAtFirstFinal(later) by {
      assert later[|later| - 1] == records[|records| - 1];
      assert forall i :: 0 <= i < |later| - 1 ==> later[i] == records[i + 1];
    }
    if Overrun(seen) {
      OverrunRejects(seen, later, frame);
    } else {
      RunRefinesDecode(Feed(acc, first).acc, seen, later, frame);
    }
  }

  /** The streaming reader refines the whole-buffer decoder: on records that end at their first final flag it
      returns a frame exactly when the flags are valid, the decoder returns that frame for the joined bodies, and
      no earlier record already completed a frame. */
  lemma StreamingRefinesWholeBuffer(records: seq<Record>, frame: Frame)
    requires EndsAtFirstFinal(records)
    ensures Run(START, records) == Done(frame, []) <==>
            && FlagsValid(records)
            && DecodeFrame(Bodies(records)) == Ok(frame)
            && forall k :: 0 <= k < |records| ==> DecodeFrame(Bodies(records[..k])).Err?
  {
    hide DecodeFrame, DecodeHeader, Run, FlagsValid;
    assert Holds(START, []);
    RunRefinesDecode(START, [], records, frame);
    assert [] + Bodies(records) == Bodies(records);
    assert forall k :: 0 <= k < |records| ==> [] + Bodies(records[..k]) == Bodies(records[..k]);
  }

  /** The records `write_raw` makes of an encoded frame from the given offset on: at most `chunk` bytes each, and
      only the one that reaches the end carries the final flag. */
  function Cut(bytes: seq<Byte>, chunk: nat, offset: nat): (records: seq<Record>)
    requires chunk >= 1 && offset <= |bytes|
    decreases |bytes| - offset
  {
    if offset == |bytes| then []
    else
      var length := Min(|bytes| - offset, chunk);
      var flag: Byte := if offset + length == |bytes| then 1 else 0;
      [[flag] + bytes[offset..offset + length]] + Cut(bytes, chunk, offset + length)
  }

  lemma {:induction false} CutIsFlagged(bytes: seq<Byte>, chunk: nat, offset: nat)
    requires chunk >= 1 && offset < |bytes|
    ensures var records := Cut(bytes, chunk, offset);
            && EndsAtFirstFinal(records) && FlagsValid(records)
            && (forall i :: 0 <= i < |records| ==> 1 < |records[i]| <= chunk + 1)
            && (forall i :: 0 <= i < |records| - 1 ==> |records[i]| == chunk + 1)
    decreases |bytes| - offset
  {
    var records := Cut(bytes, chunk, offset);
    var next := offset + Min(|bytes| - offset, chunk);
    if next < |bytes| {
      CutIsFlagged(bytes, chunk, next);
      assert records[1..] == Cut(bytes, chunk, next);
      assert forall i :: 0 < i < |records| ==> records[i] == records[1..][i - 1];
    } else {
      assert Cut(bytes, chunk, next) == [];
    }
  }

  /** The bodies of the first `k` records are the bytes up to some position, which is the end only for all of them. */
  lemma {:induction false} CutBodies(bytes: seq<Byte>, chunk: nat, offset: nat, k: nat) returns (end: nat)
    requires chunk >= 1 && offset <= |bytes| && k <= |Cut(bytes, chunk, offset)|
    ensures offset <= end <= |bytes| && (end == |bytes| <==> k == |Cut(bytes, chunk, offset)|)
    ensures Bodies(Cut(bytes, chunk, offset)[..k]) == bytes[offset..end]
    decreases |bytes| - offset
  {
    var records := Cut(bytes, chunk, offset);
    end := offset;
    if k > 0 {
      var next := offset + Min(|bytes| - offset, chunk);
      var later := Cut(bytes, chunk, next);
      assert records[1..] == later && Body(records[0]) == bytes[offset..next];
      hide Cut, Body;
      end := CutBodies(bytes, chunk, next, k - 1);
      assert records[..k][0] == records[0] && records[..k][1..] == later[..k - 1];
      assert bytes[offset..next] + bytes[next..end] == bytes[offset..end];
    }
  }

  /** Reading back what was cut returns the frame, for every chunk size, and consumes exactly its records. */
  lemma RecordsRoundTrip(frame: Frame, chunk: nat)
    requires chunk >= 1 && |frame.payload| <= MAX_PAYLOAD
    ensures Run(START, Cut(EncodeFrame(frame), chunk, 0)) == Done(frame, [])
  {
    var bytes := EncodeFrame(frame);
    var records := Cut(bytes, chunk, 0);
    CutIsFlagged(bytes, chunk, 0);
    FrameRoundTrip(frame);
    var all := CutBodies(bytes, chunk, 0, |records|);
    assert records[..|records|] == records && bytes[0..all] == bytes;
    forall k | 0 <= k < |records| ensures DecodeFrame(Bodies(records[..k])).Err? {
      var end := CutBodies(bytes, chunk, 0, k);
      PrefixDoesNotDecode(frame, end);
      assert bytes[0..end] == bytes[..end];
    }
    StreamingRefinesWholeBuffer(records, frame);
  }
}
