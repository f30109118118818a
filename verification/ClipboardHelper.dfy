/** The clipboard helper process: one request at a time over a pair of pipes, with a process kept for reuse. */
module ClipboardHelper {
  import opened Wrappers
  import opened Bytes

  const STATUS_OK: Byte := 0
  const STATUS_ERROR: Byte := 1
  const MAX_CLIPBOARD_TEXT := 4 * 1024 * 1024

  type Text = s: seq<Byte> | |s| < 0x1_0000_0000 witness []

  /** What the helper did for a request it read completely. */
  datatype Exchange = Exchange(opcode: Byte, payload: seq<Byte>, status: Byte, reply: Text)

  /** A helper process: bytes waiting in its input pipe, the part of a request it has read, the part of an answer it
      has yet to write, bytes waiting in its output pipe, and everything it answered so far. */
  datatype Helper = Helper(input: seq<Byte>, got: seq<Byte>, answer: seq<Byte>, output: seq<Byte>,
                           served: seq<Exchange>, exited: bool)

  const FRESH := Helper([], [], [], [], [], false)

  /** Nothing under way in either direction. */
  predicate InStep(h: Helper) {
    h.input == [] && h.got == [] && h.answer == [] && h.output == []
  }

  /** Both directions use one format: an opcode or status, a length, that many bytes. */
  function Message(tag: Byte, payload: Text): seq<Byte> {
    [tag] + Be32(|payload|) + payload
  }

  /** The helper takes one more byte of a request; a complete one is answered with whatever `status` and `reply` say. */
  function TakeByte(h: Helper, got: seq<Byte>, status: Byte, reply: Text): Helper {
    if |got| < 5 then h.(got := got)
    else
      var length := FromBe32(got[1..5]);
      if length > MAX_CLIPBOARD_TEXT then h.(got := got, exited := true)
      else if |got| < 5 + length then h.(got := got)
      else h.(got := [], answer := Message(status, reply),
              served := h.served + [Exchange(got[0], got[5..], status, reply)])
  }

  /** One step of the helper: it writes a byte of its answer, else reads a byte, else waits. */
  function Step(h: Helper, status: Byte, reply: Text): Helper {
    if h.exited then h
    else if h.answer != [] then h.(answer := h.answer[1..], output := h.output + [h.answer[0]])
    else if h.input == [] then h
    else TakeByte(h.(input := h.input[1..]), h.got + [h.input[0]], status, reply)
  }

  /** The exchange an open request belongs to. */
  datatype Talk = Talk(before: seq<Exchange>, opcode: Byte, payload: Text)

  function Request(talk: Talk): seq<Byte> { Message(talk.opcode, talk.payload) }

  /** The helper has not read all of the request yet. */
  predicate Reading(h: Helper, talk: Talk, sent: seq<Byte>) {
    && h.served == talk.before && h.answer == [] && h.output == []
    && h.got + h.input == sent && |h.got| < |Request(talk)|
  }

  /** The helper has answered this request, and the rest of that answer is what the pipe still has to deliver. */
  predicate Answering(h: Helper, talk: Talk, received: seq<Byte>) {
    && |h.served| == |talk.before| + 1 && h.served[..|talk.before|] == talk.before
    && h.input == [] && h.got == []
    && var e := h.served[|talk.before|];
       && e.opcode == talk.opcode && e.payload == talk.payload
       && received + h.output + h.answer == Message(e.status, e.reply)
  }

  predicate Talking(h: Helper, talk: Talk, sent: seq<Byte>, received: seq<Byte>) {
    && sent <= Request(talk)
    && |talk.payload| <= MAX_CLIPBOARD_TEXT
    && ((Reading(h, talk, sent) && received == []) || (sent == Request(talk) && Answering(h, talk, received)))
  }

  lemma MessageParts(tag: Byte, payload: Text, n: nat)
    requires 5 <= n <= |Message(tag, payload)|
    ensures Message(tag, payload)[0] == tag
    ensures FromBe32(Message(tag, payload)[..n][1..5]) == |payload| == |Message(tag, payload)| - 5
    ensures Message(tag, payload)[5..] == payload
  {
    hide FromBe32, Be32;
    var message := Message(tag, payload);
    assert message[1..5] == Be32(|payload|);
    assert message[..n][1..5] == message[1..5];
    Be32RoundTrip(|payload|);
  }

  /** A message says where it ends: no proper prefix is complete. */
  lemma ReadingGoesOn(h: Helper, talk: Talk, sent: seq<Byte>, status: Byte, reply: Text)
    requires sent <= Request(talk) && |talk.payload| <= MAX_CLIPBOARD_TEXT
    requires Reading(h, talk, sent) && h.input != []
    ensures var next := TakeByte(h.(input := h.input[1..]), h.got + [h.input[0]], status, reply);
            Reading(next, talk, sent) || (sent == Request(talk) && Answering(next, talk, []))
  {
    hide FromBe32, Message;
    var got := h.got + [h.input[0]];
    assert got + h.input[1..] == sent;
    assert got == Request(talk)[..|got|];
    if |got| >= 5 {
      MessageParts(talk.opcode, talk.payload, |got|);
      if |got| == 5 + |talk.payload| {
        assert got == Request(talk);
        assert [] + [] + Message(status, reply) == Message(status, reply);
      }
    } else {
      MessageLength(talk.opcode, talk.payload);
    }
  }

  lemma MessageLength(tag: Byte, payload: Text)
    ensures |Message(tag, payload)| == 5 + |payload|
  {
  }

  /** Whatever the helper does next, a request and its answer stay in step. */
  lemma StepKeepsTalking(h: Helper, talk: Talk, sent: seq<Byte>, received: seq<Byte>, status: Byte, reply: Text)
    requires Talking(h, talk, sent, received)
    ensures Talking(Step(h, status, reply), talk, sent, received)
  {
    hide TakeByte, Message;
    if h.exited {
    } else if h.answer != [] {
      assert received + (h.output + [h.answer[0]]) + h.answer[1..] == received + h.output + h.answer;
    } else if h.input != [] {
      ReadingGoesOn(h, talk, sent, status, reply);
    }
  }

  /** `n` steps in a row of a helper that would answer with `status` and `reply`. */
  function Steps(h: Helper, status: Byte, reply: Text, n: nat): Helper
    decreases n
  {
    if n == 0 then h else Steps(Step(h, status, reply), status, reply, n - 1)
  }

  lemma {:induction false} StepsAdd(h: Helper, status: Byte, reply: Text, m: nat, n: nat)
    ensures Steps(h, status, reply, m + n) == Steps(Steps(h, status, reply, m), status, reply, n)
    decreases m
  {
    hide Step;
    if m > 0 {
      StepsAdd(Step(h, status, reply), status, reply, m - 1, n);
    }
  }

  lemma {:induction false} ReadsTheRequest(h: Helper, talk: Talk, status: Byte, reply: Text)
    requires !h.exited && |talk.payload| <= MAX_CLIPBOARD_TEXT && Reading(h, talk, Request(talk))
    ensures Steps(h, status, reply, |h.input|)
         == h.(input := [], got := [], answer := Message(status, reply),
               served := h.served + [Exchange(talk.opcode, talk.payload, status, reply)])
    decreases |h.input|
  {
    hide Message, FromBe32;
    var message := Request(talk);
    var got := h.got + [h.input[0]];
    var next := Step(h, status, reply);
    assert got + h.input[1..] == message && got == message[..|got|];
    MessageLength(talk.opcode, talk.payload);
    if |got| >= 5 {
      MessageParts(talk.opcode, talk.payload, |got|);
    }
    if h.input[1..] != [] {
      ReadsTheRequest(next, talk, status, reply);
    } else {
      assert got == message;
      assert next == h.(input := [], got := [], answer := Message(status, reply),
                        served := h.served + [Exchange(got[0], got[5..], status, reply)]);
      assert Steps(next, status, reply, 0) == next;
    }
  }

  lemma {:induction false} WritesTheAnswer(h: Helper, status: Byte, reply: Text)
    requires !h.exited
    ensures Steps(h, status, reply, |h.answer|) == h.(answer := [], output := h.output + h.answer)
    decreases |h.answer|
  {
    if h.answer == [] {
      assert h.output + [] == h.output;
    } else {
      WritesTheAnswer(Step(h, status, reply), status, reply);
      assert h.output + [h.answer[0]] + h.answer[1..] == h.output + h.answer;
    }
  }

  /** A helper left to run answers a request that is in its pipe with exactly one message, and waits again. */
  lemma UndisturbedHelperAnswers(h: Helper, talk: Talk, status: Byte, reply: Text)
    requires InStep(h) && !h.exited && h.served == talk.before && |talk.payload| <= MAX_CLIPBOARD_TEXT
    ensures Steps(h.(input := Request(talk)), status, reply, |Request(talk)| + |Message(status, reply)|)
         == h.(output := Message(status, reply),
               served := h.served + [Exchange(talk.opcode, talk.payload, status, reply)])
  {
    hide Step, Message;
    var asked := h.(input := Request(talk));
    MessageLength(talk.opcode, talk.payload);
    assert asked.got + asked.input == Request(talk);
    StepsAdd(asked, status, reply, |Request(talk)|, |Message(status, reply)|);
    ReadsTheRequest(asked, talk, status, reply);
    var answering := Steps(asked, status, reply, |Request(talk)|);
    WritesTheAnswer(answering, status, reply);
    assert [] + Message(status, reply) == Message(status, reply);
  }

  /** Why an exchange ends. `Interrupted` is a canceled stream or the time limit. */
  datatype Outcome = Answered(status: Byte, reply: Text) | TooLong | ResponseTooLong | Broken | Interrupted

  /** The helper runs for a while: any number of steps, with any answer; it may exit. */
  method HelperRuns(child: Helper, talk: Talk, sent: seq<Byte>, received: seq<Byte>) returns (after: Helper)
    requires Talking(child, talk, sent, received)
    ensures Talking(after, talk, sent, received)
  {
    hide Talking, Step;
    after := child;
    var steps: nat := *;
    while steps > 0
      invariant Talking(after, talk, sent, received)
    {
      var status: Byte := *;
      var reply: Text := *;
      StepKeepsTalking(after, talk, sent, received, status, reply);
      after := Step(after, status, reply);
      steps := steps - 1;
    }
    var exits: bool := *;
    if exits {
      assert Talking(after.(exited := true), talk, sent, received) by { ExitKeepsTalking(after, talk, sent, received); }
      after := after.(exited := true);
    }
  }

  lemma ExitKeepsTalking(h: Helper, talk: Talk, sent: seq<Byte>, received: seq<Byte>)
    requires Talking(h, talk, sent, received)
    ensures Talking(h.(exited := true), talk, sent, received)
  {
  }

  lemma WriteKeepsTalking(h: Helper, talk: Talk, sent: seq<Byte>, chunk: seq<Byte>)
    requires Talking(h, talk, sent, []) && sent + chunk <= Request(talk) && chunk != []
    ensures Talking(h.(input := h.input + chunk), talk, sent + chunk, [])
  {
    hide Message;
    assert h.got + (h.input + chunk) == (h.got + h.input) + chunk;
  }

  /** `write_all`, with the helper running in between; `None` when everything is in the pipe. */
  method WriteAll(child: Helper, talk: Talk, sent: seq<Byte>, bytes: seq<Byte>)
    returns (stop: Option<Outcome>, after: Helper)
    requires Talking(child, talk, sent, []) && sent + bytes <= Request(talk)
    ensures stop.None? ==> Talking(after, talk, sent + bytes, [])
    ensures stop.Some? ==> stop.value == Interrupted || (stop.value == Broken && after.exited)
  {
    hide Talking;
    stop, after := None, child;
    var offset := 0;
    var rounds: nat := *;
    assert sent + bytes[..offset] == sent;
    while offset < |bytes|
      invariant 0 <= offset <= |bytes|
      invariant Talking(after, talk, sent + bytes[..offset], [])
      decreases rounds
    {
      after := HelperRuns(after, talk, sent + bytes[..offset], []);
      if after.exited {
        return Some(Broken), after;
      }
      if rounds == 0 {
        return Some(Interrupted), after;
      }
      var n: nat :| n <= |bytes| - offset;
      if n > 0 {
        var chunk := bytes[offset..offset + n];
        assert sent + bytes[..offset] + chunk == sent + bytes[..offset + n];
        WriteKeepsTalking(after, talk, sent + bytes[..offset], chunk);
        after := after.(input := after.input + chunk);
      }
      offset, rounds := offset + n, rounds - 1;
    }
    assert bytes[..offset] == bytes;
  }

  lemma ReadKeepsTalking(h: Helper, talk: Talk, received: seq<Byte>, n: nat)
    requires Talking(h, talk, Request(talk), received) && 0 < n <= |h.output|
    ensures Talking(h.(output := h.output[n..]), talk, Request(talk), received + h.output[..n])
  {
    hide Message;
    assert received + h.output[..n] + h.output[n..] == received + h.output;
  }

  /** `read_exact`, with the helper running in between. */
  method ReadExact(child: Helper, talk: Talk, received: seq<Byte>, length: nat)
    returns (stop: Option<Outcome>, bytes: seq<Byte>, after: Helper)
    requires Talking(child, talk, Request(talk), received)
    ensures stop.None? ==> |bytes| == length && Talking(after, talk, Request(talk), received + bytes)
    ensures stop.Some? ==> stop.value == Interrupted || (stop.value == Broken && after.exited)
  {
    hide Talking, Request;
    stop, bytes, after := None, [], child;
    var rounds: nat := *;
    assert received + bytes == received;
    while |bytes| < length
      invariant |bytes| <= length
      invariant Talking(after, talk, Request(talk), received + bytes)
      decreases rounds
    {
      after := HelperRuns(after, talk, Request(talk), received + bytes);
      if after.exited && after.output == [] {
        return Some(Broken), bytes, after;
      }
      if rounds == 0 {
        return Some(Interrupted), bytes, after;
      }
      var n: nat :| n <= |after.output| && n <= length - |bytes|;
      if n > 0 {
        assert received + (bytes + after.output[..n]) == received + bytes + after.output[..n];
        ReadKeepsTalking(after, talk, received + bytes, n);
        bytes, after := bytes + after.output[..n], after.(output := after.output[n..]);
      }
      rounds := rounds - 1;
    }
  }

  lemma StartOfTalk(h: Helper, talk: Talk)
    requires InStep(h) && h.served == talk.before && |talk.payload| <= MAX_CLIPBOARD_TEXT
    ensures Talking(h, talk, [], [])
  {
    MessageLength(talk.opcode, talk.payload);
  }

  /** The first five bytes tell the status and how long the answer is. */
  lemma AnswerHeader(h: Helper, talk: Talk, header: seq<Byte>)
    requires Talking(h, talk, Request(talk), header) && |header| == 5
    ensures |h.served| == |talk.before| + 1 && h.served[..|talk.before|] == talk.before
    ensures header[0] == h.served[|talk.before|].status
    ensures FromBe32(header[1..5]) == |h.served[|talk.before|].reply|
  {
    hide Message, FromBe32;
    var e := h.served[|talk.before|];
    var message := Message(e.status, e.reply);
    assert header == message[..5];
    MessageParts(e.status, e.reply, 5);
  }

  /** With the announced number of bytes read, the pipes are empty again and the bytes are the answer. */
  lemma AnswerComplete(h: Helper, talk: Talk, header: seq<Byte>, body: seq<Byte>)
    requires Talking(h, talk, Request(talk), header + body) && |header| == 5 && |body| == FromBe32(header[1..5])
    ensures InStep(h)
    ensures |body| < 0x1_0000_0000 && h.served == talk.before + [Exchange(talk.opcode, talk.payload, header[0], body)]
  {
    hide Message, FromBe32;
    var e := h.served[|talk.before|];
    var message := Message(e.status, e.reply);
    MessageLength(e.status, e.reply);
    assert header == message[..5];
    MessageParts(e.status, e.reply, 5);
    assert header + body == message[..5 + |body|] == message;
    assert body == message[5..];
    assert h.served == h.served[..|talk.before|] + [e];
  }

  /** `exchange_io`, until it ends by itself or is dropped. An answer belongs to this request and leaves both pipes
      empty. */
  method ExchangeIo(child: Helper, opcode: Byte, payload: Text) returns (outcome: Outcome, after: Helper)
    requires InStep(child)
    ensures outcome == TooLong <==> |payload| > 4194304
    ensures outcome.Answered? ==>
              && InStep(after) && |outcome.reply| <= 4194304
              && after.served == child.served + [Exchange(opcode, payload, outcome.status, outcome.reply)]
    ensures outcome == ResponseTooLong ==>
              |after.served| == |child.served| + 1 && |after.served[|child.served|].reply| > 4194304
    ensures outcome == Broken ==> after.exited
  {
    hide Talking, FromBe32, Message;
    if |payload| > MAX_CLIPBOARD_TEXT {
      return TooLong, child;
    }
    var talk := Talk(child.served, opcode, payload);
    StartOfTalk(child, talk);
    var header := [opcode] + Be32(|payload|);
    assert Request(talk) == header + payload by { MessageIsHeaderAndPayload(opcode, payload); }
    var stop, response;
    stop, after := WriteAll(child, talk, [], header);
    if stop.Some? {
      return stop.value, after;
    }
    assert [] + header == header;
    stop, after := WriteAll(after, talk, header, payload);
    if stop.Some? {
      return stop.value, after;
    }
    stop, response, after := ReadExact(after, talk, [], 5);
    if stop.Some? {
      return stop.value, after;
    }
    var length, responseHeader := FromBe32(response[1..5]), response;
    assert [] + responseHeader == responseHeader;
    AnswerHeader(after, talk, responseHeader);
    if length > MAX_CLIPBOARD_TEXT {
      return ResponseTooLong, after;
    }
    stop, response, after := ReadExact(after, talk, responseHeader, length);
    if stop.Some? {
      return stop.value, after;
    }
    AnswerComplete(after, talk, responseHeader, response);
    return Answered(responseHeader[0], response), after;
  }

  lemma MessageIsHeaderAndPayload(tag: Byte, payload: Text)
    ensures Message(tag, payload) == ([tag] + Be32(|payload|)) + payload
  {
  }

  datatype Failure =
    | Canceled | NotStarted | HelperFailed(message: Text) | InvalidStatus(status: Byte) | HelperIo(why: Outcome)

  /** The manager keeps at most one process. */
  class ClipboardHelperManager {
    var process: Option<Helper>

    predicate Valid()
      reads this
    {
      process.Some? ==> InStep(process.value)
    }

    constructor ()
      ensures Valid() && process == None
    {
      process := None;
    }

    method Start() returns (child: Option<Helper>)
      ensures child.Some? ==> child.value == FRESH
    {
      var works: bool := *;
      return if works then Some(FRESH) else None;
    }

    /** `request`: whatever happens to the stream, the time limit and the helper, a process that is kept is in step,
        and a payload that is returned is what the helper answered to this very request, as the newest exchange of the
        process that was kept or of a new one. */
    method Request(opcode: Byte, payload: Text, canceled: bool) returns (response: Result<Text, Failure>)
      requires Valid()
      modifies this
      ensures Valid()
      ensures canceled ==> response == Err(Canceled) && process == old(process)
      ensures !canceled ==> (process.Some? <==> response.Ok? || response.error.HelperFailed?)
      ensures !canceled && process.Some? ==>
                && var served := process.value.served;
                && served != []
                && (served[..|served| - 1] == []
                    || (old(process).Some? && served[..|served| - 1] == old(process).value.served))
                && served[|served| - 1]
                   == (if response.Ok? then Exchange(opcode, payload, 0, response.value)
                       else Exchange(opcode, payload, 1, response.error.message))
      ensures !canceled && response.Err? && response.error.InvalidStatus? ==> response.error.status > 1
      ensures |payload| > 4194304 ==> response.Err?
    {
      hide InStep;
      if canceled {
        return Err(Canceled);
      }
      if process.None? {
        process := Start();
        if process.None? {
          return Err(NotStarted);
        }
        assert InStep(FRESH) by { FreshIsInStep(); }
      }
      var child := process.value;
      process := None;
      var hasExited: bool := *;
      if child.exited || hasExited {
        var started := Start();
        if started.None? {
          return Err(NotStarted);
        }
        child := started.value;
        FreshIsInStep();
      }
      ghost var before := child.served;
      var outcome, after := ExchangeIo(child, opcode, payload);
      if outcome.Answered? {
        assert after.served[..|after.served| - 1] == before;
        if outcome.status == STATUS_OK {
          process := Some(after);
          return Ok(outcome.reply);
        } else if outcome.status == STATUS_ERROR {
          process := Some(after);
          return Err(HelperFailed(outcome.reply));
        }
        return Err(InvalidStatus(outcome.status));
      }
      return Err(HelperIo(outcome));
    }
  }

  lemma FreshIsInStep()
    ensures InStep(FRESH)
  {
  }
}
