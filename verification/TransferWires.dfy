/** The frames of a file transfer on the wire and in the queues, in both directions. */
module TransferWires {
  import opened Bytes

  /** `Failure` is an error frame and waits in the queue like any other; `Cancel` is a cancel frame and is noticed at
      once; `Grant` is a window update. */
  datatype Message = Meta | Chunk(bytes: seq<Byte>) | End | Failure | Grant(window: nat) | Cancel

  /** A closed connection carries nothing. */
  function Post(open: bool, wire: seq<Message>, message: Message): seq<Message> {
    if open then wire + [message] else wire
  }

  predicate Carries(data: seq<Message>, message: Message) { message in data }

  lemma CarriesSnoc(data: seq<Message>, added: Message)
    ensures forall message :: Carries(data + [added], message) <==> Carries(data, message) || message == added
  {
  }

  lemma CarriesFirst(data: seq<Message>)
    requires data != []
    ensures forall message :: Carries(data, message) <==> message == data[0] || Carries(data[1..], message)
  {
    assert data == [data[0]] + data[1..];
  }

  /** The file bytes in a list of messages. */
  function Payload(data: seq<Message>): seq<Byte> {
    if data == [] then [] else (if data[0].Chunk? then data[0].bytes else []) + Payload(data[1..])
  }

  /** The window in a list of messages. */
  function Granted(data: seq<Message>): nat {
    if data == [] then 0 else (if data[0].Grant? then data[0].window else 0) + Granted(data[1..])
  }

  lemma {:induction false} PayloadSnoc(data: seq<Message>, message: Message)
    ensures Payload(data + [message]) == Payload(data) + if message.Chunk? then message.bytes else []
  {
    var all := data + [message];
    if data == [] {
      assert all == [message] && all[1..] == [];
    } else {
      assert all[0] == data[0] && all[1..] == data[1..] + [message];
      PayloadSnoc(data[1..], message);
    }
  }

  /** A window update of nothing would be rejected. */
  ghost predicate RealGrants(data: seq<Message>) {
    forall i :: 0 <= i < |data| && data[i].Grant? ==> data[i].window >= 1
  }

  lemma {:induction false} GrantedSnoc(data: seq<Message>, message: Message)
    ensures Granted(data + [message]) == Granted(data) + if message.Grant? then message.window else 0
    ensures RealGrants(data) && (message.Grant? ==> message.window >= 1) ==> RealGrants(data + [message])
  {
    if data == [] {
      assert [message][1..] == [];
    } else {
      assert (data + [message])[1..] == data[1..] + [message];
      GrantedSnoc(data[1..], message);
    }
  }

  lemma FirstOf(data: seq<Message>)
    requires data != []
    ensures data == [data[0]] + data[1..]
    ensures Payload(data) == (if data[0].Chunk? then data[0].bytes else []) + Payload(data[1..])
    ensures Granted(data) == (if data[0].Grant? then data[0].window else 0) + Granted(data[1..])
    ensures RealGrants(data) ==> RealGrants(data[1..]) && (data[0].Grant? ==> data[0].window >= 1)
    ensures forall message :: Carries(data, message) <==> message == data[0] || Carries(data[1..], message)
  {
    CarriesFirst(data);
  }

  /** No chunk and no second end marker follows the end marker. */
  ghost predicate Shaped(data: seq<Message>) {
    forall i, j :: 0 <= i < j < |data| && data[i].End? ==> !data[j].Chunk? && !data[j].End?
  }

  /** Nothing of the file and no end marker. */
  ghost predicate Spent(data: seq<Message>) { forall i :: 0 <= i < |data| ==> !data[i].Chunk? && !data[i].End? }

  lemma {:induction false} SpentCarriesNothing(data: seq<Message>)
    requires Spent(data)
    ensures Payload(data) == [] && !Carries(data, End)
  {
    if data != [] {
      SpentCarriesNothing(data[1..]);
    }
  }

  lemma ShapedSnoc(data: seq<Message>, message: Message)
    requires Shaped(data) && (!Carries(data, End) || (!message.Chunk? && !message.End?))
    ensures Shaped(data + [message])
  {
  }

  lemma ShapedTail(data: seq<Message>)
    requires Shaped(data) && data != []
    ensures Shaped(data[1..]) && (data[0] == End ==> Spent(data[1..]))
    ensures Spent(data) ==> Spent(data[1..])
  {
    assert forall i :: 0 <= i < |data| - 1 ==> data[1..][i] == data[i + 1];
  }

  /** Nothing but the file and its end marker. */
  ghost predicate Plain(data: seq<Message>) { forall i :: 0 <= i < |data| ==> data[i].Chunk? || data[i].End? }

  lemma PlainTail(data: seq<Message>)
    requires Plain(data) && data != []
    ensures Plain(data[1..]) && (data[0].Chunk? || data[0].End?)
  {
    assert forall i :: 0 <= i < |data| - 1 ==> data[1..][i] == data[i + 1];
  }

  lemma PlainSnoc(data: seq<Message>, message: Message)
    requires Plain(data) && (message.Chunk? || message.End?)
    ensures Plain(data + [message])
  {
  }

  function Head(data: seq<Message>): Message { if data == [] then Meta else data[0] }

  lemma NothingIsLeft(data: seq<Message>)
    requires Spent(data) && Plain(data)
    ensures data == []
  {
    var head := Head(data);
    if data != [] {
      assert false;
    }
  }
}
