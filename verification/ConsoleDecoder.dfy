/** The decoder that turns output chunks into console text without splitting characters. */
module ConsoleDecoder {
  import opened Wrappers
  import opened Bytes
  import opened Utf8

  /** Everything that can be said about a byte string before more of it arrives: the text, and the cut-off tail. */
  function Drain(s: seq<Byte>): (string, seq<Byte>)
    decreases |s|
  {
    if s == [] then ("", [])
    else match Classify(s)
      case Whole(n) => var (text, tail) := Drain(s[n..]); ([Scalar(s[..n])] + text, tail)
      case Bad(n) => var (text, tail) := Drain(s[n..]); ([REPLACEMENT] + text, tail)
      case Cut => ("", s)
  }

  ghost predicate Incomplete(s: seq<Byte>) { s == [] || Classify(s) == Cut }

  lemma {:induction false} DrainLeavesIncomplete(s: seq<Byte>)
    ensures Incomplete(Drain(s).1)
    decreases |s|
  {
    if s != [] && Classify(s) != Cut {
      DrainLeavesIncomplete(s[Classify(s).n..]);
    }
  }

  /** Draining in two goes is draining at once. */
  lemma {:induction false} DrainConcat(s: seq<Byte>, t: seq<Byte>)
    ensures Drain(s + t).0 == Drain(s).0 + Drain(Drain(s).1 + t).0
    ensures Drain(s + t).1 == Drain(Drain(s).1 + t).1
    decreases |s|
  {
    hide Classify, Scalar, WellFormed;
    if s == [] {
      assert [] + t == t;
    } else if Classify(s) != Cut {
      var n := Classify(s).n;
      ClassifyStable(s, t);
      assert (s + t)[..n] == s[..n] && (s + t)[n..] == s[n..] + t;
      DrainConcat(s[n..], t);
      assert Drain(s).0 == [if Classify(s).Whole? then Scalar(s[..n]) else REPLACEMENT] + Drain(s[n..]).0;
    }
  }

  /** Lossy decoding is draining, with one replacement character for a tail that is never completed. */
  lemma {:induction false} LossyIsDrain(s: seq<Byte>)
    ensures Lossy(s) == Drain(s).0 + (if Drain(s).1 == [] then "" else [REPLACEMENT])
    decreases |s|
  {
    if s != [] && Classify(s) != Cut {
      LossyIsDrain(s[Classify(s).n..]);
    }
  }

  // ---- std::str::from_utf8 ----

  function ValidUpTo(s: seq<Byte>): (n: nat)
    ensures n <= |s|
    decreases |s|
  {
    if s == [] || !Classify(s).Whole? then 0
    else Classify(s).n + ValidUpTo(s[Classify(s).n..])
  }

  /** The text of the valid prefix. */
  function ValidText(s: seq<Byte>): string
    decreases |s|
  {
    if s == [] || !Classify(s).Whole? then ""
    else [Scalar(s[..Classify(s).n])] + ValidText(s[Classify(s).n..])
  }

  /** `error_len` is absent when the input ends inside a sequence. */
  datatype Validation = Valid(text: string) | Invalid(validUpTo: nat, errorLen: Option<nat>)

  function FromUtf8(s: seq<Byte>): Validation {
    var valid := ValidUpTo(s);
    if valid == |s| then Valid(ValidText(s))
    else match Classify(s[valid..])
      case Bad(n) => Invalid(valid, Some(n))
      case _ => Invalid(valid, None)
  }

  /** Draining shows the valid prefix first. */
  lemma {:induction false} ValidPrefixDrains(s: seq<Byte>)
    ensures Drain(s).0 == ValidText(s) + Drain(s[ValidUpTo(s)..]).0
    ensures Drain(s).1 == Drain(s[ValidUpTo(s)..]).1
    decreases |s|
  {
    hide Classify, Scalar, WellFormed;
    if s != [] && Classify(s).Whole? {
      var n := Classify(s).n;
      ValidPrefixDrains(s[n..]);
      assert s[n..][ValidUpTo(s[n..])..] == s[ValidUpTo(s)..];
    } else {
      assert s[0..] == s;
    }
  }

  lemma {:induction false} ValidPrefixIsMaximal(s: seq<Byte>)
    ensures ValidUpTo(s) < |s| ==> !Classify(s[ValidUpTo(s)..]).Whole?
    decreases |s|
  {
    hide Classify, Scalar, WellFormed;
    if s != [] && Classify(s).Whole? {
      var n := Classify(s).n;
      ValidPrefixIsMaximal(s[n..]);
      assert s[n..][ValidUpTo(s[n..])..] == s[ValidUpTo(s)..];
    } else {
      assert s[0..] == s;
    }
  }

  lemma {:induction false} ValidPrefixIsValid(s: seq<Byte>)
    ensures FromUtf8(s[..ValidUpTo(s)]) == Valid(ValidText(s))
    decreases |s|
  {
    hide Classify, Scalar, WellFormed;
    if s != [] && Classify(s).Whole? {
      var n, valid := Classify(s).n, ValidUpTo(s);
      ValidPrefixIsValid(s[n..]);
      var prefix := s[..valid];
      assert prefix[..n] == s[..n] && prefix[n..] == s[n..][..valid - n];
      WellFormedIsWhole(s[..n]);
      ClassifyStable(s[..n], prefix[n..]);
      assert s[..n] + prefix[n..] == prefix;
    } else {
      assert s[..0] == [];
    }
  }

  lemma FromUtf8Meaning(s: seq<Byte>)
    ensures FromUtf8(s).Valid? ==> FromUtf8(s).text == ValidText(s) && ValidUpTo(s) == |s|
    ensures FromUtf8(s).Invalid? ==>
              && FromUtf8(s).validUpTo == ValidUpTo(s) < |s|
              && FromUtf8(s[..ValidUpTo(s)]) == Valid(ValidText(s))
              && Classify(s[ValidUpTo(s)..])
              == if FromUtf8(s).errorLen.None? then Cut else Bad(FromUtf8(s).errorLen.value)
  {
    hide Classify;
    ValidPrefixIsValid(s);
    ValidPrefixIsMaximal(s);
  }

  /** The console the text goes to; a write may fail. */
  class Console {
    var text: string
    var failed: bool

    constructor ()
      ensures text == "" && !failed
    {
      text, failed := "", false;
    }

    method Emit(piece: string) returns (ok: bool)
      modifies this
      ensures text == if ok then old(text) + piece else old(text)
      ensures failed <==> old(failed) || !ok
    {
      ok := *;
      if ok {
        text := text + piece;
      } else {
        failed := true;
      }
    }
  }

  /** The text shown so far, after what the console showed before, and the bytes kept stand for all the bytes
      pushed. */
  ghost predicate Represents(start: string, total: seq<Byte>, text: string, pending: seq<Byte>) {
    start + Drain(total).0 == text + Drain(pending).0 && Drain(total).1 == Drain(pending).1
  }

  /** A proper prefix of a well-formed sequence. */
  ghost predicate CutOff(bytes: seq<Byte>) { exists w :: WellFormed(w) && bytes <= w && |bytes| < |w| }

  lemma RepresentsMore(start: string, total: seq<Byte>, text: string, pending: seq<Byte>, bytes: seq<Byte>)
    requires Represents(start, total, text, pending)
    ensures Represents(start, total + bytes, text, pending + bytes)
  {
    hide Drain;
    DrainConcat(total, bytes);
    DrainConcat(pending, bytes);
    var tail := Drain(Drain(pending).1 + bytes).0;
    assert (text + Drain(pending).0) + tail == text + (Drain(pending).0 + tail);
    assert (start + Drain(total).0) + tail == start + (Drain(total).0 + tail);
  }

  lemma ShowValid(start: string, total: seq<Byte>, text: string, pending: seq<Byte>)
    requires Represents(start, total, text, pending)
    ensures Represents(start, total, text + ValidText(pending), pending[ValidUpTo(pending)..])
  {
    hide Drain;
    ValidPrefixDrains(pending);
    var rest := Drain(pending[ValidUpTo(pending)..]).0;
    assert text + (ValidText(pending) + rest) == (text + ValidText(pending)) + rest;
  }

  lemma ShowBad(start: string, total: seq<Byte>, text: string, pending: seq<Byte>)
    requires Represents(start, total, text, pending) && pending != [] && Classify(pending).Bad?
    ensures Represents(start, total, text + [REPLACEMENT], pending[Classify(pending).n..])
  {
    hide Classify, Scalar, WellFormed;
    var rest := Drain(pending[Classify(pending).n..]).0;
    assert Drain(pending).0 == [REPLACEMENT] + rest;
    assert text + ([REPLACEMENT] + rest) == (text + [REPLACEMENT]) + rest;
  }

  lemma ShownSoFar(start: string, total: seq<Byte>, text: string, pending: seq<Byte>)
    requires Represents(start, total, text, pending) && Incomplete(pending)
    ensures start + Drain(total).0 == text && Drain(total).1 == pending && |pending| <= 3
    ensures pending != [] ==> CutOff(pending)
  {
    assert Drain(pending) == ("", pending);
    if pending != [] {
      assert WellFormed(Completion(pending));
    }
  }

  class Utf8ConsoleDecoder {
    var pending: seq<Byte>
    ghost var total: seq<Byte>
    /** What the console showed before this decoder. */
    ghost const start: string

    constructor (ghost start: string)
      ensures pending == [] && total == [] && this.start == start
    {
      this.start, pending, total := start, [], [];
    }

    /** Shows what the bytes complete and keeps the cut-off tail. When the console fails, what was not shown is kept:
        nothing is lost or shown twice. */
    method Push(bytes: seq<Byte>, console: Console) returns (ok: bool)
      requires Represents(start, total, console.text, pending)
      modifies this, console
      ensures total == old(total) + bytes
      ensures Represents(start, total, console.text, pending)
      ensures ok ==> |pending| <= 3 && (pending != [] ==> CutOff(pending))
      ensures ok ==> console.text == start + Drain(total).0 && Drain(total).1 == pending
      ensures console.failed <==> old(console.failed) || !ok
    {
      hide Drain, Represents, Classify, FromUtf8, ValidUpTo, ValidText;
      RepresentsMore(start, total, console.text, pending, bytes);
      pending := pending + bytes;
      total := total + bytes;
      while true
        invariant total == old(total) + bytes && Represents(start, total, console.text, pending)
        invariant console.failed == old(console.failed)
        decreases |pending|
      {
        FromUtf8Meaning(pending);
        ShowValid(start, total, console.text, pending);
        match FromUtf8(pending)
        case Valid(text) =>
          assert console.text + "" == console.text;
          if text != "" {
            ok := console.Emit(text);
            if !ok {
              return;
            }
          }
          assert pending[|pending|..] == [];
          pending := [];
          ShownSoFar(start, total, console.text, pending);
          return true;
        case Invalid(validUpTo, errorLen) =>
          if validUpTo > 0 {
            ok := console.Emit(FromUtf8(pending[..validUpTo]).text);
            if !ok {
              return;
            }
            pending := pending[validUpTo..];
          }
          assert pending[0..] == pending;
          if errorLen.None? {
            ShownSoFar(start, total, console.text, pending);
            return true;
          }
          ShowBad(start, total, console.text, pending);
          ok := console.Emit([REPLACEMENT]);
          if !ok {
            return;
          }
          pending := pending[errorLen.value..];
      }
    }

    /** Shows the tail lossily; then the console has exactly the lossy decoding of everything pushed. */
    method Finish(console: Console) returns (ok: bool)
      requires Represents(start, total, console.text, pending)
      modifies this, console
      ensures total == old(total)
      ensures ok ==> console.text == start + Lossy(total) && pending == []
      ensures !ok ==> Represents(start, total, console.text, pending)
      ensures console.failed <==> old(console.failed) || !ok
    {
      LossyIsDrain(total);
      LossyIsDrain(pending);
      ghost var shown, tail := console.text, if Drain(total).1 == [] then "" else [REPLACEMENT];
      assert (start + Drain(total).0) + tail == start + (Drain(total).0 + tail);
      assert (shown + Drain(pending).0) + tail == shown + (Drain(pending).0 + tail);
      ok := true;
      if pending != [] {
        ok := console.Emit(Lossy(pending));
        if ok {
          pending := [];
        }
      }
    }
  }

  /** However a byte string is cut into chunks, pushing them and finishing adds its one-shot lossy decoding to what
      the console shows. */
  method DecodeChunks(chunks: seq<seq<Byte>>, console: Console) returns (ok: bool)
    modifies console
    ensures ok ==> console.text == old(console.text) + Lossy(Flatten(chunks))
    ensures console.failed <==> old(console.failed) || !ok
  {
    ghost var start := console.text;
    var decoder := new Utf8ConsoleDecoder(start);
    assert chunks[..0] == [];
    for i := 0 to |chunks|
      invariant fresh(decoder) && decoder.start == start && decoder.total == Flatten(chunks[..i])
      invariant Represents(start, decoder.total, console.text, decoder.pending)
      invariant console.failed == old(console.failed)
    {
      FlattenConcat(chunks[..i], [chunks[i]]);
      FlattenOne(chunks[i]);
      assert chunks[..i + 1] == chunks[..i] + [chunks[i]];
      ok := decoder.Push(chunks[i], console);
      if !ok {
        return;
      }
    }
    assert chunks[..|chunks|] == chunks;
    ok := decoder.Finish(console);
  }

  /** The text shown by a list of pushes that all succeed, and the bytes then pending. */
  ghost function Shown(chunks: seq<seq<Byte>>): (string, seq<Byte>)
    decreases |chunks|
  {
    if chunks == [] then ("", [])
    else
      var last := |chunks| - 1;
      var (text, pending) := Shown(chunks[..last]);
      var (more, tail) := Drain(pending + chunks[last]);
      (text + more, tail)
  }

  /** The text shown and the tail kept depend on the bytes alone, not on where they were cut. */
  lemma {:induction false} CutsDoNotMatter(chunks: seq<seq<Byte>>)
    ensures Shown(chunks) == Drain(Flatten(chunks))
    decreases |chunks|
  {
    if chunks != [] {
      var last := |chunks| - 1;
      CutsDoNotMatter(chunks[..last]);
      FlattenConcat(chunks[..last], [chunks[last]]);
      FlattenOne(chunks[last]);
      assert chunks == chunks[..last] + [chunks[last]];
      DrainConcat(Flatten(chunks[..last]), chunks[last]);
      assert Shown(chunks).0 == Drain(Flatten(chunks)).0 && Shown(chunks).1 == Drain(Flatten(chunks)).1;
    }
  }

  /** Between pushes the decoder keeps at most three bytes, a proper beginning of a well-formed sequence. */
  lemma PendingIsProperPrefix(chunks: seq<seq<Byte>>)
    ensures var pending := Shown(chunks).1;
            |pending| <= 3 && (pending != [] ==> CutOff(pending))
  {
    CutsDoNotMatter(chunks);
    DrainLeavesIncomplete(Flatten(chunks));
    var pending := Shown(chunks).1;
    if pending != [] {
      assert WellFormed(Completion(pending));
    }
  }
}
