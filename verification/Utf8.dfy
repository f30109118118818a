/** UTF-8 by Table 3-7 in section 3.9 of the Unicode Standard, and lossy decoding of whole byte strings. */
module Utf8 {
  import opened Wrappers
  import opened Bytes

  const REPLACEMENT: char := '\U{FFFD}'

  /** The number of bytes a first byte announces, 0 for a byte that starts no well-formed sequence. */
  function Length(lead: Byte): nat {
    if lead <= 0x7F then 1
    else if 0xC2 <= lead <= 0xDF then 2
    else if 0xE0 <= lead <= 0xEF then 3
    else if 0xF0 <= lead <= 0xF4 then 4
    else 0
  }

  predicate Continues(b: Byte) { 0x80 <= b <= 0xBF }

  predicate SecondOk(lead: Byte, b: Byte) {
    if lead == 0xE0 then 0xA0 <= b <= 0xBF
    else if lead == 0xED then 0x80 <= b <= 0x9F
    else if lead == 0xF0 then 0x90 <= b <= 0xBF
    else if lead == 0xF4 then 0x80 <= b <= 0x8F
    else Continues(b)
  }

  /** A row of Table 3-7. */
  predicate WellFormed(s: seq<Byte>) {
    && 1 <= |s| == Length(s[0])
    && (|s| >= 2 ==> SecondOk(s[0], s[1]))
    && (|s| >= 3 ==> Continues(s[2]))
    && (|s| >= 4 ==> Continues(s[3]))
  }

  /** The scalar value a well-formed sequence stands for. */
  function Scalar(s: seq<Byte>): char
    requires WellFormed(s)
  {
    var value := if |s| == 1 then s[0] as int
                 else if |s| == 2 then (s[0] as int - 0xC0) * 0x40 + (s[1] as int - 0x80)
                 else if |s| == 3 then
                   (s[0] as int - 0xE0) * 0x1000 + (s[1] as int - 0x80) * 0x40 + (s[2] as int - 0x80)
                 else
                   (s[0] as int - 0xF0) * 0x4_0000 + (s[1] as int - 0x80) * 0x1000
                   + (s[2] as int - 0x80) * 0x40 + (s[3] as int - 0x80);
    value as char
  }

  function Encode(c: char): seq<Byte> {
    var value := c as int;
    if value < 0x80 then [value]
    else if value < 0x800 then [0xC0 + value / 0x40, 0x80 + value % 0x40]
    else if value < 0x1_0000 then [0xE0 + value / 0x1000, 0x80 + value / 0x40 % 0x40, 0x80 + value % 0x40]
    else [0xF0 + value / 0x4_0000, 0x80 + value / 0x1000 % 0x40, 0x80 + value / 0x40 % 0x40, 0x80 + value % 0x40]
  }

  /** What a byte string starts with: a whole sequence, an ill-formed stretch, or a sequence cut off by the end. */
  datatype Item = Whole(n: nat) | Bad(n: nat) | Cut

  function Classify(s: seq<Byte>): (item: Item)
    requires s != []
    ensures item.Whole? ==> 1 <= item.n <= |s| && WellFormed(s[..item.n])
    ensures item.Bad? ==> 1 <= item.n <= |s|
    ensures item.Cut? ==> |s| <= 3
  {
    var length := Length(s[0]);
    if length == 0 then Bad(1)
    else if length == 1 then Whole(1)
    else if |s| < 2 then Cut
    else if !SecondOk(s[0], s[1]) then Bad(1)
    else if length == 2 then Whole(2)
    else if |s| < 3 then Cut
    else if !Continues(s[2]) then Bad(2)
    else if length == 3 then Whole(3)
    else if |s| < 4 then Cut
    else if !Continues(s[3]) then Bad(3)
    else Whole(4)
  }

  /** `p` begins some well-formed sequence. */
  ghost predicate Begins(p: seq<Byte>) { exists w :: WellFormed(w) && p <= w }

  function Completion(s: seq<Byte>): (w: seq<Byte>)
    requires s != [] && Classify(s) == Cut
    ensures WellFormed(w) && s <= w && |s| < |w|
  {
    var second: Byte := if |s| >= 2 then s[1]
                        else if s[0] == 0xE0 then 0xA0 else if s[0] == 0xF0 then 0x90 else 0x80;
    var third: Byte := if |s| >= 3 then s[2] else 0x80;
    [s[0], second, third, 0x80][..Length(s[0])]
  }

  /** The classification is the standard's: a stretch is ill-formed up to its maximal subpart, the longest beginning
      of a well-formed sequence there or else one byte; a string is cut exactly when more bytes could complete it. */
  lemma ClassifyFindsMaximalSubpart(s: seq<Byte>)
    requires s != []
    ensures match Classify(s)
            case Whole(n) => WellFormed(s[..n])
            case Cut => Begins(s) && forall k :: 1 <= k <= |s| ==> !WellFormed(s[..k])
            case Bad(n) =>
              && (n == 1 || Begins(s[..n]))
              && (forall k :: n < k <= |s| ==> !Begins(s[..k]))
              && (forall k :: 1 <= k <= |s| ==> !WellFormed(s[..k]))
  {
    match Classify(s)
    case Whole(n) =>
    case Cut => assert Begins(s) by { assert WellFormed(Completion(s)); }
    case Bad(n) =>
      if n > 1 {
        assert Begins(s[..n]) by { assert WellFormed(Completion(s[..n])); }
      }
      assert forall k :: n < k <= |s| ==> !Begins(s[..k]);
      assert forall k :: 1 <= k <= |s| ==> !WellFormed(s[..k]);
  }

  lemma EncodeIsWellFormed(c: char)
    ensures WellFormed(Encode(c)) && Scalar(Encode(c)) == c
  {
    var value := c as int;
    assert value / 0x40 == value / 0x1000 * 0x40 + value / 0x40 % 0x40;
    assert value / 0x1000 == value / 0x4_0000 * 0x40 + value / 0x1000 % 0x40;
  }

  lemma SixBits(high: nat, low: nat)
    requires low < 0x40
    ensures (high * 0x40 + low) / 0x40 == high && (high * 0x40 + low) % 0x40 == low
  {
  }

  lemma ScalarOfThreeIsEncoded(s: seq<Byte>)
    requires WellFormed(s) && |s| == 3
    ensures Encode(Scalar(s)) == s
  {
    var value, high := Scalar(s) as int, (s[0] as int - 0xE0) * 0x40 + (s[1] as int - 0x80);
    assert value == high * 0x40 + (s[2] as int - 0x80);
    SixBits(high, s[2] as int - 0x80);
    SixBits(s[0] as int - 0xE0, s[1] as int - 0x80);
    assert value / 0x1000 == high / 0x40;
  }

  lemma ScalarOfFourIsEncoded(s: seq<Byte>)
    requires WellFormed(s) && |s| == 4
    ensures Encode(Scalar(s)) == s
  {
    var value, high := Scalar(s) as int, (s[0] as int - 0xF0) * 0x40 + (s[1] as int - 0x80);
    var middle := high * 0x40 + (s[2] as int - 0x80);
    assert value == middle * 0x40 + (s[3] as int - 0x80);
    SixBits(middle, s[3] as int - 0x80);
    SixBits(high, s[2] as int - 0x80);
    SixBits(s[0] as int - 0xF0, s[1] as int - 0x80);
    assert value / 0x1000 == middle / 0x40 && value / 0x4_0000 == high / 0x40;
  }

  /** Encoding and decoding one scalar value are inverse to each other. */
  lemma ScalarIsEncoded(s: seq<Byte>)
    requires WellFormed(s)
    ensures Encode(Scalar(s)) == s
  {
    if |s| == 2 {
      SixBits(s[0] as int - 0xC0, s[1] as int - 0x80);
    } else if |s| == 3 {
      ScalarOfThreeIsEncoded(s);
    } else if |s| == 4 {
      ScalarOfFourIsEncoded(s);
    }
  }

  /** One-shot lossy decoding: every maximal ill-formed subpart becomes one replacement character. */
  function Lossy(s: seq<Byte>): string
    decreases |s|
  {
    if s == [] then ""
    else match Classify(s)
      case Whole(n) => [Scalar(s[..n])] + Lossy(s[n..])
      case Bad(n) => [REPLACEMENT] + Lossy(s[n..])
      case Cut => [REPLACEMENT]
  }

  // ---- What the characters are ----

  /** A byte below 0x80 stands for the character with that number. */
  lemma AsciiStandsForItself(b: Byte)
    requires b < 0x80
    ensures WellFormed([b]) && Scalar([b]) as int == b && Lossy([b]) == [b as char]
  {
    assert Lossy([b]) == [Scalar([b])] + Lossy([b][1..]);
    assert [b][..1] == [b];
  }

  /** Byte order, as of words in a dictionary. */
  predicate Before(s: seq<Byte>, t: seq<Byte>) {
    t != [] && (s == [] || s[0] < t[0] || (s[0] == t[0] && Before(s[1..], t[1..])))
  }

  lemma ScalarBounds(s: seq<Byte>)
    requires WellFormed(s)
    ensures var value := Scalar(s) as int;
            match |s|
            case 1 => value < 0x80
            case 2 => 0x80 <= value < 0x800
            case 3 => 0x800 <= value < 0x1_0000
            case _ => 0x1_0000 <= value
  {
  }

  lemma LeadsByLength(s: seq<Byte>, t: seq<Byte>)
    requires WellFormed(s) && WellFormed(t) && |s| < |t|
    ensures s[0] < t[0] && Before(s, t) && !Before(t, s) && Scalar(s) < Scalar(t)
  {
    ScalarBounds(s);
    ScalarBounds(t);
  }

  lemma OrderOfThree(s: seq<Byte>, t: seq<Byte>)
    requires WellFormed(s) && WellFormed(t) && |s| == |t| == 3
    ensures Before(s, t) <==> Scalar(s) < Scalar(t)
  {
    assert s[1..][0] == s[1] && t[1..][0] == t[1] && s[1..][1..][0] == s[2] && t[1..][1..][0] == t[2];
    assert s[1..][1..][1..] == [] && t[1..][1..][1..] == [];
    assert Before(s[1..][1..], t[1..][1..]) <==> s[2] < t[2];
    assert Before(s[1..], t[1..]) <==> s[1] < t[1] || (s[1] == t[1] && s[2] < t[2]);
    var a, b := (s[0] as int - 0xE0) * 0x40 + (s[1] as int - 0x80), (t[0] as int - 0xE0) * 0x40 + (t[1] as int - 0x80);
    assert Scalar(s) as int == a * 0x40 + (s[2] as int - 0x80) && Scalar(t) as int == b * 0x40 + (t[2] as int - 0x80);
  }

  lemma OrderOfFour(s: seq<Byte>, t: seq<Byte>)
    requires WellFormed(s) && WellFormed(t) && |s| == |t| == 4
    ensures Before(s, t) <==> Scalar(s) < Scalar(t)
  {
    var s1, t1 := s[1..], t[1..];
    assert s1[0] == s[1] && t1[0] == t[1] && s1[1..][0] == s[2] && t1[1..][0] == t[2];
    assert s1[1..][1..][0] == s[3] && t1[1..][1..][0] == t[3] && s1[1..][1..][1..] == [] && t1[1..][1..][1..] == [];
    assert Before(s1[1..][1..], t1[1..][1..]) <==> s[3] < t[3];
    assert Before(s1[1..], t1[1..]) <==> s[2] < t[2] || (s[2] == t[2] && s[3] < t[3]);
    assert Before(s1, t1) <==> s[1] < t[1] || (s[1] == t[1] && Before(s1[1..], t1[1..]));
    var a, b := (s[0] as int - 0xF0) * 0x40 + (s[1] as int - 0x80), (t[0] as int - 0xF0) * 0x40 + (t[1] as int - 0x80);
    var c, d := a * 0x40 + (s[2] as int - 0x80), b * 0x40 + (t[2] as int - 0x80);
    assert Scalar(s) as int == c * 0x40 + (s[3] as int - 0x80) && Scalar(t) as int == d * 0x40 + (t[3] as int - 0x80);
  }

  /** Well-formed sequences are ordered as the characters they stand for. */
  lemma OrderIsKept(s: seq<Byte>, t: seq<Byte>)
    requires WellFormed(s) && WellFormed(t)
    ensures Before(s, t) <==> Scalar(s) < Scalar(t)
  {
    if |s| < |t| {
      LeadsByLength(s, t);
    } else if |t| < |s| {
      LeadsByLength(t, s);
    } else if |s| == 3 {
      OrderOfThree(s, t);
    } else if |s| == 4 {
      OrderOfFour(s, t);
    } else if |s| == 2 {
      assert s[1..][1..] == [] && t[1..][1..] == [] && s[1..][0] == s[1] && t[1..][0] == t[1];
      assert Before(s[1..], t[1..]) <==> s[1] < t[1];
    } else {
      assert s[1..] == [] && t[1..] == [] && |s| == |t| == 1;
    }
  }

  /** The maximal subpart of an ill-formed string: its longest beginning that begins a well-formed sequence, or else
      one byte. */
  ghost predicate MaximalSubpart(s: seq<Byte>, part: seq<Byte>) {
    && part != [] && part <= s && (|part| == 1 || Begins(part))
    && (forall k :: 1 <= k <= |s| ==> !WellFormed(s[..k]))
    && (forall k :: |part| < k <= |s| ==> !Begins(s[..k]))
  }

  /** The string in parts, one for each character: a well-formed sequence for the character it stands for, a maximal
      ill-formed subpart for U+FFFD. */
  ghost predicate Spells(parts: seq<seq<Byte>>, text: string) {
    && |parts| == |text|
    && forall i :: 0 <= i < |parts| ==>
         if WellFormed(parts[i]) then text[i] == Scalar(parts[i])
         else text[i] == '\U{FFFD}' && MaximalSubpart(Flatten(parts[i..]), parts[i])
  }

  lemma SpellsMore(part: seq<Byte>, parts: seq<seq<Byte>>, c: char, text: string)
    requires Spells(parts, text)
    requires if WellFormed(part) then c == Scalar(part)
             else c == '\U{FFFD}' && MaximalSubpart(part + Flatten(parts), part)
    ensures Spells([part] + parts, [c] + text)
  {
    hide WellFormed, Scalar, MaximalSubpart;
    var all := [part] + parts;
    assert all[0..] == all && all[1..] == parts;
    forall i | 0 < i < |all|
      ensures all[i] == parts[i - 1] && all[i..] == parts[i - 1..] && ([c] + text)[i] == text[i - 1]
    {
    }
  }

  /** Lossy decoding goes through the whole string, part by part. */
  lemma {:induction false} LossySpells(s: seq<Byte>) returns (parts: seq<seq<Byte>>)
    ensures Flatten(parts) == s && Spells(parts, Lossy(s))
    decreases |s|
  {
    parts := [];
    if s != [] {
      ClassifyFindsMaximalSubpart(s);
      hide Classify, Scalar, WellFormed, Begins, Spells;
      match Classify(s) {
        case Whole(n) =>
          hide MaximalSubpart;
          var rest := LossySpells(s[n..]);
          assert s == s[..n] + s[n..];
          SpellsMore(s[..n], rest, Scalar(s[..n]), Lossy(s[n..]));
          parts := [s[..n]] + rest;
        case Bad(n) =>
          assert |s[..n]| == n && !WellFormed(s[..n]) && MaximalSubpart(s, s[..n]);
          hide MaximalSubpart;
          var rest := LossySpells(s[n..]);
          assert s == s[..n] + s[n..];
          SpellsMore(s[..n], rest, REPLACEMENT, Lossy(s[n..]));
          parts := [s[..n]] + rest;
        case Cut =>
          assert s[..|s|] == s && MaximalSubpart(s, s);
          assert Flatten<Byte>([]) == [] && s + [] == s;
          NothingSpells();
          SpellsMore(s, [], REPLACEMENT, "");
          parts := [s];
          assert [s] + [] == [s] && [REPLACEMENT] + "" == [REPLACEMENT];
          FlattenOne(s);
      }
    } else {
      NothingSpells();
    }
  }

  lemma NothingSpells()
    ensures Spells([], "")
  {
  }

  function EncodeAll(text: string): seq<Byte> {
    if text == "" then [] else Encode(text[0]) + EncodeAll(text[1..])
  }

  lemma ClassifyStable(s: seq<Byte>, t: seq<Byte>)
    requires s != [] && Classify(s) != Cut
    ensures Classify(s + t) == Classify(s)
  {
  }

  lemma WellFormedIsWhole(s: seq<Byte>)
    requires WellFormed(s)
    ensures Classify(s) == Whole(|s|)
  {
  }

  /** Lossy decoding loses nothing of text that was encoded. */
  lemma {:induction false} LossyOfEncoded(text: string)
    ensures Lossy(EncodeAll(text)) == text
  {
    if text != "" {
      var first, rest := Encode(text[0]), EncodeAll(text[1..]);
      EncodeIsWellFormed(text[0]);
      WellFormedIsWhole(first);
      ClassifyStable(first, rest);
      assert (first + rest)[..|first|] == first && (first + rest)[|first|..] == rest;
      LossyOfEncoded(text[1..]);
    }
  }
}
