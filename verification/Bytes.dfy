/** Stock result types. */
module Wrappers {
  datatype Option<+T> = None | Some(value: T)
  datatype Result<+T, +E> = Ok(value: T) | Err(error: E)
}

/** Bytes, fixed-width big-endian integers and flattening of sequences of sequences. */
module Bytes {
  type Byte = x: int | 0 <= x < 0x100
  type U16 = x: int | 0 <= x < 0x1_0000
  type U32 = x: int | 0 <= x < 0x1_0000_0000

  function Be16(n: U16): (bytes: seq<Byte>)
    ensures |bytes| == 2
  {
    [n / 0x100, n % 0x100]
  }

  function FromBe16(bytes: seq<Byte>): U16
    requires |bytes| == 2
  {
    bytes[0] as int * 0x100 + bytes[1] as int
  }

  function Be32(n: U32): (bytes: seq<Byte>)
    ensures |bytes| == 4
  {
    [n / 0x100_0000, n / 0x1_0000 % 0x100, n / 0x100 % 0x100, n % 0x100]
  }

  function FromBe32(bytes: seq<Byte>): U32
    requires |bytes| == 4
  {
    bytes[0] as int * 0x100_0000 + bytes[1] as int * 0x1_0000 + bytes[2] as int * 0x100 + bytes[3] as int
  }

  lemma Be16RoundTrip(n: U16)
    ensures FromBe16(Be16(n)) == n
  {
  }

  lemma FromBe16RoundTrip(bytes: seq<Byte>)
    requires |bytes| == 2
    ensures Be16(FromBe16(bytes)) == bytes
  {
    assert Be16(FromBe16(bytes))[0] == bytes[0];
  }

  lemma Be32RoundTrip(n: U32)
    ensures FromBe32(Be32(n)) == n
  {
    assert n / 0x100 == n / 0x1_0000 * 0x100 + n / 0x100 % 0x100;
    assert n / 0x1_0000 == n / 0x100_0000 * 0x100 + n / 0x1_0000 % 0x100;
  }

  lemma FromBe32RoundTrip(bytes: seq<Byte>)
    requires |bytes| == 4
    ensures Be32(FromBe32(bytes)) == bytes
  {
    var m := FromBe32(bytes);
    assert m / 0x100 == bytes[0] as int * 0x1_0000 + bytes[1] as int * 0x100 + bytes[2] as int;
    assert m / 0x1_0000 == bytes[0] as int * 0x100 + bytes[1] as int;
    assert m / 0x100_0000 == bytes[0];
  }

  function Flatten<T>(parts: seq<seq<T>>): seq<T>
  {
    if parts == [] then [] else parts[0] + Flatten(parts[1..])
  }

  lemma {:induction false} FlattenConcat<T>(left: seq<seq<T>>, right: seq<seq<T>>)
    ensures Flatten(left + right) == Flatten(left) + Flatten(right)
  {
    if left == [] {
      assert left + right == right;
    } else {
      assert (left + right)[1..] == left[1..] + right;
      FlattenConcat(left[1..], right);
    }
  }

  lemma FlattenOne<T>(part: seq<T>)
    ensures Flatten([part]) == part
  {
    assert Flatten([part]) == part + Flatten<T>([]);
  }
}
