/**
 * The bounded byte cursor the replay reader decodes from:
 * `Binary_reader<std::string_view>::read_type` (src/binary_reader.h) and
 * `Binary_string_reader::read_bytes` with the `IBinary_reader::read_bytes(int)`
 * wrapper (include/osu_reader/binary_reader.h). The replay reader calls both on
 * one provider, so one cursor field stands for `index` and `pos` alike.
 * A `read_type<T>` reinterprets `sizeof(T)` bytes in place; on the
 * little-endian targets the library is built for that is the little-endian
 * value of those bytes, two's complement for signed types.
 */
module BinaryReader {
  import opened Wrappers

  /** One byte of input (`char` read as `unsigned char`). */
  type Byte = x: int | 0 <= x < 256

  /** The `k` bytes at offset `at`, or `None` when they run past the end of `input`. */
  function Window(input: seq<Byte>, at: nat, k: nat): (r: Option<seq<Byte>>)
    ensures r.Some? <==> at + k <= |input|
    ensures r.Some? ==> |r.value| == k
  {
    if at + k > |input| then None else Some(input[at..at + k])
  }

  /**
   * Two reads in a row succeed exactly when one read of both sizes does, and
   * they hand out the adjoining, non-overlapping byte ranges.
   */
  lemma ConsecutiveWindows(input: seq<Byte>, at: nat, a: nat, b: nat)
    ensures Window(input, at, a + b).Some? <==> Window(input, at, a).Some? && Window(input, at + a, b).Some?
    ensures Window(input, at, a + b).Some? ==>
      Window(input, at, a + b).value == Window(input, at, a).value + Window(input, at + a, b).value
  {
    if at + a + b <= |input| {
      assert input[at..at + a + b] == input[at..at + a] + input[at + a..at + a + b];
    }
  }

  /** `256^k`. */
  function Pow256(k: nat): (p: int)
    ensures p >= 1
  {
    if k == 0 then 1 else 256 * Pow256(k - 1)
  }

  /** The little-endian unsigned value of `bs`. */
  function Unsigned(bs: seq<Byte>): nat
  {
    if bs == [] then 0 else bs[0] + 256 * Unsigned(bs[1..])
  }

  lemma {:induction false} UnsignedBound(bs: seq<Byte>)
    ensures Unsigned(bs) < Pow256(|bs|)
  {
    if bs != [] {
      UnsignedBound(bs[1..]);
    }
  }

  /** The little-endian two's-complement value of `bs`. */
  function Signed(bs: seq<Byte>): int
  {
    var u := Unsigned(bs);
    if bs != [] && 2 * u >= Pow256(|bs|) then u - Pow256(|bs|) else u
  }

  lemma SignedRange(bs: seq<Byte>)
    ensures -Pow256(|bs|) <= 2 * Signed(bs) < Pow256(|bs|)
  {
    UnsignedBound(bs);
  }

  /** The `k` little-endian bytes of `v` modulo `256^k`. */
  function Encode(v: nat, k: nat): (bs: seq<Byte>)
    ensures |bs| == k
  {
    if k == 0 then [] else [v % 256] + Encode(v / 256, k - 1)
  }

  /** Decoding what was encoded gives the value back, for every value that fits. */
  lemma {:induction false} UnsignedOfEncode(v: nat, k: nat)
    requires v < Pow256(k)
    ensures Unsigned(Encode(v, k)) == v
  {
    if k > 0 {
      var bs := Encode(v, k);
      assert bs[1..] == Encode(v / 256, k - 1);
      UnsignedOfEncode(v / 256, k - 1);
    }
  }

  /** Encoding the decoded value gives the bytes back: every byte string is some value's encoding. */
  lemma {:induction false} EncodeOfUnsigned(bs: seq<Byte>)
    ensures Encode(Unsigned(bs), |bs|) == bs
  {
    if bs != [] {
      EncodeOfUnsigned(bs[1..]);
      var u := Unsigned(bs[1..]);
      assert (bs[0] + 256 * u) % 256 == bs[0];
      assert (bs[0] + 256 * u) / 256 == u;
      assert bs == [bs[0]] + bs[1..];
    }
  }

  /** The bytes of a signed value `v` in a `k`-byte field. */
  function EncodeSigned(v: int, k: nat): (bs: seq<Byte>)
    requires -Pow256(k) <= 2 * v < Pow256(k)
    ensures |bs| == k
  {
    Encode(if v < 0 then v + Pow256(k) else v, k)
  }

  lemma SignedOfEncode(v: int, k: nat)
    requires -Pow256(k) <= 2 * v < Pow256(k)
    ensures Signed(EncodeSigned(v, k)) == v
  {
    UnsignedOfEncode(if v < 0 then v + Pow256(k) else v, k);
  }

  /** The unsigned `k`-byte value at `at`. */
  function UnsignedAt(input: seq<Byte>, at: nat, k: nat): (r: Option<nat>)
    ensures r.Some? <==> at + k <= |input|
    ensures r.Some? ==> r.value < Pow256(k)
    ensures r.Some? && k == 1 ==> r.value == input[at]
  {
    match Window(input, at, k)
    case None => None
    case Some(bs) =>
      UnsignedBound(bs);
      assert k == 1 ==> Unsigned(bs) == bs[0] + 256 * Unsigned([]);
      Some(Unsigned(bs))
  }

  /** The signed `k`-byte value at `at`. */
  function SignedAt(input: seq<Byte>, at: nat, k: nat): (r: Option<int>)
    ensures r.Some? <==> at + k <= |input|
  {
    match Window(input, at, k)
    case None => None
    case Some(bs) => Some(Signed(bs))
  }

  /** A value written into the input at `at` is read back. */
  lemma UnsignedAtEncoded(prefix: seq<Byte>, v: nat, k: nat, rest: seq<Byte>)
    requires v < Pow256(k)
    ensures UnsignedAt(prefix + Encode(v, k) + rest, |prefix|, k) == Some(v)
  {
    var input := prefix + Encode(v, k) + rest;
    assert input[|prefix|..|prefix| + k] == Encode(v, k);
    UnsignedOfEncode(v, k);
  }

  class ByteCursor {
    /** The whole input (`std::string_view input`). */
    const input: seq<Byte>
    /** The read position (`index`, or `pos` in `Binary_string_reader`). */
    var index: nat

    /** The position never passes the end of the input. */
    ghost predicate Valid()
      reads this
    {
      index <= |input|
    }

    constructor(input: seq<Byte>)
      ensures this.input == input && index == 0 && Valid()
    {
      this.input := input;
      index := 0;
    }

    /**
     * `read_type<T>` with `sizeof(T) == k`: fails and stays put when the `k`
     * bytes run past the end, otherwise hands them out and moves past them.
     */
    method ReadType(k: nat) returns (r: Option<seq<Byte>>)
      requires Valid()
      modifies this
      ensures Valid()
      ensures r == Window(input, old(index), k)
      ensures index == if r.Some? then old(index) + k else old(index)
    {
      if index + k > |input| {
        return None;
      }
      r := Some(input[index..index + k]);
      index := index + k;
    }

    /** `read_type<T>` for an unsigned `k`-byte `T`. */
    method ReadUnsigned(k: nat) returns (r: Option<nat>)
      requires Valid()
      modifies this
      ensures Valid()
      ensures r == UnsignedAt(input, old(index), k)
      ensures index == if r.Some? then old(index) + k else old(index)
    {
      var bytes := ReadType(k);
      r := if bytes.Some? then Some(Unsigned(bytes.value)) else None;
    }

    /** `read_type<T>` for a signed `k`-byte `T`. */
    method ReadSigned(k: nat) returns (r: Option<int>)
      requires Valid()
      modifies this
      ensures Valid()
      ensures r == SignedAt(input, old(index), k)
      ensures index == if r.Some? then old(index) + k else old(index)
    {
      var bytes := ReadType(k);
      r := if bytes.Some? then Some(Signed(bytes.value)) else None;
    }

    /**
     * `IBinary_reader::read_bytes(int size)` over `Binary_string_reader::read_bytes`:
     * a negative size throws when the buffer `std::vector<char>(size)` is
     * allocated; a size running past the end fails with nothing consumed;
     * otherwise exactly `size` bytes are copied out and the position moves past them.
     */
    method ReadBytes(size: int) returns (r: Outcome<Option<seq<Byte>>>)
      requires Valid()
      modifies this
      ensures Valid()
      ensures r.Throws? <==> size < 0
      ensures size >= 0 ==> r == Done(Window(input, old(index), size))
      ensures index == if r.Done? && r.value.Some? then old(index) + size else old(index)
    {
      if size < 0 {
        return Throws;
      }
      if index + size > |input| {
        return Done(None);
      }
      r := Done(Some(input[index..index + size]));
      index := index + size;
    }
  }
}
