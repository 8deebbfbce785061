/**
 * Decoding of an osu! replay (src/replay_reader.cpp and its templated older
 * revision src/replay_reader.h, which behave the same). `parse_replay` reads
 * 19 fields in a fixed order from the byte cursor and gives up at the first
 * one that fails; `decode_frames` turns the decompressed frame text into
 * frames. The LZMA decompressor is a parameter.
 */
module ReplayReader {
  import opened Wrappers
  import opened BinaryReader
  import opened Strings
  import opened ParseString
  import opened Numerics

  /* ---------------------------------------------------------------------- */
  /* ULEB128 lengths                                                         */
  /* ---------------------------------------------------------------------- */

  /**
   * The end (exclusive) of the LEB128 byte group starting at `at`: every byte
   * with bit 7 set continues the group, the first byte without it closes it.
   * `None` when the input ends first.
   */
  function GroupEnd(input: seq<Byte>, at: nat): (e: Option<nat>)
    ensures e.Some? ==> at < e.value <= |input|
    decreases |input| - at
  {
    if at >= |input| then None
    else if input[at] < 0x80 then Some(at + 1)
    else GroupEnd(input, at + 1)
  }

  /**
   * `sum |= (tmp & 0x7f) << 7 * i` on the 8-bit `sum`: the shifted group sits
   * at bits `7 i` and up, so only for `i == 1` does any of it (its lowest bit,
   * landing on bit 7) survive the narrowing back to 8 bits.
   */
  function Accumulate(sum: Byte, tmp: Byte, i: nat): Byte
  {
    if i == 1 && tmp % 2 == 1 && sum < 0x80 then sum + 0x80 else sum
  }

  /**
   * What `read_uleb128` yields for the group at `at`, and where it stops: the
   * low 7 bits of the first byte, plus bit 0 of the second byte as bit 7.
   */
  function Uleb8At(input: seq<Byte>, at: nat): (r: Option<(Byte, nat)>)
    ensures r.Some? <==> GroupEnd(input, at).Some?
    ensures r.Some? ==> r.value.1 == GroupEnd(input, at).value
  {
    match GroupEnd(input, at)
    case None => None
    case Some(e) =>
      var low := input[at] % 0x80;
      Some((if e - at >= 2 then low + 0x80 * (input[at + 1] % 2) else low, e))
  }

  /** The value the LEB128 group `input[at..e]` encodes (section 7.6 of the DWARF 4 standard). */
  function Leb128Value(input: seq<Byte>, at: nat, e: nat): nat
    requires e <= |input|
    decreases e - at
  {
    if at >= e then 0 else input[at] % 0x80 + 0x80 * Leb128Value(input, at + 1, e)
  }

  /** The LEB128 encoding of `n`. */
  function EncodeLeb128(n: nat): (bs: seq<Byte>)
    ensures |bs| >= 1
  {
    if n < 0x80 then [n] else [n % 0x80 + 0x80] + EncodeLeb128(n / 0x80)
  }

  /** `bs` sits in `input` at offset `at`. */
  predicate Holds(input: seq<Byte>, at: nat, bs: seq<Byte>)
  {
    at + |bs| <= |input| && input[at..at + |bs|] == bs
  }

  /** Two adjoining pieces sit where their concatenation does. */
  lemma HoldsSplit(input: seq<Byte>, at: nat, a: seq<Byte>, b: seq<Byte>)
    requires Holds(input, at, a + b)
    ensures Holds(input, at, a) && Holds(input, at + |a|, b)
  {
    var w := input[at..at + |a| + |b|];
    assert input[at..at + |a|] == w[..|a|];
    assert w[..|a|] == a;
    assert input[at + |a|..at + |a| + |b|] == w[|a|..];
    assert w[|a|..] == b;
  }

  lemma HoldsByte(input: seq<Byte>, at: nat, b: Byte)
    requires Holds(input, at, [b])
    ensures at < |input| && input[at] == b
  {
    assert input[at..at + 1][0] == input[at];
  }

  /** An encoded length is one group, and it decodes to the value encoded. */
  lemma {:induction false} Leb128RoundTrip(input: seq<Byte>, at: nat, n: nat)
    requires Holds(input, at, EncodeLeb128(n))
    ensures GroupEnd(input, at) == Some(at + |EncodeLeb128(n)|)
    ensures Leb128Value(input, at, at + |EncodeLeb128(n)|) == n
    decreases n
  {
    if n < 0x80 {
      HoldsByte(input, at, n);
    } else {
      var b := n % 0x80 + 0x80;
      HoldsSplit(input, at, [b], EncodeLeb128(n / 0x80));
      HoldsByte(input, at, b);
      Leb128RoundTrip(input, at + 1, n / 0x80);
    }
  }

  /**
   * The 8-bit accumulator keeps exactly the low byte of the encoded value:
   * whatever the group, `read_uleb128` gives the true LEB128 value modulo 256.
   */
  lemma Uleb8IsLowByte(input: seq<Byte>, at: nat)
    requires GroupEnd(input, at).Some?
    ensures Uleb8At(input, at).value.0 == Leb128Value(input, at, GroupEnd(input, at).value) % 0x100
  {
    var e := GroupEnd(input, at).value;
    var a0 := input[at] % 0x80;
    if e - at >= 2 {
      var a1 := input[at + 1] % 0x80;
      var rest := Leb128Value(input, at + 2, e);
      assert Leb128Value(input, at, e) == a0 + 0x80 * (a1 + 0x80 * rest);
      assert a0 + 0x80 * (a1 + 0x80 * rest) == (a0 + 0x80 * (a1 % 2)) + 0x100 * (a1 / 2 + 0x40 * rest);
      assert input[at + 1] % 2 == a1 % 2;
    } else {
      assert Leb128Value(input, at, e) == a0 + 0x80 * Leb128Value(input, at + 1, e);
      assert Leb128Value(input, at + 1, e) == 0;
    }
  }

  /** A length encoded by a writer is read back modulo 256: lengths below 256 survive, longer ones do not. */
  lemma Uleb8OfEncoded(input: seq<Byte>, at: nat, n: nat)
    requires Holds(input, at, EncodeLeb128(n))
    ensures Uleb8At(input, at) == Some((n % 0x100, at + |EncodeLeb128(n)|))
  {
    Leb128RoundTrip(input, at, n);
    Uleb8IsLowByte(input, at);
  }

  /** A 300-byte string's length prefix `AC 02` is read as 44. */
  lemma Uleb8Of300()
    ensures EncodeLeb128(300) == [0xAC, 0x02]
    ensures Uleb8At([0xAC, 0x02], 0) == Some((44, 2))
  {
    assert EncodeLeb128(300) == [0xAC, 0x02];
    Uleb8OfEncoded([0xAC, 0x02], 0, 300);
  }

  /* ---------------------------------------------------------------------- */
  /* Fields                                                                  */
  /* ---------------------------------------------------------------------- */

  /** `read_type(std::string&)` at `at`: the string and the position after it. */
  function StringAt(input: seq<Byte>, at: nat): (r: Option<(seq<Byte>, nat)>)
    ensures r.Some? ==> |r.value.0| < 0x100
  {
    match UnsignedAt(input, at, 1)
    case None => Some(([], at))
    case Some(flag) =>
      if flag == 0 then Some(([], at + 1))
      else if flag != 0x0b then None
      else match Uleb8At(input, at + 1)
        case None => None
        case Some(group) =>
          match Window(input, group.1, group.0)
          case None => None
          case Some(bytes) => Some((bytes, group.1 + group.0))
  }

  /** `read_replaydata` at `at`: a signed 4-byte size, then that many bytes; a negative size throws. */
  function ReplayDataAt(input: seq<Byte>, at: nat): (r: Outcome<Option<(seq<Byte>, nat)>>)
    ensures r.Throws? <==> SignedAt(input, at, 4).Some? && SignedAt(input, at, 4).value < 0
  {
    match SignedAt(input, at, 4)
    case None => Done(None)
    case Some(size) =>
      if size < 0 then Throws
      else match Window(input, at + 4, size)
        case None => Done(None)
        case Some(bytes) => Done(Some((bytes, at + 4 + size)))
  }

  /** How one field of a replay is stored. */
  datatype FieldKind =
    | UInt(width: nat)  // an unsigned little-endian integer (also `bool`, `Gamemode`, `Mods`)
    | SInt(width: nat)  // a signed little-endian integer
    | Text              // a flagged, length-prefixed string
    | Data              // the compressed frame data

  /** A decoded field. */
  datatype Value = Num(n: int) | Bytes(b: seq<Byte>)

  /** The values a field of kind `k` can decode to. */
  predicate Fits(k: FieldKind, v: Value)
  {
    match k
    case UInt(w) => v.Num? && 0 <= v.n < Pow256(w)
    case SInt(w) => v.Num? && -Pow256(w) <= 2 * v.n < Pow256(w)
    case Text => v.Bytes? && |v.b| < 0x100
    case Data => v.Bytes? && 2 * |v.b| < Pow256(4)
  }

  predicate Shaped(vs: seq<Value>, ks: seq<FieldKind>)
  {
    |vs| == |ks| && forall i :: 0 <= i < |vs| ==> Fits(ks[i], vs[i])
  }

  /** One field at `at`. */
  function FieldAt(input: seq<Byte>, at: nat, k: FieldKind): Outcome<Option<(Value, nat)>>
  {
    match k
    case UInt(w) =>
      (match UnsignedAt(input, at, w)
       case None => Done(None)
       case Some(n) => Done(Some((Num(n), at + w))))
    case SInt(w) =>
      (match SignedAt(input, at, w)
       case None => Done(None)
       case Some(n) => Done(Some((Num(n), at + w))))
    case Text =>
      (match StringAt(input, at)
       case None => Done(None)
       case Some(s) => Done(Some((Bytes(s.0), s.1))))
    case Data =>
      (match ReplayDataAt(input, at)
       case Throws => Throws
       case Done(None) => Done(None)
       case Done(Some(d)) => Done(Some((Bytes(d.0), d.1))))
  }

  /** A field that was read has a value its kind allows, and the reader did not move back. */
  lemma FieldFits(input: seq<Byte>, at: nat, k: FieldKind)
    requires FieldAt(input, at, k).Done? && FieldAt(input, at, k).value.Some?
    ensures Fits(k, FieldAt(input, at, k).value.value.0) && at <= FieldAt(input, at, k).value.value.1
  {
    match k
    case UInt(w) =>
    case SInt(w) =>
      SignedRange(Window(input, at, w).value);
    case Text =>
    case Data =>
      SignedRange(Window(input, at, 4).value);
  }

  /** The fields `ks` one after another from `at`, stopping at the first that fails. */
  function FieldsAt(input: seq<Byte>, at: nat, ks: seq<FieldKind>): Outcome<Option<(seq<Value>, nat)>>
    decreases |ks|
  {
    if ks == [] then Done(Some(([], at)))
    else match FieldAt(input, at, ks[0])
      case Throws => Throws
      case Done(None) => Done(None)
      case Done(Some(first)) => Prepend(first.0, FieldsAt(input, first.1, ks[1..]))
  }

  /** Every field chain that succeeds yields one fitting value per field. */
  lemma {:induction false} FieldsShape(input: seq<Byte>, at: nat, ks: seq<FieldKind>)
    requires FieldsAt(input, at, ks).Done? && FieldsAt(input, at, ks).value.Some?
    ensures Shaped(FieldsAt(input, at, ks).value.value.0, ks)
    decreases |ks|
  {
    if ks != [] {
      var first := FieldAt(input, at, ks[0]).value.value;
      FieldFits(input, at, ks[0]);
      FieldsShape(input, first.1, ks[1..]);
      var vs := FieldsAt(input, at, ks).value.value.0;
      assert vs == [first.0] + FieldsAt(input, first.1, ks[1..]).value.value.0;
      forall i | 0 <= i < |vs|
        ensures Fits(ks[i], vs[i])
      {
        if i > 0 {
          assert vs[i] == FieldsAt(input, first.1, ks[1..]).value.value.0[i - 1];
        }
      }
    }
  }

  /** The chain after a field that was read: that field, then the rest of the chain. */
  lemma FieldsAtCons(input: seq<Byte>, at: nat, ks: seq<FieldKind>, v: Value, e: nat)
    requires ks != [] && FieldAt(input, at, ks[0]) == Done(Some((v, e)))
    ensures FieldsAt(input, at, ks) == Prepend(v, FieldsAt(input, e, ks[1..]))
  {
  }

  function Prepend(v: Value, r: Outcome<Option<(seq<Value>, nat)>>): Outcome<Option<(seq<Value>, nat)>>
  {
    match r
    case Throws => Throws
    case Done(None) => Done(None)
    case Done(Some(rest)) => Done(Some(([v] + rest.0, rest.1)))
  }

  /** The fields of a replay, in the order `parse_replay` reads them. */
  const Layout: seq<FieldKind> := [
    UInt(1),                                     // mode
    SInt(4),                                     // game_version
    Text, Text, Text,                            // map_hash, player_name, replay_hash
    UInt(2), UInt(2), UInt(2), UInt(2), UInt(2), // count_300, count_100, count_50, count_geki, count_katsu
    UInt(2),                                     // count_miss
    SInt(4),                                     // score
    UInt(2),                                     // max_combo
    UInt(1),                                     // full_combo
    UInt(4),                                     // mods
    Text,                                        // life_bar
    UInt(8),                                     // time_stamp
    Data,                                        // replay_compressed
    SInt(8)                                      // score_id
  ]

  /** The decoded header of a replay (`Replay` without its frames). */
  datatype Replay = Replay(
    mode: Byte,
    gameVersion: int,
    mapHash: seq<Byte>,
    playerName: seq<Byte>,
    replayHash: seq<Byte>,
    count300: nat,
    count100: nat,
    count50: nat,
    countGeki: nat,
    countKatsu: nat,
    countMiss: nat,
    score: int,
    maxCombo: nat,
    fullCombo: bool,
    mods: nat,
    lifeBar: seq<Byte>,
    /** Nanoseconds since the epoch of the time point. */
    timeStamp: int,
    replayCompressed: seq<Byte>,
    scoreId: int)

  const TwoTo63: int := 0x8000_0000_0000_0000

  /** A value narrowed to `int64_t`, two's complement. */
  function Wrap64(x: int): (r: int)
    ensures -TwoTo63 <= r < TwoTo63
    ensures (r - x) % (2 * TwoTo63) == 0
  {
    (x + TwoTo63) % (2 * TwoTo63) - TwoTo63
  }

  /**
   * The `time_point<nanoseconds>` built from the stored `uint64_t` count of
   * 100 ns ticks: the count becomes an `int64_t` tick count and is scaled to
   * nanoseconds in 64-bit arithmetic.
   */
  function Nanoseconds(ticks: nat): (r: int)
    ensures -TwoTo63 <= r < TwoTo63
    ensures 100 * ticks < TwoTo63 ==> r == 100 * ticks
    ensures (r - 100 * ticks) % (2 * TwoTo63) == 0
  {
    ScaledWrap(ticks, Wrap64(ticks));
    Wrap64(100 * Wrap64(ticks))
  }

  /** Scaling a value congruent to `ticks` modulo 2^64 keeps it congruent to the scaled `ticks`. */
  lemma ScaledWrap(ticks: int, w: int)
    requires (w - ticks) % (2 * TwoTo63) == 0
    ensures (Wrap64(100 * w) - 100 * ticks) % (2 * TwoTo63) == 0
  {
    var m := 2 * TwoTo63;
    var q := (w - ticks) / m;
    assert w - ticks == m * q;
    var q2 := (Wrap64(100 * w) - 100 * w) / m;
    assert Wrap64(100 * w) - 100 * w == m * q2;
    assert Wrap64(100 * w) - 100 * ticks == m * (q2 + 100 * q);
  }

  /** The replay made of the 19 decoded fields. */
  function ToReplay(vs: seq<Value>): (r: Replay)
    requires Shaped(vs, Layout)
    ensures r.mode == vs[0].n && r.mapHash == vs[2].b && r.lifeBar == vs[15].b && r.replayCompressed == vs[17].b
  {
    Replay(vs[0].n, vs[1].n, vs[2].b, vs[3].b, vs[4].b,
      vs[5].n, vs[6].n, vs[7].n, vs[8].n, vs[9].n, vs[10].n,
      vs[11].n, vs[12].n, vs[13].n != 0, vs[14].n, vs[15].b,
      Nanoseconds(vs[16].n), vs[17].b, vs[18].n)
  }

  /** `parse_replay` on a fresh cursor over `input`. */
  function ParseReplaySpec(input: seq<Byte>): Outcome<Option<Replay>>
  {
    match FieldsAt(input, 0, Layout)
    case Throws => Throws
    case Done(None) => Done(None)
    case Done(Some(fields)) =>
      FieldsShape(input, 0, Layout);
      Done(Some(ToReplay(fields.0)))
  }

  /* ---------------------------------------------------------------------- */
  /* Writing replays: the partner of reading them                            */
  /* ---------------------------------------------------------------------- */

  /** The bytes a writer stores for value `v` of kind `k`; nothing for a value the kind cannot hold. */
  function EncodeField(k: FieldKind, v: Value): seq<Byte>
  {
    if !Fits(k, v) then [] else
    match k
    case UInt(w) => Encode(v.n, w)
    case SInt(w) => EncodeSigned(v.n, w)
    case Text => if v.b == [] then [0] else [0x0b] + EncodeLeb128(|v.b|) + v.b
    case Data => EncodeSigned(|v.b|, 4) + v.b
  }

  function EncodeFields(ks: seq<FieldKind>, vs: seq<Value>): seq<Byte>
    requires |vs| == |ks|
    decreases |ks|
  {
    if ks == [] then [] else EncodeField(ks[0], vs[0]) + EncodeFields(ks[1..], vs[1..])
  }

  /** A string written by a writer (shorter than 256 bytes) is read back whole. */
  lemma StringOfEncoded(input: seq<Byte>, at: nat, b: seq<Byte>)
    requires |b| < 0x100 && Holds(input, at, EncodeField(Text, Bytes(b)))
    ensures StringAt(input, at) == Some((b, at + |EncodeField(Text, Bytes(b))|))
  {
    hide Uleb8At, GroupEnd, EncodeLeb128, Encode, EncodeSigned, Unsigned;
    if b == [] {
      HoldsByte(input, at, 0);
    } else {
      var len := EncodeLeb128(|b|);
      assert EncodeField(Text, Bytes(b)) == [0x0b] + (len + b);
      HoldsSplit(input, at, [0x0b], len + b);
      HoldsByte(input, at, 0x0b);
      HoldsSplit(input, at + 1, len, b);
      Uleb8OfEncoded(input, at + 1, |b|);
    }
  }

  /** Frame data written by a writer is read back whole. */
  lemma ReplayDataOfEncoded(input: seq<Byte>, at: nat, b: seq<Byte>)
    requires 2 * |b| < Pow256(4) && Holds(input, at, EncodeField(Data, Bytes(b)))
    ensures ReplayDataAt(input, at) == Done(Some((b, at + |EncodeField(Data, Bytes(b))|)))
  {
    HoldsSplit(input, at, EncodeSigned(|b|, 4), b);
    SignedOfEncode(|b|, 4);
  }

  /** A field written by a writer is read back whole, and the reader stops right after it. */
  lemma FieldOfEncoded(input: seq<Byte>, at: nat, k: FieldKind, v: Value)
    requires Fits(k, v) && Holds(input, at, EncodeField(k, v))
    ensures FieldAt(input, at, k) == Done(Some((v, at + |EncodeField(k, v)|)))
  {
    match k
    case UInt(w) =>
      UnsignedOfEncode(v.n, w);
    case SInt(w) =>
      SignedOfEncode(v.n, w);
    case Text =>
      StringOfEncoded(input, at, v.b);
    case Data =>
      ReplayDataOfEncoded(input, at, v.b);
  }

  /** Written fields sit where they are: the first field first, the others right after it. */
  lemma EncodedSplit(input: seq<Byte>, at: nat, ks: seq<FieldKind>, vs: seq<Value>)
    requires |vs| == |ks| && ks != [] && Holds(input, at, EncodeFields(ks, vs))
    ensures var first := EncodeField(ks[0], vs[0]);
      && Holds(input, at, first)
      && Holds(input, at + |first|, EncodeFields(ks[1..], vs[1..]))
      && |EncodeFields(ks, vs)| == |first| + |EncodeFields(ks[1..], vs[1..])|
  {
    var first := EncodeField(ks[0], vs[0]);
    var tail := EncodeFields(ks[1..], vs[1..]);
    assert EncodeFields(ks, vs) == first + tail;
    HoldsSplit(input, at, first, tail);
  }

  /** Where a writer puts each field: the first at `at`, each next one where the previous ends, and the end last. */
  function Positions(at: nat, ks: seq<FieldKind>, vs: seq<Value>): (ps: seq<nat>)
    requires |vs| == |ks|
    ensures |ps| == |ks| + 1 && ps[0] == at && ps[|ks|] == at + |EncodeFields(ks, vs)|
    decreases |ks|
  {
    hide EncodeField;
    if ks == [] then [at] else [at] + Positions(at + |EncodeField(ks[0], vs[0])|, ks[1..], vs[1..])
  }

  /** Each piece `i` a writer stores sits at `ps[i]` and ends where piece `i + 1` starts. */
  predicate PiecesAt(input: seq<Byte>, ks: seq<FieldKind>, vs: seq<Value>, ps: seq<nat>)
    requires |vs| == |ks| && |ps| == |ks| + 1
  {
    forall i {:trigger Holds(input, ps[i], EncodeField(ks[i], vs[i]))} :: 0 <= i < |ks| ==>
      ps[i + 1] == ps[i] + |EncodeField(ks[i], vs[i])| && Holds(input, ps[i], EncodeField(ks[i], vs[i]))
  }

  /** The written fields sit one after another from `at`, at the positions the writer chose. */
  lemma {:induction false} EncodedPieces(input: seq<Byte>, at: nat, ks: seq<FieldKind>, vs: seq<Value>)
    requires |vs| == |ks| && Holds(input, at, EncodeFields(ks, vs))
    ensures PiecesAt(input, ks, vs, Positions(at, ks, vs))
    decreases |ks|
  {
    hide Holds, EncodeField, EncodeFields;
    if ks != [] {
      EncodedSplit(input, at, ks, vs);
      var n1 := |EncodeField(ks[0], vs[0])|;
      EncodedPieces(input, at + n1, ks[1..], vs[1..]);
      var ps := Positions(at, ks, vs);
      var tail := Positions(at + n1, ks[1..], vs[1..]);
      assert ps == [at] + tail;
      forall i | 0 <= i < |ks|
        ensures ps[i + 1] == ps[i] + |EncodeField(ks[i], vs[i])| && Holds(input, ps[i], EncodeField(ks[i], vs[i]))
      {
        if i == 0 {
          assert ps[0] == at && ps[1] == tail[0] == at + n1;
        } else {
          var j := i - 1;
          assert ks[i] == ks[1..][j] && vs[i] == vs[1..][j];
          assert ps[i] == tail[j] && ps[i + 1] == tail[j + 1];
          assert Holds(input, tail[j], EncodeField(ks[1..][j], vs[1..][j]));
          assert tail[j + 1] == tail[j] + |EncodeField(ks[1..][j], vs[1..][j])|;
        }
      }
    }
  }

  /** Field `i` of kind `ks[i]` reads as `vs[i]` from `ps[i]`, ending at `ps[i + 1]`. */
  predicate ReadsAt(input: seq<Byte>, ks: seq<FieldKind>, vs: seq<Value>, ps: seq<nat>)
    requires |vs| == |ks| && |ps| == |ks| + 1
  {
    forall i {:trigger FieldAt(input, ps[i], ks[i])} :: 0 <= i < |ks| ==> FieldAt(input, ps[i], ks[i]) == Done(Some((vs[i], ps[i + 1])))
  }

  /** Every written piece is read back on its own, as the value it was written from. */
  lemma PiecesRead(input: seq<Byte>, ks: seq<FieldKind>, vs: seq<Value>, ps: seq<nat>)
    requires Shaped(vs, ks) && |ps| == |ks| + 1 && PiecesAt(input, ks, vs, ps)
    ensures ReadsAt(input, ks, vs, ps)
  {
    hide FieldAt, EncodeField;
    forall i | 0 <= i < |ks|
      ensures FieldAt(input, ps[i], ks[i]) == Done(Some((vs[i], ps[i + 1])))
    {
      FieldOfEncoded(input, ps[i], ks[i], vs[i]);
    }
  }

  /** Fields that each read back from adjoining positions read back together as the chain. */
  lemma {:induction false} ChainOfReads(input: seq<Byte>, ks: seq<FieldKind>, vs: seq<Value>, ps: seq<nat>)
    requires |vs| == |ks| && |ps| == |ks| + 1 && ReadsAt(input, ks, vs, ps)
    ensures FieldsAt(input, ps[0], ks) == Done(Some((vs, ps[|ks|])))
    decreases |ks|
  {
    if ks != [] {
      assert FieldAt(input, ps[0], ks[0]) == Done(Some((vs[0], ps[1])));
      forall i | 0 <= i < |ks| - 1
        ensures FieldAt(input, ps[1..][i], ks[1..][i]) == Done(Some((vs[1..][i], ps[1..][i + 1])))
      {
        assert FieldAt(input, ps[i + 1], ks[i + 1]) == Done(Some((vs[i + 1], ps[i + 2])));
      }
      ChainOfReads(input, ks[1..], vs[1..], ps[1..]);
      FieldsAtCons(input, ps[0], ks, vs[0], ps[1]);
      assert [vs[0]] + vs[1..] == vs;
    }
  }

  /** Fields written one after another are read back, in order, by the field chain. */
  lemma FieldsOfEncoded(input: seq<Byte>, at: nat, ks: seq<FieldKind>, vs: seq<Value>)
    requires Shaped(vs, ks) && Holds(input, at, EncodeFields(ks, vs))
    ensures FieldsAt(input, at, ks) == Done(Some((vs, at + |EncodeFields(ks, vs)|)))
  {
    hide FieldAt, EncodeField;
    EncodedPieces(input, at, ks, vs);
    PiecesRead(input, ks, vs, Positions(at, ks, vs));
    ChainOfReads(input, ks, vs, Positions(at, ks, vs));
  }

  /** A replay written field by field parses back to the replay of those fields. */
  lemma ParseOfEncoded(vs: seq<Value>)
    requires Shaped(vs, Layout)
    ensures ParseReplaySpec(EncodeFields(Layout, vs)) == Done(Some(ToReplay(vs)))
  {
    hide FieldAt, EncodeField;
    var input := EncodeFields(Layout, vs);
    assert input[0..|input|] == input;
    FieldsOfEncoded(input, 0, Layout, vs);
  }

  /** Input that ends before the first field is rejected, whatever came before. */
  lemma ParseEmpty()
    ensures ParseReplaySpec([]) == Done(None)
  {
  }

  /* ---------------------------------------------------------------------- */
  /* The reader                                                              */
  /* ---------------------------------------------------------------------- */

  /** `Replay_reader` over its byte provider. */
  class ReplayReader {
    const provider: ByteCursor

    constructor(provider: ByteCursor)
      ensures this.provider == provider
    {
      this.provider := provider;
    }

    /** `read_uleb128`: reads bytes while bit 7 is set, keeping 8 bits of the sum. */
    method ReadUleb128() returns (r: Option<int>)
      requires provider.Valid()
      modifies provider
      ensures provider.Valid()
      ensures r.Some? <==> Uleb8At(provider.input, old(provider.index)).Some?
      ensures r.Some? ==> (r.value == Uleb8At(provider.input, old(provider.index)).value.0
                           && provider.index == Uleb8At(provider.input, old(provider.index)).value.1)
    {
      ghost var input := provider.input;
      ghost var at := provider.index;
      var first := provider.ReadUnsigned(1);
      if first.None? {
        return None;
      }
      var tmp: Byte := first.value;
      assert tmp == input[at];
      var sum: Byte := tmp % 0x80;
      var i := 1;
      while tmp >= 0x80
        invariant provider.Valid() && provider.input == input
        invariant at < provider.index && i == provider.index - at
        invariant tmp == input[provider.index - 1]
        invariant sum == input[at] % 0x80 + (if i >= 2 then 0x80 * (input[at + 1] % 2) else 0)
        invariant tmp >= 0x80 ==> GroupEnd(input, at) == GroupEnd(input, provider.index)
        invariant tmp < 0x80 ==> GroupEnd(input, at) == Some(provider.index)
        decreases |input| - provider.index
      {
        var next := provider.ReadUnsigned(1);
        if next.None? {
          return None;
        }
        tmp := next.value;
        sum := Accumulate(sum, tmp, i);
        i := i + 1;
      }
      r := Some(sum);
    }

    /** `read_type(std::string&)`: the string on success. */
    method ReadString() returns (r: Option<seq<Byte>>)
      requires provider.Valid()
      modifies provider
      ensures provider.Valid()
      ensures r.Some? <==> StringAt(provider.input, old(provider.index)).Some?
      ensures r.Some? ==> (r.value == StringAt(provider.input, old(provider.index)).value.0
                           && provider.index == StringAt(provider.input, old(provider.index)).value.1)
    {
      var flag := provider.ReadUnsigned(1);
      if flag.None? || flag.value == 0 {
        return Some([]);
      }
      if flag.value != 0x0b {
        return None;
      }
      var length := ReadUleb128();
      if length.None? {
        return None;
      }
      var bytes := provider.ReadBytes(length.value);
      if bytes.value.None? {
        return None;
      }
      r := Some(bytes.value.value);
    }

    /** `read_replaydata`. */
    method ReadReplayData() returns (r: Outcome<Option<seq<Byte>>>)
      requires provider.Valid()
      modifies provider
      ensures provider.Valid()
      ensures r.Throws? <==> ReplayDataAt(provider.input, old(provider.index)).Throws?
      ensures r.Done? ==> (r.value.Some? <==> ReplayDataAt(provider.input, old(provider.index)).value.Some?)
      ensures r.Done? && r.value.Some? ==>
        (r.value.value == ReplayDataAt(provider.input, old(provider.index)).value.value.0
         && provider.index == ReplayDataAt(provider.input, old(provider.index)).value.value.1)
    {
      var size := provider.ReadSigned(4);
      if size.None? {
        return Done(None);
      }
      r := provider.ReadBytes(size.value);
    }

    /** The `read_type` overload that reads a field of kind `k`. */
    method ReadField(k: FieldKind) returns (r: Outcome<Option<Value>>)
      requires provider.Valid()
      modifies provider
      ensures provider.Valid()
      ensures r.Throws? <==> FieldAt(provider.input, old(provider.index), k).Throws?
      ensures r.Done? ==> (r.value.Some? <==> FieldAt(provider.input, old(provider.index), k).value.Some?)
      ensures r.Done? && r.value.Some? ==>
        (r.value.value == FieldAt(provider.input, old(provider.index), k).value.value.0
         && provider.index == FieldAt(provider.input, old(provider.index), k).value.value.1)
    {
      match k
      case UInt(w) =>
        var n := provider.ReadUnsigned(w);
        r := if n.Some? then Done(Some(Num(n.value))) else Done(None);
      case SInt(w) =>
        var n := provider.ReadSigned(w);
        r := if n.Some? then Done(Some(Num(n.value))) else Done(None);
      case Text =>
        var s := ReadString();
        r := if s.Some? then Done(Some(Bytes(s.value))) else Done(None);
      case Data =>
        var d := ReadReplayData();
        r := if d.Throws? then Throws else if d.value.Some? then Done(Some(Bytes(d.value.value))) else Done(None);
    }

    /** The reads of the fields `ks` one after another, giving up at the first that fails. */
    method ReadFields(ks: seq<FieldKind>) returns (r: Outcome<Option<seq<Value>>>)
      requires provider.Valid()
      modifies provider
      ensures provider.Valid()
      ensures r.Throws? <==> FieldsAt(provider.input, old(provider.index), ks).Throws?
      ensures r.Done? ==> (r.value.Some? <==> FieldsAt(provider.input, old(provider.index), ks).value.Some?)
      ensures r.Done? && r.value.Some? ==>
        (r.value.value == FieldsAt(provider.input, old(provider.index), ks).value.value.0
         && provider.index == FieldsAt(provider.input, old(provider.index), ks).value.value.1)
    {
      ghost var input := provider.input;
      ghost var goal := FieldsAt(input, provider.index, ks);
      var values: seq<Value> := [];
      assert ks[0..] == ks;
      assert PrependAll([], goal) == goal by {
        if goal.Done? && goal.value.Some? {
          assert [] + goal.value.value.0 == goal.value.value.0;
        }
      }
      for k := 0 to |ks|
        invariant provider.Valid() && provider.input == input
        invariant goal == PrependAll(values, FieldsAt(input, provider.index, ks[k..]))
      {
        ghost var at := provider.index;
        assert ks[k..][1..] == ks[k + 1..];
        var field := ReadField(ks[k]);
        if field.Throws? {
          return Throws;
        }
        if field.value.None? {
          return Done(None);
        }
        FieldsAtCons(input, at, ks[k..], field.value.value, provider.index);
        PrependAllSnoc(values, field.value.value, FieldsAt(input, provider.index, ks[k + 1..]));
        values := values + [field.value.value];
      }
      assert ks[|ks|..] == [];
      assert values + [] == values;
      r := Done(Some(values));
    }

    /**
     * `parse_replay`: the `&&` chain of field reads in `Layout` order, giving
     * up at the first read that fails.
     */
    method ParseReplay() returns (r: Outcome<Option<Replay>>)
      requires provider.Valid() && provider.index == 0
      modifies provider
      ensures provider.Valid()
      ensures r == ParseReplaySpec(provider.input)
    {
      var fields := ReadFields(Layout);
      if fields.Throws? {
        return Throws;
      }
      if fields.value.None? {
        return Done(None);
      }
      FieldsShape(provider.input, 0, Layout);
      r := Done(Some(ToReplay(fields.value.value)));
    }
  }

  /** `Prepend` for several values. */
  function PrependAll(vs: seq<Value>, r: Outcome<Option<(seq<Value>, nat)>>): Outcome<Option<(seq<Value>, nat)>>
  {
    match r
    case Throws => Throws
    case Done(None) => Done(None)
    case Done(Some(rest)) => Done(Some((vs + rest.0, rest.1)))
  }

  lemma PrependAllSnoc(vs: seq<Value>, v: Value, r: Outcome<Option<(seq<Value>, nat)>>)
    ensures PrependAll(vs, Prepend(v, r)) == PrependAll(vs + [v], r)
  {
    if r.Done? && r.value.Some? {
      assert vs + ([v] + r.value.value.0) == (vs + [v]) + r.value.value.0;
    }
  }

  /* ---------------------------------------------------------------------- */
  /* Frames                                                                  */
  /* ---------------------------------------------------------------------- */

  /** `Replay::Replay_frame`. */
  datatype Frame = Frame(time: int, x: real, y: real, state: int)

  /** `parse_value<int>`, 0 when the token is not an `int`. */
  function IntOf(token: string): int
  {
    OrElse(FromChars(token, true, Int32Min, Int32Max), 0)
  }

  /** The frame of a 4-token record whose time has been accumulated to `time`. */
  function FrameOf(num: Numerics, tokens: seq<string>, time: int): Frame
    requires |tokens| == 4
  {
    Frame(time, num.stof(tokens[1]), num.stof(tokens[2]), IntOf(tokens[3]))
  }

  /** The frame loop over the comma-separated `lines`, the running time starting at `time`. */
  function FramesOf(num: Numerics, lines: seq<string>, time: int): Option<seq<Frame>>
    decreases |lines|
  {
    if lines == [] then Some([])
    else
      var tokens := Tokens(lines[0], '|');
      if tokens == [] then FramesOf(num, lines[1..], time)
      else if |tokens| != 4 then None
      else
        var t := time + IntOf(tokens[0]);
        Cons(FrameOf(num, tokens, t), FramesOf(num, lines[1..], t))
  }

  /** A frame in front of the frames that follow, unless those failed. */
  function Cons(f: Frame, r: Option<seq<Frame>>): Option<seq<Frame>>
  {
    if r.None? then None else Some([f] + r.value)
  }

  /** One step of the frame loop on its first line. */
  lemma FramesStep(num: Numerics, lines: seq<string>, time: int)
    requires lines != []
    ensures var tokens := Tokens(lines[0], '|');
      FramesOf(num, lines, time)
      == if tokens == [] then FramesOf(num, lines[1..], time)
         else if |tokens| != 4 then None
         else Cons(FrameOf(num, tokens, time + IntOf(tokens[0])), FramesOf(num, lines[1..], time + IntOf(tokens[0])))
  {
  }

  /** One step of `Records` on its first line. */
  lemma RecordsStep(lines: seq<string>)
    requires lines != []
    ensures var tokens := Tokens(lines[0], '|');
      Records(lines) == if tokens == [] then Records(lines[1..]) else [tokens] + Records(lines[1..])
  {
    var tokens := Tokens(lines[0], '|');
    if tokens == [] {
      assert [] + Records(lines[1..]) == Records(lines[1..]);
    }
  }

  /** One step of the frame loop at line `i`. */
  lemma FramesOfDrop(num: Numerics, lines: seq<string>, i: nat, time: int)
    requires i < |lines|
    ensures var tokens := Tokens(lines[i], '|');
      FramesOf(num, lines[i..], time)
      == if tokens == [] then FramesOf(num, lines[i + 1..], time)
         else if |tokens| != 4 then None
         else Cons(FrameOf(num, tokens, time + IntOf(tokens[0])), FramesOf(num, lines[i + 1..], time + IntOf(tokens[0])))
  {
    assert lines[i..][0] == lines[i];
    assert lines[i..][1..] == lines[i + 1..];
  }

  /** `decode_frames`: throws when built without LZMA; `lzma` is `lzma_decode`. */
  function DecodeFramesSpec(num: Numerics, lzma: seq<Byte> -> Option<string>, lzmaEnabled: bool,
                            compressed: seq<Byte>): Outcome<Option<seq<Frame>>>
  {
    if !lzmaEnabled then Throws
    else match lzma(compressed)
      case None => Done(None)
      case Some(text) => Done(FramesOf(num, Tokens(text, ','), 0))
  }

  /** The records of `lines`: the `|`-tokens of every line that has any. */
  function Records(lines: seq<string>): (recs: seq<seq<string>>)
    ensures NonEmpty(recs)
    decreases |lines|
  {
    if lines == [] then []
    else
      var tokens := Tokens(lines[0], '|');
      (if tokens == [] then [] else [tokens]) + Records(lines[1..])
  }

  /** Every record has a token (the time delta). */
  predicate NonEmpty(recs: seq<seq<string>>)
  {
    forall i :: 0 <= i < |recs| ==> recs[i] != []
  }

  /** Every record has exactly 4 tokens. */
  predicate AllFour(recs: seq<seq<string>>)
  {
    forall i :: 0 <= i < |recs| ==> |recs[i]| == 4
  }

  /** The sum of the time deltas of `recs`. */
  function DeltaSum(recs: seq<seq<string>>): int
    requires NonEmpty(recs)
  {
    if recs == [] then 0 else IntOf(recs[0][0]) + DeltaSum(recs[1..])
  }

  /** The frames of well-formed records, each at the running sum of the deltas so far. */
  function FramesOfRecords(num: Numerics, recs: seq<seq<string>>, time: int): (fs: seq<Frame>)
    requires AllFour(recs)
    ensures |fs| == |recs|
  {
    if recs == [] then []
    else
      var t := time + IntOf(recs[0][0]);
      [FrameOf(num, recs[0], t)] + FramesOfRecords(num, recs[1..], t)
  }

  /** The frame loop fails exactly when some record does not have 4 tokens. */
  lemma {:induction false} FramesAllOrNothing(num: Numerics, lines: seq<string>, time: int)
    ensures FramesOf(num, lines, time).Some? <==> AllFour(Records(lines))
    decreases |lines|
  {
    hide FrameOf, IntOf;
    if lines != [] {
      var tokens := Tokens(lines[0], '|');
      var rest := Records(lines[1..]);
      FramesStep(num, lines, time);
      RecordsStep(lines);
      if tokens == [] {
        FramesAllOrNothing(num, lines[1..], time);
      } else {
        AllFourCons(tokens, rest);
        assert Records(lines) == [tokens] + rest;
        if |tokens| == 4 {
          var t := time + IntOf(tokens[0]);
          assert FramesOf(num, lines, time) == Cons(FrameOf(num, tokens, t), FramesOf(num, lines[1..], t));
          FramesAllOrNothing(num, lines[1..], t);
        }
      }
    }
  }

  /** When it succeeds, the frame loop yields one frame per record, in order. */
  lemma {:induction false} FramesPerRecord(num: Numerics, lines: seq<string>, time: int)
    requires AllFour(Records(lines))
    ensures FramesOf(num, lines, time) == Some(FramesOfRecords(num, Records(lines), time))
    decreases |lines|
  {
    hide FrameOf, IntOf;
    if lines != [] {
      var tokens := Tokens(lines[0], '|');
      var rest := Records(lines[1..]);
      FramesStep(num, lines, time);
      RecordsStep(lines);
      if tokens != [] {
        AllFourCons(tokens, rest);
        var t := time + IntOf(tokens[0]);
        FramesPerRecord(num, lines[1..], t);
        RecordsCons(num, tokens, rest, time);
      } else {
        FramesPerRecord(num, lines[1..], time);
      }
    }
  }

  lemma RecordsCons(num: Numerics, r: seq<string>, rest: seq<seq<string>>, time: int)
    requires |r| == 4 && AllFour(rest)
    ensures AllFour([r] + rest)
    ensures FramesOfRecords(num, [r] + rest, time)
         == [FrameOf(num, r, time + IntOf(r[0]))] + FramesOfRecords(num, rest, time + IntOf(r[0]))
  {
    AllFourCons(r, rest);
    var recs := [r] + rest;
    assert recs[0] == r;
    assert recs[1..] == rest;
  }

  lemma AllFourCons(r: seq<string>, rest: seq<seq<string>>)
    ensures AllFour([r] + rest) <==> |r| == 4 && AllFour(rest)
  {
    if |r| == 4 && AllFour(rest) {
      forall i | 0 <= i < |[r] + rest|
        ensures |([r] + rest)[i]| == 4
      {
        if i > 0 {
          assert ([r] + rest)[i] == rest[i - 1];
        }
      }
    }
    if AllFour([r] + rest) {
      assert |([r] + rest)[0]| == 4;
      forall i | 0 <= i < |rest|
        ensures |rest[i]| == 4
      {
        assert rest[i] == ([r] + rest)[i + 1];
      }
    }
  }

  /** One step of `FramesOfRecords` on its first record. */
  lemma FramesOfRecordsStep(num: Numerics, recs: seq<seq<string>>, time: int)
    requires AllFour(recs) && recs != []
    ensures AllFour(recs[1..])
    ensures FramesOfRecords(num, recs, time)
         == [FrameOf(num, recs[0], time + IntOf(recs[0][0]))] + FramesOfRecords(num, recs[1..], time + IntOf(recs[0][0]))
  {
    assert recs == [recs[0]] + recs[1..];
    AllFourCons(recs[0], recs[1..]);
  }

  /** The delta sum of a non-empty prefix starts with the first record's delta. */
  lemma DeltaSumStep(recs: seq<seq<string>>, i: nat)
    requires AllFour(recs) && i < |recs|
    ensures NonEmpty(recs[..i + 1])
    ensures DeltaSum(recs[..i + 1]) == IntOf(recs[0][0]) + DeltaSum(recs[1..][..i])
  {
    var prefix := recs[..i + 1];
    forall j | 0 <= j < |prefix|
      ensures prefix[j] != []
    {
      assert prefix[j] == recs[j];
    }
    assert recs[..i + 1][1..] == recs[1..][..i];
  }

  /** Frame `i` has the time of the running sum of the first `i + 1` deltas, and its record's other tokens. */
  lemma {:induction false} FrameTimes(num: Numerics, recs: seq<seq<string>>, time: int, i: nat)
    requires AllFour(recs) && i < |recs|
    ensures FramesOfRecords(num, recs, time)[i] == FrameOf(num, recs[i], time + DeltaSum(recs[..i + 1]))
    decreases i
  {
    FramesOfRecordsStep(num, recs, time);
    if i > 0 {
      FrameTimes(num, recs[1..], time + IntOf(recs[0][0]), i - 1);
    }
    FrameTimesShift(num, recs, time, i);
  }

  /** Frame `i` of the records is frame `i - 1` of the records after the first, which start one delta later. */
  lemma FrameTimesShift(num: Numerics, recs: seq<seq<string>>, time: int, i: nat)
    requires AllFour(recs) && i < |recs| && AllFour(recs[1..])
    requires i > 0 ==> var t := time + IntOf(recs[0][0]);
      FramesOfRecords(num, recs[1..], t)[i - 1] == FrameOf(num, recs[1..][i - 1], t + DeltaSum(recs[1..][..i]))
    ensures FramesOfRecords(num, recs, time)[i] == FrameOf(num, recs[i], time + DeltaSum(recs[..i + 1]))
  {
    FramesOfRecordsStep(num, recs, time);
    DeltaSumStep(recs, i);
    hide FrameOf, IntOf, FramesOfRecords, AllFour;
    if i == 0 {
      assert recs[1..][..0] == [];
    } else {
      assert recs[1..][i - 1] == recs[i];
    }
  }

  /** `decode_frames`: the frame text split on `,`, each record split on `|`. */
  method DecodeFrames(num: Numerics, lzma: seq<Byte> -> Option<string>, lzmaEnabled: bool,
                      compressed: seq<Byte>) returns (r: Outcome<Option<seq<Frame>>>)
    ensures r == DecodeFramesSpec(num, lzma, lzmaEnabled, compressed)
  {
    if !lzmaEnabled {
      return Throws;
    }
    var text := lzma(compressed);
    if text.None? {
      return Done(None);
    }
    var lines := Split(text.value, ',');
    var frames := FramesLoop(num, lines);
    r := Done(frames);
  }

  /** One `|`-record of four tokens: the running time moves by the first, and the frame takes the others. */
  method ReadFrame(num: Numerics, tokens: seq<string>, time: int) returns (frame: Frame, next: int)
    requires |tokens| == 4
    ensures next == time + IntOf(tokens[0]) && frame == FrameOf(num, tokens, next)
  {
    var delta := ParseIntValue(tokens[0]);
    next := time + delta;
    var state := ParseIntValue(tokens[3]);
    frame := Frame(next, num.stof(tokens[1]), num.stof(tokens[2]), state);
  }

  /** The loop of `decode_frames` over the comma-separated lines. */
  method FramesLoop(num: Numerics, lines: seq<string>) returns (r: Option<seq<Frame>>)
    ensures r == FramesOf(num, lines, 0)
  {
    FramesEnds(num, lines);
    hide FramesOf, FrameOf, Append, IntOf, Tokens;
    var frames: seq<Frame> := [];
    var currentTime := 0;
    for i := 0 to |lines|
      invariant FramesOf(num, lines, 0) == Append(frames, FramesOf(num, lines[i..], currentTime))
    {
      FramesLine(num, lines, i, currentTime, frames);
      var tokens := Split(lines[i], '|');
      if tokens == [] {
        continue;
      }
      if |tokens| != 4 {
        return None;
      }
      var frame;
      frame, currentTime := ReadFrame(num, tokens, currentTime);
      frames := frames + [frame];
    }
    r := Some(frames);
  }

  /** The frame loop starts with nothing decoded and all lines to go, and ends with no line left. */
  lemma FramesEnds(num: Numerics, lines: seq<string>)
    ensures FramesOf(num, lines, 0) == Append([], FramesOf(num, lines[0..], 0))
    ensures forall done: seq<Frame>, time :: Append(done, FramesOf(num, lines[|lines|..], time)) == Some(done)
  {
    assert lines[0..] == lines;
    assert lines[|lines|..] == [];
    var goal := FramesOf(num, lines, 0);
    if goal.Some? {
      assert [] + goal.value == goal.value;
    }
    forall done: seq<Frame>, time
      ensures Append(done, FramesOf(num, lines[|lines|..], time)) == Some(done)
    {
      assert done + [] == done;
    }
  }

  /** What one line does to the frames decoded so far and to the ones still to come. */
  lemma FramesLine(num: Numerics, lines: seq<string>, i: nat, time: int, done: seq<Frame>)
    requires i < |lines|
    ensures var tokens := Tokens(lines[i], '|');
      var rest := Append(done, FramesOf(num, lines[i..], time));
      && (tokens == [] ==> rest == Append(done, FramesOf(num, lines[i + 1..], time)))
      && (tokens != [] && |tokens| != 4 ==> rest == None)
      && (|tokens| == 4 ==>
            var next := time + IntOf(tokens[0]);
            rest == Append(done + [FrameOf(num, tokens, next)], FramesOf(num, lines[i + 1..], next)))
  {
    FramesOfDrop(num, lines, i, time);
    var tokens := Tokens(lines[i], '|');
    if |tokens| == 4 {
      var next := time + IntOf(tokens[0]);
      AppendSnoc(done, FrameOf(num, tokens, next), FramesOf(num, lines[i + 1..], next));
    }
  }

  function Append(done: seq<Frame>, r: Option<seq<Frame>>): Option<seq<Frame>>
  {
    if r.None? then None else Some(done + r.value)
  }

  lemma AppendSnoc(done: seq<Frame>, f: Frame, r: Option<seq<Frame>>)
    ensures Append(done, Cons(f, r)) == Append(done + [f], r)
  {
    if r.Some? {
      assert done + ([f] + r.value) == (done + [f]) + r.value;
    }
  }
}
