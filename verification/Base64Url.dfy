/** The offset base64url decoder of the zkLogin signature parser.

    A JWT claim sits somewhere inside a base64url text, so it is decoded from a window that
    need not start or end on a group of four characters.  `Decode` says what the decoder
    computes; `Encode` is the independent definition it is measured against: section 4 of
    RFC 4648 with the alphabet of its section 5 and no padding. */
module Base64Url {
  import opened Base

  type Byte = bv8

  // ---------------------------------------------------------------- alphabet

  const UPPER: string := "ABCDEFGHIJKLMNOPQRSTUVWXYZ"
  const LOWER: string := "abcdefghijklmnopqrstuvwxyz"
  const DIGITS: string := "0123456789"
  const CHARSET: string := UPPER + LOWER + DIGITS + "-_"

  /** `str::find`: the first position of `c` in `s`. */
  function Find(s: string, c: char): (r: Option<nat>)
    ensures r.Some? ==> r.value < |s| && s[r.value] == c
    ensures r.None? <==> c !in s
  {
    if c !in s then None
    else
      FirstPositionExists(s, c);
      var i: nat :| i < |s| && s[i] == c && c !in s[..i];
      Some(i)
  }

  lemma FirstPositionExists(s: string, c: char)
    requires c in s
    ensures exists i: nat :: i < |s| && s[i] == c && c !in s[..i]
  {
    if s[0] == c {
      assert c !in s[..0];
    } else {
      FirstPositionExists(s[1..], c);
      var i: nat :| i < |s[1..]| && s[1..][i] == c && c !in s[1..][..i];
      assert s[..i + 1] == [s[0]] + s[1..][..i];
      assert s[i + 1] == c && c !in s[..i + 1];
    }
  }

  /** Table 2 of RFC 4648, in arithmetic form. */
  function Symbol(v: nat): char
    requires v < 64
  {
    if v < 26 then 'A' + v as char
    else if v < 52 then 'a' + (v - 26) as char
    else if v < 62 then '0' + (v - 52) as char
    else if v == 62 then '-'
    else '_'
  }

  lemma LettersInOrder(v: nat)
    requires v < 26
    ensures UPPER[v] == 'A' + v as char && LOWER[v] == 'a' + v as char
  {
    if v < 13 {
      assert v == 0 || v == 1 || v == 2 || v == 3 || v == 4 || v == 5 || v == 6
          || v == 7 || v == 8 || v == 9 || v == 10 || v == 11 || v == 12;
    } else {
      assert v == 13 || v == 14 || v == 15 || v == 16 || v == 17 || v == 18 || v == 19
          || v == 20 || v == 21 || v == 22 || v == 23 || v == 24 || v == 25;
    }
  }

  lemma DigitsInOrder(v: nat)
    requires v < 10
    ensures DIGITS[v] == '0' + v as char
  {
    assert v == 0 || v == 1 || v == 2 || v == 3 || v == 4 || v == 5 || v == 6 || v == 7 || v == 8 || v == 9;
  }

  lemma CharsetIsTable2(v: nat)
    requires v < 64
    ensures |CHARSET| == 64 && CHARSET[v] == Symbol(v)
  {
    if v < 26 {
      LettersInOrder(v);
      assert CHARSET[v] == UPPER[v];
    } else if v < 52 {
      LettersInOrder(v - 26);
      assert CHARSET[v] == LOWER[v - 26];
    } else if v < 62 {
      DigitsInOrder(v - 52);
      assert CHARSET[v] == DIGITS[v - 52];
    }
  }

  /** The position of `c` in the alphabet, in arithmetic form. */
  function Position(c: char): (r: Option<nat>)
    ensures r.Some? ==> r.value < 64 && Symbol(r.value) == c
  {
    if 'A' <= c <= 'Z' then Some((c - 'A') as nat)
    else if 'a' <= c <= 'z' then Some(26 + (c - 'a') as nat)
    else if '0' <= c <= '9' then Some(52 + (c - '0') as nat)
    else if c == '-' then Some(62)
    else if c == '_' then Some(63)
    else None
  }

  lemma PositionOfSymbol(v: nat)
    requires v < 64
    ensures Position(Symbol(v)) == Some(v)
  {
  }

  /** Searching the literal alphabet and computing the position agree on every character. */
  lemma PositionIsFind(c: char)
    ensures Find(CHARSET, c) == Position(c)
  {
    CharsetIsTable2(0);
    match Find(CHARSET, c)
    case Some(i) =>
      CharsetIsTable2(i);
      PositionOfSymbol(i);
    case None =>
      if Position(c).Some? {
        CharsetIsTable2(Position(c).value);
        assert false;
      }
  }

  predicate Known(c: char) {
    Position(c).Some?
  }

  predicate InAlphabet(s: string) {
    forall i :: 0 <= i < |s| ==> Known(s[i])
  }

  // ---------------------------------------------------------------- bits

  /** The bit of weight w = 2^i of an alphabet position. */
  predicate IndexBit(index: nat, w: nat)
    requires w > 0
  {
    index / w % 2 == 1
  }

  /** The six bits of an alphabet position, most significant first. */
  function SextetBits(index: nat): (r: seq<bool>)
    ensures |r| == 6
  {
    [IndexBit(index, 32), IndexBit(index, 16), IndexBit(index, 8), IndexBit(index, 4), IndexBit(index, 2), IndexBit(index, 1)]
  }

  /** The bits of one character.  The lookup error of a character outside the alphabet is
      turned into an empty iterator, so such a character contributes nothing. */
  function CharBits(c: char): seq<bool> {
    match Position(c)
    case Some(index) => SextetBits(index)
    case None => []
  }

  function Base64ToBitarray(s: string): (bits: seq<bool>)
    ensures |bits| == 6 * KnownCount(s)
  {
    if s == [] then [] else CharBits(s[0]) + Base64ToBitarray(s[1..])
  }

  /** How many characters of `s` are in the alphabet. */
  function KnownCount(s: string): (n: nat)
    ensures n <= |s|
    ensures InAlphabet(s) <==> n == |s|
  {
    if s == [] then 0
    else
      assert s == [s[0]] + s[1..];
      (if Known(s[0]) then 1 else 0) + KnownCount(s[1..])
  }

  lemma {:induction false} BitarrayAt(s: string, k: nat, j: nat)
    requires InAlphabet(s) && k < |s| && j < 6
    ensures Base64ToBitarray(s)[6 * k + j] == CharBits(s[k])[j]
  {
    var head, rest := CharBits(s[0]), Base64ToBitarray(s[1..]);
    assert Base64ToBitarray(s) == head + rest;
    if k > 0 {
      BitarrayAt(s[1..], k - 1, j);
      assert (head + rest)[6 * k + j] == rest[6 * (k - 1) + j];
    }
  }

  /** 2^i as a byte. */
  function Mask(i: nat): Byte
    requires i < 8
  {
    match i
    case 0 => 1
    case 1 => 2
    case 2 => 4
    case 3 => 8
    case 4 => 16
    case 5 => 32
    case 6 => 64
    case _ => 128
  }

  lemma MaskIsShift(i: nat)
    requires i < 8
    ensures Mask(i) == (1 as Byte) << i
  {
  }

  /** `bit << i` */
  function Shifted(bit: bool, i: nat): Byte
    requires i < 8
  {
    if bit then Mask(i) else 0
  }

  /** The byte whose bit of weight 2^i is `bi`. */
  function Octet(b0: bool, b1: bool, b2: bool, b3: bool, b4: bool, b5: bool, b6: bool, b7: bool): Byte {
    Shifted(b0, 0) | Shifted(b1, 1) | Shifted(b2, 2) | Shifted(b3, 3)
    | Shifted(b4, 4) | Shifted(b5, 5) | Shifted(b6, 6) | Shifted(b7, 7)
  }

  /** The byte of a chunk of eight bits in big-endian order. */
  function ByteOf(c: seq<bool>): Byte
    requires |c| == 8
  {
    Octet(c[7], c[6], c[5], c[4], c[3], c[2], c[1], c[0])
  }

  function Pack(bits: seq<bool>): (r: seq<Byte>)
    requires |bits| % 8 == 0
  {
    seq(|bits| / 8, i requires 0 <= i < |bits| / 8 => ByteOf(bits[8 * i..8 * i + 8]))
  }

  /** The bit of weight 2^i of a byte. */
  predicate BitOf(v: Byte, i: nat)
    requires i < 8
  {
    v & Mask(i) != 0
  }

  lemma EightBitsRebuildTheByte(v: Byte)
    ensures Octet(BitOf(v, 0), BitOf(v, 1), BitOf(v, 2), BitOf(v, 3), BitOf(v, 4), BitOf(v, 5), BitOf(v, 6), BitOf(v, 7)) == v
  {
  }

  lemma OctetHoldsItsBits(b0: bool, b1: bool, b2: bool, b3: bool, b4: bool, b5: bool, b6: bool, b7: bool)
    ensures var v := Octet(b0, b1, b2, b3, b4, b5, b6, b7);
            && BitOf(v, 0) == b0 && BitOf(v, 1) == b1 && BitOf(v, 2) == b2 && BitOf(v, 3) == b3
            && BitOf(v, 4) == b4 && BitOf(v, 5) == b5 && BitOf(v, 6) == b6 && BitOf(v, 7) == b7
  {
  }

  /** Packing a chunk stores bit j of the chunk with weight 2^(7-j), and nothing else. */
  lemma ChunkKeepsBits(c: seq<bool>, j: nat)
    requires |c| == 8 && j < 8
    ensures BitOf(ByteOf(c), 7 - j) == c[j]
  {
    hide Octet, BitOf;
    OctetHoldsItsBits(c[7], c[6], c[5], c[4], c[3], c[2], c[1], c[0]);
    assert j == 0 || j == 1 || j == 2 || j == 3 || j == 4 || j == 5 || j == 6 || j == 7;
  }

  /** A byte is determined by its bits. */
  lemma ChunkOfByte(c: seq<bool>, v: Byte)
    requires |c| == 8
    requires forall j :: 0 <= j < 8 ==> c[j] == BitOf(v, 7 - j)
    ensures ByteOf(c) == v
  {
    hide Octet, BitOf;
    EightBitsRebuildTheByte(v);
    assert c[0] == BitOf(v, 7) && c[1] == BitOf(v, 6) && c[2] == BitOf(v, 5) && c[3] == BitOf(v, 4);
    assert c[4] == BitOf(v, 3) && c[5] == BitOf(v, 2) && c[6] == BitOf(v, 1) && c[7] == BitOf(v, 0);
  }

  /** The byte after the first `n` steps `byte |= bit << i` over a reversed chunk. */
  function Partial(c: seq<bool>, n: nat): Byte
    requires |c| == 8 && n <= 8
  {
    Octet(0 < n && c[7], 1 < n && c[6], 2 < n && c[5], 3 < n && c[4],
          4 < n && c[3], 5 < n && c[2], 6 < n && c[1], 7 < n && c[0])
  }

  lemma PartialStep(c: seq<bool>, n: nat)
    requires |c| == 8 && n < 8
    ensures Partial(c, n + 1) == Partial(c, n) | Shifted(c[7 - n], n)
  {
    if n == 0 {
    } else if n == 1 {
    } else if n == 2 {
    } else if n == 3 {
    } else if n == 4 {
    } else if n == 5 {
    } else if n == 6 {
    } else {
      assert n == 7;
    }
  }

  /** Bit m of a byte string read as one long big-endian bit string; zero past the end. */
  predicate BitAt(b: seq<Byte>, m: nat) {
    m / 8 < |b| && BitOf(b[m / 8], 7 - m % 8)
  }

  lemma BitAtByte(b: seq<Byte>, i: nat, j: nat)
    requires i < |b| && j < 8
    ensures BitAt(b, 8 * i + j) == BitOf(b[i], 7 - j)
  {
    hide BitOf;
    assert (8 * i + j) / 8 == i && (8 * i + j) % 8 == j;
  }

  /** Packing writes exactly the given bits. */
  lemma PackKeepsBits(bits: seq<bool>, m: nat)
    requires |bits| % 8 == 0 && m < |bits|
    ensures |Pack(bits)| == |bits| / 8
    ensures BitAt(Pack(bits), m) == bits[m]
  {
    hide ByteOf, BitOf;
    var i := m / 8;
    var c := bits[8 * i..8 * i + 8];
    assert Pack(bits)[i] == ByteOf(c);
    ChunkKeepsBits(c, m % 8);
    assert bits[m] == c[m % 8];
  }

  /** ... and packing the bits of a stretch of bytes gives that stretch back. */
  lemma PackInvertsExpansion(b: seq<Byte>, from: nat, to: nat, bits: seq<bool>)
    requires from <= to <= |b|
    requires |bits| == 8 * (to - from)
    requires forall m :: 0 <= m < |bits| ==> bits[m] == BitAt(b, 8 * from + m)
    ensures Pack(bits) == b[from..to]
  {
    hide ByteOf, BitOf;
    forall i | 0 <= i < to - from
      ensures Pack(bits)[i] == b[from + i]
    {
      var c := bits[8 * i..8 * i + 8];
      forall j | 0 <= j < 8
        ensures c[j] == BitOf(b[from + i], 7 - j)
      {
        assert c[j] == bits[8 * i + j] == BitAt(b, 8 * from + (8 * i + j));
        BitAtByte(b, from + i, j);
      }
      ChunkOfByte(c, b[from + i]);
      assert Pack(bits)[i] == ByteOf(c);
    }
  }

  // ---------------------------------------------------------------- encoding

  function Weight(bit: bool, w: nat): nat {
    if bit then w else 0
  }

  /** Six-bit group k of the byte string, a final partial group being filled with zero bits. */
  function Sextet(b: seq<Byte>, k: nat): (v: nat)
    ensures v < 64
  {
    Weight(BitAt(b, 6 * k), 32) + Weight(BitAt(b, 6 * k + 1), 16) + Weight(BitAt(b, 6 * k + 2), 8)
    + Weight(BitAt(b, 6 * k + 3), 4) + Weight(BitAt(b, 6 * k + 4), 2) + Weight(BitAt(b, 6 * k + 5), 1)
  }

  /** Four characters for three bytes; a final group of one byte takes two, of two bytes three. */
  function EncodedLength(n: nat): nat {
    4 * (n / 3) + (if n % 3 == 0 then 0 else n % 3 + 1)
  }

  function Encode(b: seq<Byte>): (s: string)
    ensures |s| == EncodedLength(|b|)
  {
    seq(EncodedLength(|b|), k requires 0 <= k => Symbol(Sextet(b, k)))
  }

  lemma WeightsRebuildTheIndex(b0: bool, b1: bool, b2: bool, b3: bool, b4: bool, b5: bool)
    ensures SextetBits(Weight(b0, 32) + Weight(b1, 16) + Weight(b2, 8) + Weight(b3, 4) + Weight(b4, 2) + Weight(b5, 1))
         == [b0, b1, b2, b3, b4, b5]
  {
  }

  lemma SextetIsSixBits(b: seq<Byte>, k: nat, j: nat)
    requires j < 6
    ensures SextetBits(Sextet(b, k))[j] == BitAt(b, 6 * k + j)
  {
    hide BitAt, SextetBits, Weight;
    var i := 6 * k;
    WeightsRebuildTheIndex(BitAt(b, i), BitAt(b, i + 1), BitAt(b, i + 2), BitAt(b, i + 3), BitAt(b, i + 4), BitAt(b, i + 5));
  }

  lemma EncodedWindowInAlphabet(b: seq<Byte>, p: nat, q: nat)
    requires p <= q <= |Encode(b)|
    ensures InAlphabet(Encode(b)[p..q])
  {
    hide Sextet;
    var w := Encode(b)[p..q];
    forall k | 0 <= k < |w|
      ensures Known(w[k])
    {
      PositionOfSymbol(Sextet(b, p + k));
    }
  }

  /** The bit array of a window of the encoding is the matching stretch of the bit string. */
  lemma WindowBits(b: seq<Byte>, p: nat, q: nat, m: nat)
    requires p <= q <= |Encode(b)| && m < 6 * (q - p)
    ensures InAlphabet(Encode(b)[p..q])
    ensures Base64ToBitarray(Encode(b)[p..q])[m] == BitAt(b, 6 * p + m)
  {
    hide Sextet, BitAt, Base64ToBitarray, SextetBits, Symbol, Position, EncodedLength;
    var w := Encode(b)[p..q];
    var k, j := m / 6, m % 6;
    EncodedWindowInAlphabet(b, p, q);
    BitarrayAt(w, k, j);
    var v := Sextet(b, p + k);
    assert w[k] == Symbol(v);
    PositionOfSymbol(v);
    SextetIsSixBits(b, p + k, j);
    assert 6 * (p + k) + j == 6 * p + m;
  }

  // ---------------------------------------------------------------- the decoder

  datatype Failure =
    | TooShort
    | InvalidFirstCharOffset
    | InvalidLastCharOffset
    | InvalidBitsLength

  /** `Panic` is a Rust panic: a drain range outside the vector, a length that does not fit
      a u8, or (when the build checks arithmetic) a u8 addition that overflows. */
  datatype Outcome = Decoded(bytes: seq<Byte>) | Rejected(why: Failure) | Panic

  function Utf8Len(s: string): (n: nat)
    ensures n >= |s|
    ensures InAlphabet(s) ==> n == |s|
  {
    if s == [] then 0
    else CharUtf8Len(s[0]) + Utf8Len(s[1..])
  }

  function CharUtf8Len(c: char): (n: nat)
    ensures 1 <= n <= 4
  {
    if c < 0x80 as char then 1
    else if c < 0x800 as char then 2
    else if c < 0x10000 as char then 3
    else 4
  }

  /** Bits to drop in front when the window starts at position 0, 1 or 2 of its group. */
  function HeadDrain(indexMod4: nat): Option<nat> {
    match indexMod4
    case 0 => Some(0)
    case 1 => Some(2)
    case 2 => Some(4)
    case _ => None
  }

  /** Bits to drop at the end when the last character has position 3, 2 or 1 in its group. */
  function TailDrain(lastCharOffset: nat): Option<nat> {
    match lastCharOffset
    case 3 => Some(0)
    case 2 => Some(2)
    case 1 => Some(4)
    case _ => None
  }

  /** `(index_mod_4 + len - 1) % 4` in wrapping u8 arithmetic. */
  function LastCharOffset(indexMod4: nat, len: nat): nat {
    (((indexMod4 + len) % 256) + 255) % 256 % 4
  }

  /** What `decode_base64_url` yields before its UTF-8 check. */
  function Decode(s: string, indexMod4: nat, checkedArithmetic: bool): Outcome
    requires indexMod4 < 256
  {
    var len := Utf8Len(s);
    if len < 2 then Rejected(TooShort) else
    var bits := Base64ToBitarray(s);
    match HeadDrain(indexMod4)
    case None => Rejected(InvalidFirstCharOffset)
    case Some(head) =>
      if head > |bits| || len > 255 || (checkedArithmetic && indexMod4 + len > 255) then Panic else
      match TailDrain(LastCharOffset(indexMod4, len))
      case None => Rejected(InvalidLastCharOffset)
      case Some(tail) =>
        if head + tail > |bits| then Panic
        else if (|bits| - head - tail) % 8 != 0 then Rejected(InvalidBitsLength)
        else Decoded(Pack(bits[head..|bits| - tail]))
  }

  /** Packs a bit array, one byte per chunk of eight. */
  method BitarrayToBytearray(bits: seq<bool>) returns (r: Result<seq<Byte>, Failure>)
    ensures r.Err? <==> |bits| % 8 != 0
    ensures r.Ok? ==> r.value == Pack(bits)
    ensures r.Ok? ==> |r.value| == |bits| / 8 && forall m :: 0 <= m < |bits| ==> BitAt(r.value, m) == bits[m]
  {
    hide ByteOf, BitOf;
    if |bits| % 8 != 0 {
      return Err(InvalidBitsLength);
    }
    var bytes: seq<Byte> := [];
    for n := 0 to |bits| / 8
      invariant |bytes| == n
      invariant forall i :: 0 <= i < n ==> bytes[i] == Pack(bits)[i]
    {
      var byte := PackChunk(bits[8 * n..8 * n + 8]);
      bytes := bytes + [byte];
    }
    assert bytes == Pack(bits);
    forall m | 0 <= m < |bits|
      ensures BitAt(bytes, m) == bits[m]
    {
      PackKeepsBits(bits, m);
    }
    return Ok(bytes);
  }

  method PackChunk(chunk: seq<bool>) returns (byte: Byte)
    requires |chunk| == 8
    ensures byte == ByteOf(chunk)
    ensures forall j :: 0 <= j < 8 ==> BitOf(byte, 7 - j) == chunk[j]
  {
    byte := 0;
    for i := 0 to 8
      invariant byte == Partial(chunk, i)
    {
      PartialStep(chunk, i);
      byte := byte | Shifted(chunk[7 - i], i);
    }
    hide Octet, BitOf;
    forall j | 0 <= j < 8
      ensures BitOf(ByteOf(chunk), 7 - j) == chunk[j]
    {
      ChunkKeepsBits(chunk, j);
    }
  }

  method DecodeBase64Url(s: string, indexMod4: nat, checkedArithmetic: bool) returns (r: Outcome)
    requires indexMod4 < 256
    ensures r == Decode(s, indexMod4, checkedArithmetic)
  {
    hide Pack, Utf8Len, Base64ToBitarray, KnownCount, InAlphabet, LastCharOffset;
    var len := Utf8Len(s);
    if len < 2 {
      return Rejected(TooShort);
    }
    var bits := Base64ToBitarray(s);
    ghost var all := bits;
    match indexMod4 {
      case 0 =>
      case 1 =>
        if 2 > |bits| { return Panic; }
        bits := bits[2..];
      case 2 =>
        if 4 > |bits| { return Panic; }
        bits := bits[4..];
      case _ => return Rejected(InvalidFirstCharOffset);
    }
    if len > 255 || (checkedArithmetic && indexMod4 + len > 255) {
      return Panic;
    }
    var lastCharOffset := LastCharOffset(indexMod4, len);
    match lastCharOffset {
      case 3 =>
      case 2 =>
        if |bits| < 2 { return Panic; }
        bits := bits[..|bits| - 2];
      case 1 =>
        if |bits| < 4 { return Panic; }
        bits := bits[..|bits| - 4];
      case _ => return Rejected(InvalidLastCharOffset);
    }
    if |bits| % 8 != 0 {
      return Rejected(InvalidBitsLength);
    }
    var packed := BitarrayToBytearray(bits);
    ghost var head, tail := HeadDrain(indexMod4).value, TailDrain(lastCharOffset).value;
    assert bits == all[head..|all| - tail];
    return Decoded(packed.value);
  }

  // ---------------------------------------------------------------- theorems

  lemma ShiftByFours(x: int, k: int)
    ensures (x + 4 * k) % 4 == x % 4
  {
  }

  /** Wrapping does no harm to the offset, because 256 is a multiple of 4. */
  lemma LastCharOffsetIsExact(indexMod4: nat, len: nat)
    requires 1 <= indexMod4 + len
    ensures LastCharOffset(indexMod4, len) == (indexMod4 + len - 1) % 4
  {
    var sum := indexMod4 + len;
    var w, low := sum / 256, sum % 256;
    if low == 0 {
      ShiftByFours(sum - 1, 64 - 64 * w);
      assert (low + 255) % 256 == sum - 1 + 4 * (64 - 64 * w);
    } else {
      ShiftByFours(sum - 1, -64 * w);
      assert (low + 255) % 256 == sum - 1 + 4 * (-64 * w);
    }
  }

  /** The bits of a window [p, q) of an encoding, drained at both ends as the offsets say, pack
      to the whole bytes the window covers; no bound on the length of the window. */
  lemma WindowPacksToSlice(b: seq<Byte>, p: nat, q: nat, bits: seq<bool>, head: nat, tail: nat)
    requires p + 2 <= q <= EncodedLength(|b|)
    requires |bits| == 6 * (q - p) && forall m :: 0 <= m < |bits| ==> bits[m] == BitAt(b, 6 * p + m)
    requires HeadDrain(p % 4) == Some(head) && TailDrain((q - 1) % 4) == Some(tail)
    ensures head + tail <= |bits| && (|bits| - head - tail) % 8 == 0
    ensures (6 * p + 7) / 8 <= 6 * q / 8 <= |b|
    ensures Pack(bits[head..|bits| - tail]) == b[(6 * p + 7) / 8..6 * q / 8]
  {
    hide Pack, BitAt;
    WindowAlignment(p, q, head, tail);
    EncodedLengthFits(|b|, q);
    var from, to := (6 * p + 7) / 8, 6 * q / 8;
    AlignedBitsPack(b, p, q, bits, head, tail, from, to);
    TimesEight(|bits| - head - tail, to - from);
  }

  lemma TimesEight(x: int, k: int)
    requires x == 8 * k
    ensures x % 8 == 0
  {
  }

  lemma AlignedBitsPack(b: seq<Byte>, p: nat, q: nat, bits: seq<bool>, head: nat, tail: nat, from: nat, to: nat)
    requires p <= q && |bits| == 6 * (q - p)
    requires forall m :: 0 <= m < |bits| ==> bits[m] == BitAt(b, 6 * p + m)
    requires 6 * p + head == 8 * from && 6 * q - tail == 8 * to && head + tail <= |bits| && to <= |b|
    ensures |bits| - head - tail == 8 * (to - from)
    ensures Pack(bits[head..|bits| - tail]) == b[from..to]
  {
    hide Pack, BitAt;
    var kept := bits[head..|bits| - tail];
    forall m | 0 <= m < |kept|
      ensures kept[m] == BitAt(b, 8 * from + m)
    {
      assert kept[m] == bits[head + m] == BitAt(b, 6 * p + (head + m));
    }
    PackInvertsExpansion(b, from, to, kept);
  }

  lemma WindowAlignment(p: nat, q: nat, head: nat, tail: nat)
    requires p + 2 <= q
    requires HeadDrain(p % 4) == Some(head) && TailDrain((q - 1) % 4) == Some(tail)
    ensures 6 * p + head == 8 * ((6 * p + 7) / 8)
    ensures 6 * q - tail == 8 * (6 * q / 8)
    ensures head + tail <= 6 * (q - p)
  {
    var u, v := p / 4, (q - 1) / 4;
    HeadAligned(p, u, p % 4);
    TailAligned(q, v, (q - 1) % 4);
  }

  lemma HeadAligned(p: nat, u: nat, r: nat)
    requires p == 4 * u + r && r < 3
    ensures 6 * p + 2 * r == 8 * ((6 * p + 7) / 8)
  {
    assert 6 * p + 7 == 8 * (3 * u + r) + (7 - 2 * r);
  }

  lemma TailAligned(q: nat, v: nat, r: nat)
    requires q == 4 * v + r + 1 && 0 < r < 4
    ensures 6 * q - 2 * (3 - r) == 8 * (6 * q / 8)
  {
    assert 6 * q == 8 * (3 * v + r) + 2 * (3 - r);
  }

  lemma EncodedLengthFits(n: nat, q: nat)
    requires q <= EncodedLength(n)
    ensures 6 * q / 8 <= n
  {
  }

  lemma WindowOffset(p: nat, q: nat)
    requires p < q
    ensures LastCharOffset(p % 4, q - p) == (q - 1) % 4
  {
    LastCharOffsetIsExact(p % 4, q - p);
    ShiftByFours(q - 1, -(p / 4));
  }

  /** Decoding a window of an encoding gives exactly the whole bytes the window covers. */
  lemma WindowDecode(b: seq<Byte>, p: nat, q: nat, checkedArithmetic: bool)
    requires p + 2 <= q <= |Encode(b)| && q - p <= 255
    requires checkedArithmetic ==> p % 4 + (q - p) <= 255
    requires p % 4 != 3 && (q - 1) % 4 != 0
    ensures (6 * p + 7) / 8 <= 6 * q / 8 <= |b|
    ensures Decode(Encode(b)[p..q], p % 4, checkedArithmetic) == Decoded(b[(6 * p + 7) / 8..6 * q / 8])
  {
    hide Pack, BitAt, Base64ToBitarray, EncodedLength, Encode, InAlphabet, KnownCount, LastCharOffset, Utf8Len;
    var w := Encode(b)[p..q];
    EncodedWindowInAlphabet(b, p, q);
    WindowOffset(p, q);
    assert LastCharOffset(p % 4, Utf8Len(w)) == (q - 1) % 4;
    var bits := Base64ToBitarray(w);
    forall m | 0 <= m < |bits|
      ensures bits[m] == BitAt(b, 6 * p + m)
    {
      WindowBits(b, p, q, m);
    }
    WindowPacksToSlice(b, p, q, bits, HeadDrain(p % 4).value, TailDrain((q - 1) % 4).value);
  }

  /** A whole text decodes to the bytes it encodes, whatever their number (mod 3). */
  lemma WholeTextRoundTrip(b: seq<Byte>, checkedArithmetic: bool)
    requires 1 <= |b| && |Encode(b)| <= 255
    ensures Decode(Encode(b), 0, checkedArithmetic) == Decoded(b)
  {
    hide Decode, Encode;
    var e := Encode(b);
    assert e[0..|e|] == e;
    WindowDecode(b, 0, |e|, checkedArithmetic);
    assert b[0..|b|] == b;
  }

  /** Exactly when any text at all is decoded.  Bytes that are not alphabet characters
      contribute length but no bits, so they are noticed only when their number is not a
      multiple of four or they leave too few bits to drain. */
  lemma DecodesIff(s: string, indexMod4: nat, checkedArithmetic: bool)
    requires indexMod4 < 256
    ensures var len, known := Utf8Len(s), KnownCount(s);
            var last := (indexMod4 + len - 1) % 4;
            Decode(s, indexMod4, checkedArithmetic).Decoded? <==>
              && 2 <= len <= 255 && indexMod4 <= 2 && last != 0
              && (checkedArithmetic ==> indexMod4 + len <= 255)
              && (len - known) % 4 == 0
              && 2 * indexMod4 + 2 * (3 - last) <= 6 * known
  {
    hide Pack, Base64ToBitarray, InAlphabet, LastCharOffset, Utf8Len, KnownCount;
    var len, known := Utf8Len(s), KnownCount(s);
    if 2 <= len <= 255 && indexMod4 <= 2 {
      LastCharOffsetIsExact(indexMod4, len);
      var last := (indexMod4 + len - 1) % 4;
      if last != 0 {
        var head, tail := HeadDrain(indexMod4).value, TailDrain(last).value;
        assert head == 2 * indexMod4 && tail == 2 * (3 - last);
        DrainedBitsAreWholeBytesIff(indexMod4, len, known);
      }
    }
  }

  lemma DrainedBitsAreWholeBytesIff(index: nat, len: nat, known: nat)
    requires index + len >= 1
    ensures var last := (index + len - 1) % 4;
            (6 * known - 2 * index - 2 * (3 - last)) % 8 == 0 <==> (len - known) % 4 == 0
  {
    var last := (index + len - 1) % 4;
    var t := (index + len - 1) / 4;
    assert 6 * known - 2 * index - 2 * (3 - last) == 8 * (known - 1 - t) + 2 * (len - known);
    EightsAndTwos(known - 1 - t, len - known);
  }

  lemma EightsAndTwos(a: int, d: int)
    ensures (8 * a + 2 * d) % 8 == 0 <==> d % 4 == 0
  {
    var m, r := d / 4, d % 4;
    assert 8 * a + 2 * d == 8 * (a + m) + 2 * r;
  }

  /** On alphabet-only text neither drain leaves the vector and the "bits length" error is
      unreachable: only the offsets decide. */
  lemma TotalOnAlphabet(s: string, indexMod4: nat, checkedArithmetic: bool)
    requires InAlphabet(s) && 2 <= |s| <= 255 && indexMod4 < 256
    requires checkedArithmetic ==> indexMod4 + |s| <= 255
    ensures Decode(s, indexMod4, checkedArithmetic) !in {Panic, Rejected(InvalidBitsLength), Rejected(TooShort)}
    ensures Decode(s, indexMod4, checkedArithmetic).Decoded? <==>
              indexMod4 <= 2 && (indexMod4 + |s| - 1) % 4 != 0
  {
    hide KnownCount, Utf8Len, Base64ToBitarray, Pack, LastCharOffset;
    assert Utf8Len(s) == |s| && KnownCount(s) == |s|;
    hide InAlphabet;
    DecodesIff(s, indexMod4, checkedArithmetic);
    LastCharOffsetIsExact(indexMod4, |s|);
  }

  function OnlyKnown(s: string): (r: string)
    ensures InAlphabet(r) && |r| == KnownCount(s)
  {
    if s == [] then [] else (if Known(s[0]) then [s[0]] else []) + OnlyKnown(s[1..])
  }

  /** The documented error for a character outside the alphabet is never raised: such
      characters are skipped. */
  lemma {:induction false} UnknownCharactersAreSkipped(s: string)
    ensures Base64ToBitarray(s) == Base64ToBitarray(OnlyKnown(s))
  {
    if s != [] {
      UnknownCharactersAreSkipped(s[1..]);
      var rest := OnlyKnown(s[1..]);
      if Known(s[0]) {
        assert ([s[0]] + rest)[1..] == rest;
      } else {
        assert [] + rest == rest;
      }
    }
  }

  lemma StrayText(s: string)
    requires s == "QU!!!!JD"
    ensures KnownCount(s) == 4 && Utf8Len(s) == 8 && !InAlphabet(s)
  {
    assert Known('Q') && Known('U') && Known('J') && Known('D') && !Known('!');
    assert s[2] == '!';
    hide Position, Known;
    var s6, s4, s2 := s[2..], s[4..], s[6..];
    assert s2[1..][1..] == "" && KnownCount(s2) == 2 && Utf8Len(s2) == 2;
    assert s4[1..][1..] == s2 && KnownCount(s4) == 2 && Utf8Len(s4) == 4;
    assert s6[1..][1..] == s4 && KnownCount(s6) == 2 && Utf8Len(s6) == 6;
    assert s[1..][1..] == s6;
  }

  /** For example, four stray characters pass unnoticed. */
  lemma FourStrayCharactersPass(checkedArithmetic: bool)
    ensures !InAlphabet("QU!!!!JD")
    ensures Decode("QU!!!!JD", 0, checkedArithmetic).Decoded?
  {
    hide Decode, InAlphabet, KnownCount, Utf8Len;
    var s := "QU!!!!JD";
    StrayText(s);
    DecodesIff(s, 0, checkedArithmetic);
  }
}
