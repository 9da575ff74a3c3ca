/**
 The text of a query: UTF-8, and the form-urlencoding of section 5 of the WHATWG URL
 Standard, both ways. `src/login/handlers.rs` writes the retry query with
 `form_urlencoded::Serializer`, and the query extractor reads it back.
 */
module Forms {
  import opened Options
  import opened Texts

  // ---- UTF-8 ---------------------------------------------------------------

  /** A continuation byte carrying the six low bits of `x`. */
  function Tail(x: nat): Byte { 0x80 + x % 64 }

  function EncodeChar(c: char): Bytes {
    var x := c as int;
    if x < 0x80 then [x]
    else if x < 0x800 then [0xC0 + x / 64, Tail(x)]
    else if x < 0x1_0000 then [0xE0 + x / 4096, Tail(x / 64), Tail(x)]
    else [0xF0 + x / 262_144, Tail(x / 4096), Tail(x / 64), Tail(x)]
  }

  function Utf8(s: string): Bytes {
    if s == "" then [] else EncodeChar(s[0]) + Utf8(s[1..])
  }

  /** The bytes a text takes, by the table of section 3 of RFC 3629. */
  function ByteLength(s: string): nat {
    if s == "" then 0
    else
      var x := s[0] as int;
      (if x <= 0x7F then 1 else if x <= 0x7FF then 2 else if x <= 0xFFFF then 3 else 4) + ByteLength(s[1..])
  }

  lemma {:induction false} Utf8Length(s: string)
    ensures |Utf8(s)| == ByteLength(s)
  {
    if s != "" { Utf8Length(s[1..]); }
  }

  lemma {:induction false} AsciiLength(s: string)
    requires forall c :: c in s ==> c <= '~'
    ensures ByteLength(s) == |s|
  {
    if s != "" {
      assert s[0] in s && forall c :: c in s[1..] ==> c in s;
      AsciiLength(s[1..]);
    }
  }

  /** An ASCII text is its own encoding. */
  lemma {:induction false} AsciiEncodes(s: string, bytes: Bytes)
    requires |s| == |bytes|
    requires forall i :: 0 <= i < |s| ==> bytes[i] < 0x80 && s[i] == bytes[i] as char
    ensures Utf8(s) == bytes
  {
    if s != "" {
      AsciiEncodes(s[1..], bytes[1..]);
      assert Utf8(s) == [bytes[0]] + bytes[1..];
    }
  }

  predicate IsTail(b: Byte) { 0x80 <= b < 0xC0 }

  /** The six bits of a continuation byte. */
  function Six(b: Byte): nat requires IsTail(b) { b - 0x80 }

  /** The scalar value that `n` bytes spell, unless it is over-long or no scalar value at all. */
  function Scalar(x: nat, n: nat): Option<(char, nat)> {
    if (n == 2 && x < 0x80) || (n == 3 && x < 0x800) || (n == 4 && x < 0x1_0000) then None
    else if x >= 0x11_0000 || 0xD800 <= x < 0xE000 then None
    else Some((x as char, n))
  }

  /** The first character of a text and how many bytes it takes; `None` if it is malformed. */
  function DecodeChar(b: Bytes): (r: Option<(char, nat)>)
    requires b != []
    ensures r.Some? ==> 1 <= r.value.1 <= |b|
  {
    if b[0] < 0x80 then Scalar(b[0], 1)
    else if 0xC0 <= b[0] < 0xE0 && |b| >= 2 && IsTail(b[1]) then Scalar((b[0] as int - 0xC0) * 64 + Six(b[1]), 2)
    else if 0xE0 <= b[0] < 0xF0 && |b| >= 3 && IsTail(b[1]) && IsTail(b[2]) then
      Scalar((b[0] as int - 0xE0) * 4096 + Six(b[1]) * 64 + Six(b[2]), 3)
    else if 0xF0 <= b[0] < 0xF8 && |b| >= 4 && IsTail(b[1]) && IsTail(b[2]) && IsTail(b[3]) then
      Scalar((b[0] as int - 0xF0) * 262_144 + Six(b[1]) * 4096 + Six(b[2]) * 64 + Six(b[3]), 4)
    else None
  }

  predicate SecondFits(first: Byte, second: Byte) {
    match first
    case 0xE0 => 0xA0 <= second < 0xC0
    case 0xED => 0x80 <= second < 0xA0
    case 0xF0 => 0x90 <= second < 0xC0
    case 0xF4 => 0x80 <= second < 0x90
    case _ => IsTail(second)
  }

  /** How many bytes of a malformed text one replacement character stands for. */
  function BadLength(b: Bytes): (n: nat)
    requires b != []
    ensures 1 <= n <= |b|
  {
    if 0xE0 <= b[0] < 0xF5 && |b| >= 2 && SecondFits(b[0], b[1]) then
      if 0xF0 <= b[0] && |b| >= 3 && IsTail(b[2]) then 3 else 2
    else 1
  }

  const REPLACEMENT: char := '\U{FFFD}'

  /** Decoding never fails: what is malformed becomes replacement characters. */
  function FromUtf8Lossy(b: Bytes): string {
    if b == [] then ""
    else
      match DecodeChar(b)
      case Some((c, n)) => [c] + FromUtf8Lossy(b[n..])
      case None => [REPLACEMENT] + FromUtf8Lossy(b[BadLength(b)..])
  }

  lemma SixBitDigits(x: nat)
    ensures x == 64 * (x / 64) + x % 64
    ensures x / 64 == 64 * (x / 4096) + x / 64 % 64
    ensures x / 4096 == 64 * (x / 262_144) + x / 4096 % 64
  {
    assert x / 4096 == x / 64 / 64 && x / 262_144 == x / 4096 / 64;
  }

  lemma TwoBytes(x: nat, rest: Bytes)
    requires 0x80 <= x < 0x800
    ensures DecodeChar([0xC0 + x / 64, Tail(x)] + rest) == Scalar(x, 2)
  {
    SixBitDigits(x);
  }

  lemma ThreeBytes(x: nat, rest: Bytes)
    requires 0x800 <= x < 0x1_0000
    ensures DecodeChar([0xE0 + x / 4096, Tail(x / 64), Tail(x)] + rest) == Scalar(x, 3)
  {
    SixBitDigits(x);
  }

  lemma FourBytes(x: nat, rest: Bytes)
    requires 0x1_0000 <= x < 0x11_0000
    ensures DecodeChar([0xF0 + x / 262_144, Tail(x / 4096), Tail(x / 64), Tail(x)] + rest)
         == Scalar(x, 4)
  {
    SixBitDigits(x);
  }

  lemma CharRoundTrip(c: char, rest: Bytes)
    ensures DecodeChar(EncodeChar(c) + rest) == Some((c, |EncodeChar(c)|))
  {
    var x := c as int;
    assert x as char == c;
    if 0x80 <= x < 0x800 {
      TwoBytes(x, rest);
    } else if 0x800 <= x < 0x1_0000 {
      ThreeBytes(x, rest);
    } else if 0x1_0000 <= x {
      FourBytes(x, rest);
    }
  }

  lemma {:induction false} Utf8RoundTrip(s: string)
    ensures FromUtf8Lossy(Utf8(s)) == s
  {
    if s != "" {
      var b, rest := Utf8(s), Utf8(s[1..]);
      CharRoundTrip(s[0], rest);
      assert b[|EncodeChar(s[0])|..] == rest;
      Utf8RoundTrip(s[1..]);
      assert [s[0]] + s[1..] == s;
    }
  }

  lemma DecodedTwo(b: Bytes)
    requires |b| >= 2 && 0xC0 <= b[0] < 0xE0 && IsTail(b[1]) && DecodeChar(b).Some?
    ensures DecodeChar(b).value.1 == 2 && EncodeChar(DecodeChar(b).value.0) == b[..2]
  {
    var x := (b[0] as int - 0xC0) * 64 + Six(b[1]);
    assert x / 64 == b[0] - 0xC0 && x % 64 == Six(b[1]);
  }

  lemma DecodedThree(b: Bytes)
    requires |b| >= 3 && 0xE0 <= b[0] < 0xF0 && IsTail(b[1]) && IsTail(b[2]) && DecodeChar(b).Some?
    ensures DecodeChar(b).value.1 == 3 && EncodeChar(DecodeChar(b).value.0) == b[..3]
  {
    FourDigits(0, b[0] - 0xE0, Six(b[1]), Six(b[2]));
    var x := (b[0] as int - 0xE0) * 4096 + Six(b[1]) * 64 + Six(b[2]);
    var c := x as char;
    assert EncodeChar(c) == [0xE0 + x / 4096, Tail(x / 64), Tail(x)];
  }

  lemma DecodedFour(b: Bytes)
    requires |b| >= 4 && 0xF0 <= b[0] < 0xF8 && IsTail(b[1]) && IsTail(b[2]) && IsTail(b[3]) && DecodeChar(b).Some?
    ensures DecodeChar(b).value.1 == 4 && EncodeChar(DecodeChar(b).value.0) == b[..4]
  {
    FourDigits(b[0] - 0xF0, Six(b[1]), Six(b[2]), Six(b[3]));
    var x := (b[0] as int - 0xF0) * 262_144 + Six(b[1]) * 4096 + Six(b[2]) * 64 + Six(b[3]);
    var c := x as char;
    assert EncodeChar(c) == [0xF0 + x / 262_144, Tail(x / 4096), Tail(x / 64), Tail(x)];
  }

  lemma FourDigits(h: nat, i: nat, j: nat, k: nat)
    requires h < 8 && i < 64 && j < 64 && k < 64
    ensures var x := h * 262_144 + i * 4096 + j * 64 + k;
            x / 262_144 == h && x / 4096 % 64 == i && x / 64 % 64 == j && x % 64 == k
  {
    var x := h * 262_144 + i * 4096 + j * 64 + k;
    assert x / 64 == h * 4096 + i * 64 + j;
    assert x / 4096 == h * 64 + i;
  }

  /** A character is only decoded from its own encoding: nothing over-long, and no surrogate. */
  lemma DecodedIsEncoded(b: Bytes)
    requires b != [] && DecodeChar(b).Some?
    ensures var (c, n) := DecodeChar(b).value; EncodeChar(c) == b[..n]
  {
    if 0xC0 <= b[0] < 0xE0 {
      DecodedTwo(b);
    } else if 0xE0 <= b[0] < 0xF0 {
      DecodedThree(b);
    } else if b[0] >= 0xF0 {
      DecodedFour(b);
    }
  }

  /** So lenient decoding loses nothing unseen: it is exact, or it leaves a replacement character. */
  lemma {:induction false} LossIsMarked(b: Bytes)
    ensures Utf8(FromUtf8Lossy(b)) == b || '\U{FFFD}' in FromUtf8Lossy(b)
    decreases |b|
  {
    if b != [] && DecodeChar(b).Some? {
      LossIsMarked(b[DecodeChar(b).value.1..]);
      FirstDecoded(b);
    }
  }

  lemma FirstDecoded(b: Bytes)
    requires b != [] && DecodeChar(b).Some?
    ensures var rest := b[DecodeChar(b).value.1..];
            && (Utf8(FromUtf8Lossy(rest)) == rest ==> Utf8(FromUtf8Lossy(b)) == b)
            && ('\U{FFFD}' in FromUtf8Lossy(rest) ==> '\U{FFFD}' in FromUtf8Lossy(b))
  {
    var (c, n) := DecodeChar(b).value;
    DecodedIsEncoded(b);
    var rest := FromUtf8Lossy(b[n..]);
    assert ([c] + rest)[1..] == rest && b == b[..n] + b[n..];
  }

  // ---- percent-encoding ------------------------------------------------------

  const PERCENT: Byte := 0x25
  const AMPERSAND: Byte := 0x26
  const PLUS: Byte := 0x2B
  const EQUALS: Byte := 0x3D
  const SPACE: Byte := 0x20

  /** The bytes that form-urlencoding leaves as they are: alphanumerics and `*-._`. */
  predicate Unreserved(b: Byte) {
    0x30 <= b <= 0x39 || 0x41 <= b <= 0x5A || 0x61 <= b <= 0x7A || b in [0x2A, 0x2D, 0x2E, 0x5F]
  }

  function HexDigit(d: nat): Byte requires d < 16 {
    if d < 10 then 0x30 + d else 0x41 + d - 10
  }

  function HexValue(b: Byte): Option<nat> {
    if 0x30 <= b <= 0x39 then Some(b - 0x30)
    else if 0x41 <= b <= 0x46 then Some(b - 0x41 + 10)
    else if 0x61 <= b <= 0x66 then Some(b - 0x61 + 10)
    else None
  }

  function EncodeByte(b: Byte): Bytes {
    if Unreserved(b) then [b] else if b == SPACE then [PLUS] else [PERCENT, HexDigit(b / 16), HexDigit(b % 16)]
  }

  function Encode(bs: Bytes): Bytes {
    if bs == [] then [] else EncodeByte(bs[0]) + Encode(bs[1..])
  }

  /** Decoding never fails: a `%` that no two hex digits follow stands for itself. */
  function Decode(bs: Bytes): Bytes {
    if bs == [] then []
    else if bs[0] == PLUS then [SPACE] + Decode(bs[1..])
    else if bs[0] == PERCENT && |bs| >= 3 && HexValue(bs[1]).Some? && HexValue(bs[2]).Some? then
      var b: int := HexValue(bs[1]).value * 16 + HexValue(bs[2]).value;
      (if b < 256 then [b] else []) + Decode(bs[3..])
    else [bs[0]] + Decode(bs[1..])
  }

  lemma HexRoundTrip(b: Byte)
    ensures HexValue(HexDigit(b / 16)) == Some(b / 16) && HexValue(HexDigit(b % 16)) == Some(b % 16)
    ensures b / 16 * 16 + b % 16 == b
    ensures forall d: nat :: d < 16 ==> HexDigit(d) != AMPERSAND && HexDigit(d) != EQUALS
  {}

  lemma ByteRoundTrip(b: Byte, rest: Bytes)
    ensures Decode(EncodeByte(b) + rest) == [b] + Decode(rest)
    ensures AMPERSAND !in EncodeByte(b) && EQUALS !in EncodeByte(b)
  {
    var e := EncodeByte(b) + rest;
    HexRoundTrip(b);
    if Unreserved(b) || b == SPACE {
      assert e[1..] == rest;
    } else {
      assert e[0] == PERCENT && e[1] == HexDigit(b / 16) && e[2] == HexDigit(b % 16);
      assert e[3..] == rest;
    }
  }

  lemma {:induction false} PercentRoundTrip(bs: Bytes)
    ensures Decode(Encode(bs)) == bs
    ensures AMPERSAND !in Encode(bs) && EQUALS !in Encode(bs)
  {
    if bs != [] {
      PercentRoundTrip(bs[1..]);
      ByteRoundTrip(bs[0], Encode(bs[1..]));
    }
  }

  // ---- the form ----------------------------------------------------------------

  type Field = (Bytes, Bytes)

  function Serialize(fields: seq<Field>): Bytes {
    if fields == [] then []
    else
      var first := Encode(fields[0].0) + [EQUALS] + Encode(fields[0].1);
      if |fields| == 1 then first else first + [AMPERSAND] + Serialize(fields[1..])
  }

  function ParseField(piece: Bytes): Field {
    match SplitOnce(piece, EQUALS)
    case None => (Decode(piece), [])
    case Some((k, v)) => (Decode(k), Decode(v))
  }

  function ParseFields(pieces: seq<Bytes>): seq<Field> {
    if pieces == [] then []
    else (if pieces[0] == [] then [] else [ParseField(pieces[0])]) + ParseFields(pieces[1..])
  }

  function Parse(query: Bytes): seq<Field> { ParseFields(Split(query, AMPERSAND)) }

  /** What may stand in a serialized form: letters, digits, and `*-._`, `%`, `+`, `&` and `=`. */
  const FORM_BYTES: seq<(int, int)> := [
    (0x25, 0x26), (0x2A, 0x2B), (0x2D, 0x2E), (0x30, 0x39), (0x3D, 0x3D), (0x41, 0x5A), (0x5F, 0x5F), (0x61, 0x7A)]

  predicate IsFormByte(b: Byte) { exists i :: 0 <= i < |FORM_BYTES| && FORM_BYTES[i].0 <= b <= FORM_BYTES[i].1 }

  lemma EncodedIsFormByte(b: Byte)
    ensures forall e :: e in EncodeByte(b) ==> IsFormByte(e)
    ensures IsFormByte(EQUALS) && IsFormByte(AMPERSAND)
  {
    assert FORM_BYTES[0].0 <= PERCENT <= FORM_BYTES[0].1 && FORM_BYTES[0].0 <= AMPERSAND <= FORM_BYTES[0].1;
    assert FORM_BYTES[1].0 <= PLUS <= FORM_BYTES[1].1 && FORM_BYTES[4].0 <= EQUALS <= FORM_BYTES[4].1;
    forall e | e in EncodeByte(b) && e != PERCENT && e != PLUS ensures IsFormByte(e) {
      var i := if e <= 0x2B then 1 else if e <= 0x2E then 2 else if e <= 0x39 then 3 else if e <= 0x5A then 5
               else if e <= 0x5F then 6 else 7;
      assert FORM_BYTES[i].0 <= e <= FORM_BYTES[i].1;
    }
  }

  lemma {:induction false} EncodedIsForm(bs: Bytes)
    ensures forall e :: e in Encode(bs) ==> IsFormByte(e)
  {
    if bs != [] {
      EncodedIsFormByte(bs[0]);
      EncodedIsForm(bs[1..]);
    }
  }

  /** Whatever the fields, the form is plain ASCII that a URL can carry as its query. */
  lemma {:induction false} SerializedIsForm(fields: seq<Field>)
    ensures forall e :: e in Serialize(fields) ==> IsFormByte(e)
  {
    if fields != [] {
      EncodedIsForm(fields[0].0);
      EncodedIsForm(fields[0].1);
      EncodedIsFormByte(EQUALS);
      SerializedIsForm(fields[1..]);
    }
  }

  /** How single bytes are spelled: `%` and two upper-case hex digits, a space as `+`. */
  lemma BytesAreSpelled()
    ensures Encode([0x2F]) == [0x25, 0x32, 0x46] && Encode([0x3D]) == [0x25, 0x33, 0x44]
    ensures Encode([0x20]) == [0x2B] && Encode([0x7E]) == [0x25, 0x37, 0x45] && Encode([0x2E]) == [0x2E]
  {}

  /** Reading a form back gives the fields that were written, all of them and in order. */
  lemma {:induction false} FormRoundTrip(fields: seq<Field>)
    ensures Parse(Serialize(fields)) == fields
  {
    if fields == [] {
      var pieces := Split(Serialize(fields), AMPERSAND);
      assert ParseFields(pieces[1..]) == [];
    } else {
      var f, rest := fields[0], fields[1..];
      var first: Bytes := Encode(f.0) + [EQUALS] + Encode(f.1);
      PercentRoundTrip(f.0);
      PercentRoundTrip(f.1);
      SplitOnceAt(Encode(f.0), EQUALS, Encode(f.1));
      assert ParseField(first) == f;
      assert fields == [f] + rest;
      if rest == [] {
        SplitWhole(first, AMPERSAND);
        assert Serialize(fields) == first;
        var pieces := Split(first, AMPERSAND);
        assert ParseFields(pieces[1..]) == [];
      } else {
        SplitAt(first, AMPERSAND, Serialize(rest));
        FormRoundTrip(rest);
        assert ([first] + Split(Serialize(rest), AMPERSAND))[1..] == Split(Serialize(rest), AMPERSAND);
      }
    }
  }
}
