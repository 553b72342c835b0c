/** Git's path inventories: the canonical path encoding, and the NUL-separated lists it comes in. */
module GitPaths {
  import opened Model
  import opened Framing

  // ---- UTF-8 (section 4 of RFC 3629) ----

  predicate In(b: Byte, low: int, high: int) { low <= b as int <= high }

  predicate Tail(b: Byte) { In(b, 0x80, 0xBF) }

  /** How many bytes the well-formed character at the start takes; zero if there is none. */
  function CharLength(s: Bytes): (n: nat)
    ensures n <= |s| && n <= 4
  {
    if |s| >= 1 && In(s[0], 0x00, 0x7F) then 1
    else if |s| >= 2 && In(s[0], 0xC2, 0xDF) && Tail(s[1]) then 2
    else if |s| >= 3 && Tail(s[2])
            && ((In(s[0], 0xE0, 0xE0) && In(s[1], 0xA0, 0xBF)) || (In(s[0], 0xE1, 0xEC) && Tail(s[1]))
                || (In(s[0], 0xED, 0xED) && In(s[1], 0x80, 0x9F)) || (In(s[0], 0xEE, 0xEF) && Tail(s[1]))) then 3
    else if |s| >= 4 && Tail(s[2]) && Tail(s[3])
            && ((In(s[0], 0xF0, 0xF0) && In(s[1], 0x90, 0xBF)) || (In(s[0], 0xF1, 0xF3) && Tail(s[1]))
                || (In(s[0], 0xF4, 0xF4) && In(s[1], 0x80, 0x8F))) then 4
    else 0
  }

  predicate ValidUtf8(s: Bytes) {
    s == [] || (CharLength(s) > 0 && ValidUtf8(s[CharLength(s)..]))
  }

  lemma CharLengthExtends(a: Bytes, b: Bytes)
    requires CharLength(a) > 0
    ensures CharLength(a + b) == CharLength(a)
  {}

  lemma {:induction false} Utf8Concat(a: Bytes, b: Bytes)
    requires ValidUtf8(a) && ValidUtf8(b)
    ensures ValidUtf8(a + b)
    decreases |a|
  {
    if a == [] {
      assert a + b == b;
    } else {
      CharLengthExtends(a, b);
      var n := CharLength(a);
      assert (a + b)[n..] == a[n..] + b;
      Utf8Concat(a[n..], b);
    }
  }

  /** A Unicode scalar value: a code point that is not a surrogate. */
  predicate Scalar(c: nat) { c < 0xD800 || 0xE000 <= c < 0x11_0000 }

  function Low(c: nat): Byte { (0x80 + c % 64) as char }

  /** The encoding of one, in the shortest of the four forms. */
  function Utf8Of(c: nat): Bytes
    requires Scalar(c)
  {
    if c < 0x80 then [c as char]
    else if c < 0x800 then [(0xC0 + c / 64) as char, Low(c)]
    else if c < 0x1_0000 then [(0xE0 + c / 4096) as char, Low(c / 64), Low(c)]
    else [(0xF0 + c / 262_144) as char, Low(c / 4096), Low(c / 64), Low(c)]
  }

  function Utf8All(text: seq<nat>): Bytes
    requires forall i | 0 <= i < |text| :: Scalar(text[i])
  {
    if text == [] then [] else Utf8Of(text[0]) + Utf8All(text[1..])
  }

  lemma EncodedLength(c: nat, rest: Bytes)
    requires Scalar(c)
    ensures CharLength(Utf8Of(c) + rest) == |Utf8Of(c)|
  {
    if c < 0x800 {
      var s := Utf8Of(c) + rest;
      assert s[0] == Utf8Of(c)[0] && (c >= 0x80 ==> s[1] == Low(c));
    } else if c < 0x1_0000 {
      ThreeBytesLong(c, rest);
    } else {
      FourBytesLong(c, rest);
    }
  }

  lemma ThreeBytesLong(c: nat, rest: Bytes)
    requires Scalar(c) && 0x800 <= c < 0x1_0000
    ensures CharLength(Utf8Of(c) + rest) == 3 == |Utf8Of(c)|
  {
    var s := Utf8Of(c) + rest;
    var h, a := c / 4096, c / 64 % 64;
    assert h < 16 && c / 64 == h * 64 + a;
    assert s[0] as int == 0xE0 + h && s[1] as int == 0x80 + a && Tail(s[2]);
  }

  lemma FourBytesLong(c: nat, rest: Bytes)
    requires Scalar(c) && c >= 0x1_0000
    ensures CharLength(Utf8Of(c) + rest) == 4 == |Utf8Of(c)|
  {
    var s := Utf8Of(c) + rest;
    var h, a := c / 262_144, c / 4096 % 64;
    assert h < 5 && c / 4096 == h * 64 + a;
    assert s[0] as int == 0xF0 + h && s[1] as int == 0x80 + a && Tail(s[2]) && Tail(s[3]);
  }

  /** The scalar value a well-formed character stands for. */
  function Decoded(s: Bytes): nat
    requires CharLength(s) > 0
  {
    match CharLength(s)
    case 1 => s[0] as nat
    case 2 => (s[0] as nat - 0xC0) * 64 + (s[1] as nat - 0x80)
    case 3 => (s[0] as nat - 0xE0) * 4096 + (s[1] as nat - 0x80) * 64 + (s[2] as nat - 0x80)
    case _ =>
      (s[0] as nat - 0xF0) * 262_144 + (s[1] as nat - 0x80) * 4096 + (s[2] as nat - 0x80) * 64 + (s[3] as nat - 0x80)
  }

  /** The six-bit groups of a number. */
  lemma Groups(h: nat, a: nat, b: nat, c: nat)
    requires a < 64 && b < 64 && c < 64
    ensures (h * 64 + a) / 64 == h && (h * 64 + a) % 64 == a
    ensures var n := h * 4096 + a * 64 + b; n / 64 == h * 64 + a && n % 64 == b && n / 4096 == h
    ensures var n := h * 262_144 + a * 4096 + b * 64 + c;
            n / 64 == h * 4096 + a * 64 + b && n % 64 == c && n / 4096 == h * 64 + a && n / 262_144 == h
  {}

  lemma DecodedEncodes(s: Bytes)
    requires CharLength(s) > 0
    ensures Scalar(Decoded(s)) && Utf8Of(Decoded(s)) == s[..CharLength(s)]
  {
    var n := CharLength(s);
    if n == 2 {
      Groups(s[0] as nat - 0xC0, s[1] as nat - 0x80, 0, 0);
      assert Utf8Of(Decoded(s)) == [s[0], s[1]];
    } else if n == 3 {
      ThreeBytes(s);
    } else if n == 4 {
      FourBytes(s);
    }
  }

  lemma ThreeBytes(s: Bytes)
    requires CharLength(s) == 3
    ensures Scalar(Decoded(s)) && Utf8Of(Decoded(s)) == s[..3]
  {
    var h, a, b := s[0] as nat - 0xE0, s[1] as nat - 0x80, s[2] as nat - 0x80;
    var c := h * 4096 + a * 64 + b;
    Groups(h, a, b, 0);
    assert Decoded(s) == c && 0x800 <= c < 0x1_0000;
    assert Low(c / 64) == s[1] && Low(c) == s[2];
    assert s[..3] == [s[0], s[1], s[2]];
  }

  lemma FourBytes(s: Bytes)
    requires CharLength(s) == 4
    ensures Scalar(Decoded(s)) && Utf8Of(Decoded(s)) == s[..4]
  {
    var h, a, b, c := s[0] as nat - 0xF0, s[1] as nat - 0x80, s[2] as nat - 0x80, s[3] as nat - 0x80;
    var n := h * 262_144 + a * 4096 + b * 64 + c;
    Groups(h, a, b, c);
    Groups(h, a, b, 0);
    assert Decoded(s) == n && 0x1_0000 <= n < 0x11_0000;
    assert Low(n / 4096) == s[1] && Low(n / 64) == s[2] && Low(n) == s[3];
    assert s[..4] == [s[0], s[1], s[2], s[3]];
  }

  /** Well-formed is exactly what encodes a sequence of scalar values. */
  lemma {:induction false} Utf8IsText(s: Bytes)
    ensures ValidUtf8(s) <==> exists text: seq<nat> :: (forall i | 0 <= i < |text| :: Scalar(text[i])) && Utf8All(text) == s
    decreases |s|
  {
    if ValidUtf8(s) {
      var text := TextOf(s);
      assert (forall i | 0 <= i < |text| :: Scalar(text[i])) && Utf8All(text) == s;
    }
    if text: seq<nat> :| (forall i | 0 <= i < |text| :: Scalar(text[i])) && Utf8All(text) == s {
      EncodedIsValid(text);
    }
  }

  lemma {:induction false} EncodedIsValid(text: seq<nat>)
    requires forall i | 0 <= i < |text| :: Scalar(text[i])
    ensures ValidUtf8(Utf8All(text))
    decreases |text|
  {
    hide Utf8Of;
    hide CharLength;
    if text == [] {
    } else {
      var first, rest := Utf8Of(text[0]), Utf8All(text[1..]);
      EncodedLength(text[0], rest);
      EncodedIsSome(text[0]);
      EncodedIsValid(text[1..]);
      assert (first + rest)[|first|..] == rest;
    }
  }

  lemma EncodedIsSome(c: nat)
    requires Scalar(c)
    ensures Utf8Of(c) != []
  {}

  /** The scalar values a well-formed text encodes. */
  lemma {:induction false} TextOf(s: Bytes) returns (text: seq<nat>)
    requires ValidUtf8(s)
    ensures (forall i | 0 <= i < |text| :: Scalar(text[i])) && Utf8All(text) == s
    decreases |s|
  {
    hide Utf8Of;
    hide CharLength;
    hide Decoded;
    if s == [] {
      text := [];
    } else {
      var n := CharLength(s);
      var rest := TextOf(s[n..]);
      DecodedEncodes(s);
      text := [Decoded(s)] + rest;
      assert text[1..] == rest && s == s[..n] + s[n..];
    }
  }

  // ---- lowercase hexadecimal ----

  predicate LowerHex(c: Byte) { '0' <= c <= '9' || 'a' <= c <= 'f' }

  function Digit(n: nat): (c: Byte)
    requires n < 16
    ensures LowerHex(c) && DigitValue(c) == Some(n)
  {
    if n < 10 then '0' + n as char else 'a' + (n - 10) as char
  }

  /** `hex::decode` reads either case. */
  function DigitValue(c: Byte): (n: Option<nat>)
    ensures n.Some? ==> n.value < 16
  {
    if '0' <= c <= '9' then Some((c - '0') as nat)
    else if 'a' <= c <= 'f' then Some((c - 'a') as nat + 10)
    else if 'A' <= c <= 'F' then Some((c - 'A') as nat + 10)
    else None
  }

  function HexEncode(s: Bytes): Bytes {
    if s == [] then [] else [Digit(s[0] as nat / 16), Digit(s[0] as nat % 16)] + HexEncode(s[1..])
  }

  function HexDecode(s: Bytes): Option<Bytes> {
    if s == [] then Some([])
    else if |s| == 1 || DigitValue(s[0]).None? || DigitValue(s[1]).None? then None
    else
      match HexDecode(s[2..])
      case None => None
      case Some(rest) => Some([(16 * DigitValue(s[0]).value + DigitValue(s[1]).value) as char] + rest)
  }

  predicate AllLowerHex(s: Bytes) {
    forall i | 0 <= i < |s| :: LowerHex(s[i])
  }

  lemma {:induction false} HexRoundTrip(s: Bytes)
    ensures HexDecode(HexEncode(s)) == Some(s) && AllLowerHex(HexEncode(s)) && |HexEncode(s)| == 2 * |s|
  {
    hide Digit;
    hide DigitValue;
    if s == [] {
    } else {
      HexRoundTrip(s[1..]);
      var h := HexEncode(s);
      assert h[2..] == HexEncode(s[1..]);
      Nibbles(s[0] as nat / 16, s[0] as nat % 16);
      assert forall i | 2 <= i < |h| :: h[i] == h[2..][i - 2];
      assert s == [s[0]] + s[1..];
    }
  }

  lemma DigitReadsBack(c: Byte)
    requires LowerHex(c)
    ensures DigitValue(c).Some? && Digit(DigitValue(c).value) == c
  {}

  lemma Nibbles(high: nat, low: nat)
    requires high < 16 && low < 16
    ensures (16 * high + low) / 16 == high && (16 * high + low) % 16 == low
  {}

  lemma {:induction false} HexCanonical(s: Bytes)
    requires AllLowerHex(s) && HexDecode(s).Some?
    ensures HexEncode(HexDecode(s).value) == s
    decreases |s|
  {
    hide Digit;
    hide DigitValue;
    if s == [] {
    } else {
      assert AllLowerHex(s[2..]);
      HexCanonical(s[2..]);
      var bytes := HexDecode(s).value;
      assert bytes[1..] == HexDecode(s[2..]).value;
      DigitReadsBack(s[0]);
      DigitReadsBack(s[1]);
      Nibbles(DigitValue(s[0]).value, DigitValue(s[1]).value);
      assert s == [s[0], s[1]] + s[2..];
    }
  }

  // ---- GitPath ----

  /** A text is kept as its UTF-8 bytes. */
  datatype GitPath = Utf8(text: Bytes) | UnixBytes(hex: Bytes)

  /** `git_path_from_bytes` on Unix. */
  function FromBytes(bytes: Bytes): GitPath {
    if ValidUtf8(bytes) then Utf8(bytes) else UnixBytes(HexEncode(bytes))
  }

  /** `to_path_buf` on Unix. */
  function ToBytes(path: GitPath): Option<Bytes> {
    match path
    case Utf8(text) => Some(text)
    case UnixBytes(hex) => HexDecode(hex)
  }

  /** `is_valid_encoding`; that a text is UTF-8 is a fact of its type. */
  predicate IsValidEncoding(path: GitPath) {
    match path
    case Utf8(text) => ValidUtf8(text) && text != [] && '\0' !in text
    case UnixBytes(hex) =>
      && hex != []
      && AllLowerHex(hex)
      && HexDecode(hex).Some?
      && HexDecode(hex).value != []
      && '\0' !in HexDecode(hex).value
      && !ValidUtf8(HexDecode(hex).value)
  }

  /** One direction of the bijection: bytes of a name survive the encoding, which is valid. */
  lemma NamesEncode(bytes: Bytes)
    requires bytes != [] && '\0' !in bytes
    ensures IsValidEncoding(FromBytes(bytes)) && ToBytes(FromBytes(bytes)) == Some(bytes)
  {
    HexRoundTrip(bytes);
  }

  /** The other: a valid encoding is the one encoding of a name. */
  lemma EncodingsDecode(path: GitPath)
    requires IsValidEncoding(path)
    ensures ToBytes(path).Some?
    ensures var bytes := ToBytes(path).value; bytes != [] && '\0' !in bytes && FromBytes(bytes) == path
  {
    if path.UnixBytes? {
      HexCanonical(path.hex);
    }
  }

  // ---- NUL-separated lists ----

  /** Splitting at NULs, empty items dropped; `item` is the one in progress. */
  function SplitNul(bytes: Bytes, item: Bytes): seq<Bytes>
    decreases |bytes|
  {
    if bytes == [] then (if item == [] then [] else [item])
    else if bytes[0] == '\0' then (if item == [] then [] else [item]) + SplitNul(bytes[1..], [])
    else SplitNul(bytes[1..], item + [bytes[0]])
  }

  function PrintNul(items: seq<Bytes>): Bytes {
    if items == [] then [] else items[0] + (['\0'] + PrintNul(items[1..]))
  }

  predicate Separable(items: seq<Bytes>) {
    forall i | 0 <= i < |items| :: '\0' !in items[i]
  }

  lemma {:induction false} SplitOne(item: Bytes, rest: Bytes, before: Bytes)
    requires '\0' !in item
    ensures SplitNul(item + (['\0'] + rest), before)
            == (if before + item == [] then [] else [before + item]) + SplitNul(rest, [])
    decreases |item|
  {
    var bytes := item + (['\0'] + rest);
    if item == [] {
      assert bytes == ['\0'] + rest && bytes[1..] == rest && before + item == before;
    } else {
      assert bytes[0] == item[0] && item[0] in item && bytes[1..] == item[1..] + (['\0'] + rest);
      SplitOne(item[1..], rest, before + [item[0]]);
      assert (before + [item[0]]) + item[1..] == before + item;
    }
  }

  /** The items that are not empty, in order. */
  function NotEmpty(items: seq<Bytes>): seq<Bytes> {
    if items == [] then [] else (if items[0] == [] then [] else [items[0]]) + NotEmpty(items[1..])
  }

  lemma {:induction false} SplitPrints(items: seq<Bytes>)
    requires Separable(items)
    ensures SplitNul(PrintNul(items), []) == NotEmpty(items)
    decreases |items|
  {
    if items == [] {
    } else {
      SplitOne(items[0], PrintNul(items[1..]), []);
      assert [] + items[0] == items[0];
      SplitPrints(items[1..]);
    }
  }

  /** `parse_nul_paths`. */
  function ParsePaths(bytes: Bytes): seq<GitPath> {
    Encoded(SplitNul(bytes, []))
  }

  function Encoded(items: seq<Bytes>): seq<GitPath> {
    seq(|items|, i requires 0 <= i < |items| => FromBytes(items[i]))
  }

  /** Parsing what Git lists gives the paths it listed, all of them, in order, each decodable. */
  lemma InventoryParses(names: seq<Bytes>)
    requires forall i | 0 <= i < |names| :: names[i] != [] && '\0' !in names[i]
    ensures var paths := ParsePaths(PrintNul(names));
            && |paths| == |names|
            && forall i | 0 <= i < |names| :: IsValidEncoding(paths[i]) && ToBytes(paths[i]) == Some(names[i])
  {
    hide FromBytes;
    hide ToBytes;
    hide IsValidEncoding;
    SplitPrints(names);
    AllNotEmpty(names);
    forall i | 0 <= i < |names|
      ensures var path := FromBytes(names[i]); IsValidEncoding(path) && ToBytes(path) == Some(names[i])
    {
      NamesEncode(names[i]);
    }
  }

  lemma {:induction false} AllNotEmpty(items: seq<Bytes>)
    requires forall i | 0 <= i < |items| :: items[i] != []
    ensures NotEmpty(items) == items
    decreases |items|
  {
    if items == [] {
    } else {
      AllNotEmpty(items[1..]);
      assert items == [items[0]] + items[1..];
    }
  }
}
