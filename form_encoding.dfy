/**
 * `java.net.URLEncoder.encode(s, "UTF-8")`: the application/x-www-form-urlencoded
 * encoding of section 17.13.4.1 of HTML 4.01. Letters, digits and `.-*_` are
 * kept, a space becomes `+`, and every other character is written as the
 * UTF-8 bytes of its code point, each byte as `%` and two upper-case hex digits.
 *
 * `Decode` is the matching decoder (what `java.net.URLDecoder` does on the
 * server side); it is the partner against which the encoder is proved.
 */
module FormEncoding {
  import opened Nullable

  type Byte = b: int | 0 <= b < 0x100

  /** The characters `URLEncoder` copies unchanged (its `dontNeedEncoding`, less the space). */
  predicate IsKept(c: char) {
    ('a' <= c <= 'z') || ('A' <= c <= 'Z') || ('0' <= c <= '9') ||
    c == '.' || c == '-' || c == '*' || c == '_'
  }

  /** The alphabet of an encoded string. */
  predicate IsSafe(c: char) {
    IsKept(c) || c == '+' || c == '%'
  }

  /** The UTF-8 encoding of one Unicode scalar value. */
  function Utf8(c: char): (b: seq<Byte>)
    ensures 1 <= |b| <= 4
    ensures |b| == 1 <==> c as int < 0x80
    ensures |b| == 1 ==> b[0] == c as int
    ensures |b| > 1 ==> forall i :: 0 <= i < |b| ==> b[i] >= 0x80
  {
    var n := c as int;
    if n < 0x80 then [n]
    else if n < 0x800 then [0xC0 + n / 0x40, 0x80 + n % 0x40]
    else if n < 0x1_0000 then [0xE0 + n / 0x1000, 0x80 + n / 0x40 % 0x40, 0x80 + n % 0x40]
    else [0xF0 + n / 0x4_0000, 0x80 + n / 0x1000 % 0x40, 0x80 + n / 0x40 % 0x40, 0x80 + n % 0x40]
  }

  /** `s.getBytes("UTF-8")`. */
  function Utf8Of(s: string): seq<Byte> {
    if s == [] then [] else Utf8(s[0]) + Utf8Of(s[1..])
  }

  /** `Character.forDigit(d, 16)`, upper-cased as `URLEncoder` does. */
  function HexDigit(d: int): (c: char)
    requires 0 <= d < 16
    ensures IsKept(c)
  {
    if d < 10 then ('0' as int + d) as char else ('A' as int + d - 10) as char
  }

  predicate IsHex(c: char) {
    ('0' <= c <= '9') || ('A' <= c <= 'F') || ('a' <= c <= 'f')
  }

  function HexValue(c: char): (d: int)
    requires IsHex(c)
    ensures 0 <= d < 16
  {
    if '0' <= c <= '9' then c as int - '0' as int
    else if 'A' <= c <= 'F' then c as int - 'A' as int + 10
    else c as int - 'a' as int + 10
  }

  /** One byte written as `%XX`. */
  function Escape(b: Byte): (r: string)
    ensures forall c :: c in r ==> IsSafe(c)
  {
    ['%', HexDigit(b / 16), HexDigit(b % 16)]
  }

  function EscapeAll(bs: seq<Byte>): (r: string)
    ensures forall c :: c in r ==> IsSafe(c)
  {
    if bs == [] then [] else Escape(bs[0]) + EscapeAll(bs[1..])
  }

  /** What `URLEncoder` writes for one character. */
  function EncodeChar(c: char): (r: string)
    ensures forall x :: x in r ==> IsSafe(x)
  {
    if IsKept(c) then [c]
    else if c == ' ' then "+"
    else EscapeAll(Utf8(c))
  }

  /** `URLEncoder.encode(s, "UTF-8")`. */
  function Encode(s: string): (r: string)
    ensures |r| >= |s|
    ensures forall c :: c in r ==> IsSafe(c)
  {
    if s == [] then [] else EncodeChar(s[0]) + Encode(s[1..])
  }

  /** The same encoding stated on the UTF-8 bytes of the input. */
  function EncodeByte(b: Byte): string {
    if b < 0x80 && IsKept(b as char) then [b as char]
    else if b == 0x20 then "+"
    else Escape(b)
  }

  function EncodeBytes(bs: seq<Byte>): string {
    if bs == [] then [] else EncodeByte(bs[0]) + EncodeBytes(bs[1..])
  }

  /**
   * `URLDecoder.decode(s, ...)` down to bytes: `+` is a space, `%XX` is one
   * byte, any other character stands for its own UTF-8 bytes, and a `%` not
   * followed by two hex digits is an error.
   */
  function Decode(s: string): Option<seq<Byte>>
    decreases |s|
  {
    if s == [] then Some([])
    else if s[0] == '%' then
      if |s| >= 3 && IsHex(s[1]) && IsHex(s[2]) then
        match Decode(s[3..])
        case None => None
        case Some(rest) => Some([HexValue(s[1]) * 16 + HexValue(s[2])] + rest)
      else None
    else
      match Decode(s[1..])
      case None => None
      case Some(rest) => Some((if s[0] == '+' then [0x20] else Utf8(s[0])) + rest)
  }

  /** Bytes read back as characters one for one (exact for ASCII). */
  function AsciiText(bs: seq<Byte>): string {
    if bs == [] then [] else [bs[0] as char] + AsciiText(bs[1..])
  }

  lemma HexDigitValue(d: int)
    requires 0 <= d < 16
    ensures IsHex(HexDigit(d)) && HexValue(HexDigit(d)) == d
  {
  }

  lemma {:induction false} EncodeBytesAppend(a: seq<Byte>, b: seq<Byte>)
    ensures EncodeBytes(a + b) == EncodeBytes(a) + EncodeBytes(b)
    decreases |a|
  {
    if a == [] {
      assert a + b == b;
    } else {
      assert (a + b)[1..] == a[1..] + b;
      EncodeBytesAppend(a[1..], b);
    }
  }

  lemma {:induction false} EscapeAllHigh(bs: seq<Byte>)
    requires forall i :: 0 <= i < |bs| ==> bs[i] >= 0x80
    ensures EncodeBytes(bs) == EscapeAll(bs)
    decreases |bs|
  {
    if bs != [] {
      EscapeAllHigh(bs[1..]);
    }
  }

  /** Encoding a character is encoding its UTF-8 bytes. */
  lemma EncodeCharViaBytes(c: char)
    ensures EncodeChar(c) == EncodeBytes(Utf8(c))
  {
    var b := Utf8(c);
    if |b| == 1 {
      assert b == [c as int];
      assert EncodeBytes(b) == EncodeByte(c as int) + EncodeBytes([]);
      assert (c as int) as char == c;
      assert EscapeAll(b) == Escape(c as int) + EscapeAll([]);
    } else {
      EscapeAllHigh(b);
    }
  }

  /** `URLEncoder`'s character-by-character walk equals the byte-level encoding. */
  lemma {:induction false} EncodeViaBytes(s: string)
    ensures Encode(s) == EncodeBytes(Utf8Of(s))
    decreases |s|
  {
    if s != [] {
      EncodeViaBytes(s[1..]);
      EncodeCharViaBytes(s[0]);
      EncodeBytesAppend(Utf8(s[0]), Utf8Of(s[1..]));
    }
  }

  /** Byte-level round trip: decoding the encoding gives back the bytes. */
  lemma {:induction false} DecodeEncodeBytes(bs: seq<Byte>)
    ensures Decode(EncodeBytes(bs)) == Some(bs)
    decreases |bs|
  {
    if bs != [] {
      var b := bs[0];
      var t := EncodeBytes(bs[1..]);
      var e := EncodeByte(b);
      DecodeEncodeBytes(bs[1..]);
      assert EncodeBytes(bs) == e + t;
      if b < 0x80 && IsKept(b as char) {
        assert (e + t)[0] == b as char && (e + t)[1..] == t;
        assert Utf8(b as char) == [b];
      } else if b == 0x20 {
        assert (e + t)[0] == '+' && (e + t)[1..] == t;
      } else {
        HexDigitValue(b / 16);
        HexDigitValue(b % 16);
        assert (e + t)[0] == '%' && (e + t)[1] == HexDigit(b / 16) && (e + t)[2] == HexDigit(b % 16);
        assert (e + t)[3..] == t;
      }
      assert [b] + bs[1..] == bs;
    }
  }

  /** The server's decoder recovers the UTF-8 bytes of what was encoded. */
  lemma DecodeEncode(s: string)
    ensures Decode(Encode(s)) == Some(Utf8Of(s))
  {
    EncodeViaBytes(s);
    DecodeEncodeBytes(Utf8Of(s));
  }

  /** On ASCII text, UTF-8 bytes read back one for one give the text again. */
  lemma {:induction false} AsciiRoundTrip(t: string)
    requires forall c :: c in t ==> c as int < 0x80
    ensures AsciiText(Utf8Of(t)) == t
    decreases |t|
  {
    if t != [] {
      assert t[0] in t;
      assert forall c :: c in t[1..] ==> c in t;
      AsciiRoundTrip(t[1..]);
      assert Utf8Of(t) == [t[0] as int] + Utf8Of(t[1..]);
      assert ([t[0] as int] + Utf8Of(t[1..]))[1..] == Utf8Of(t[1..]);
      assert [t[0]] + t[1..] == t;
    }
  }

  /**
   * A value encoded twice is recovered by a server that decodes twice:
   * the first decoding gives the single encoding back as ASCII text.
   */
  lemma DecodeTwice(s: string)
    ensures Decode(Encode(Encode(s))).Some?
    ensures AsciiText(Decode(Encode(Encode(s))).value) == Encode(s)
    ensures Decode(AsciiText(Decode(Encode(Encode(s))).value)) == Some(Utf8Of(s))
  {
    var once := Encode(s);
    DecodeEncode(once);
    AsciiRoundTrip(once);
    DecodeEncode(s);
  }

  /** A string of kept characters encodes to itself. */
  lemma {:induction false} EncodeKept(s: string)
    requires forall c :: c in s ==> IsKept(c)
    ensures Encode(s) == s
    decreases |s|
  {
    if s != [] {
      assert s[0] in s;
      assert forall c :: c in s[1..] ==> c in s;
      EncodeKept(s[1..]);
      assert [s[0]] + s[1..] == s;
    }
  }
}
