/** Mailbox names in modified UTF-7 (section 5.1.3 of RFC 3501): the printer and the parser, through
    UTF-16 surrogate pairs and unpadded base64 that writes ',' for '/'.

    A Dafny `char` is a Unicode scalar value, so a `string` is a text without lone surrogates. */
module ModifiedUtf7 {
  import opened Common

  type Byte = b: int | 0 <= b < 256

  datatype NameError = InvalidName

  // ----- UTF-16, big endian -----

  function Utf16Char(c: char): (b: seq<Byte>)
    ensures |b| in {2, 4}
  {
    var u := c as int;
    if u < 0x10000 then [u / 256, u % 256]
    else
      var v := u - 0x10000;
      var hi, lo := 0xD800 + v / 0x400, 0xDC00 + v % 0x400;
      [hi / 256, hi % 256, lo / 256, lo % 256]
  }

  function Utf16Encode(s: string): seq<Byte> {
    if s == "" then [] else Utf16Char(s[0]) + Utf16Encode(s[1..])
  }

  /** The 16-bit unit two bytes stand for. */
  function Unit(hi: int, lo: int): int { hi * 256 + lo }

  /** Fails on a truncated unit and on a surrogate without its partner. */
  function Utf16Decode(b: seq<Byte>): Option<string> {
    if |b| == 0 then Some("")
    else if |b| < 2 then None
    else
      var u := Unit(b[0], b[1]);
      if 0xDC00 <= u <= 0xDFFF then None
      else if 0xD800 <= u <= 0xDBFF then
        if |b| < 4 then None
        else
          var l := Unit(b[2], b[3]);
          if !(0xDC00 <= l <= 0xDFFF) then None
          else Prepend((0x10000 + (u - 0xD800) * 0x400 + (l - 0xDC00)) as char, Utf16Decode(b[4..]))
      else Prepend(u as char, Utf16Decode(b[2..]))
  }

  function Prepend(c: char, rest: Option<string>): Option<string> {
    match rest
    case None => None
    case Some(s) => Some([c] + s)
  }

  lemma Utf16CharRoundTrip(c: char, tail: seq<Byte>)
    ensures Utf16Decode(Utf16Char(c) + tail) == Prepend(c, Utf16Decode(tail))
  {
    var b := Utf16Char(c) + tail;
    var u := c as int;
    if u < 0x10000 {
      assert b[2..] == tail;
      assert Unit(b[0], b[1]) == u;
    } else {
      assert b[4..] == tail;
      var v := u - 0x10000;
      assert Unit(b[0], b[1]) == 0xD800 + v / 0x400;
      assert Unit(b[2], b[3]) == 0xDC00 + v % 0x400;
    }
  }

  lemma {:induction false} Utf16RoundTrip(s: string)
    ensures Utf16Decode(Utf16Encode(s)) == Some(s)
  {
    if s != "" {
      Utf16CharRoundTrip(s[0], Utf16Encode(s[1..]));
      Utf16RoundTrip(s[1..]);
      assert s == [s[0]] + s[1..];
    }
  }

  // ----- base64 -----

  function SextetChar(v: int): char
    requires 0 <= v < 64
  {
    if v < 26 then ('A' as int + v) as char
    else if v < 52 then ('a' as int + v - 26) as char
    else if v < 62 then ('0' as int + v - 52) as char
    else if v == 62 then '+' else '/'
  }

  function SextetOf(c: char): (v: Option<int>)
    ensures v.Some? ==> 0 <= v.value < 64
  {
    if 'A' <= c <= 'Z' then Some(c as int - 'A' as int)
    else if 'a' <= c <= 'z' then Some(c as int - 'a' as int + 26)
    else if '0' <= c <= '9' then Some(c as int - '0' as int + 52)
    else if c == '+' then Some(62)
    else if c == '/' then Some(63)
    else None
  }

  /** Three bytes are four digits. */
  function FourDigits(x: Byte, y: Byte, z: Byte): string {
    [SextetChar(x / 4), SextetChar(x % 4 * 16 + y / 16), SextetChar(y % 16 * 4 + z / 64), SextetChar(z % 64)]
  }

  function Base64Encode(b: seq<Byte>): string {
    if |b| == 0 then ""
    else if |b| == 1 then [SextetChar(b[0] / 4), SextetChar(b[0] % 4 * 16), '=', '=']
    else if |b| == 2 then [SextetChar(b[0] / 4), SextetChar(b[0] % 4 * 16 + b[1] / 16), SextetChar(b[1] % 16 * 4), '=']
    else FourDigits(b[0], b[1], b[2]) + Base64Encode(b[3..])
  }

  /** The lenient decoder: characters outside the alphabet are skipped, a complete pad sequence ends
      the input, left-over bits are dropped, an incomplete quad is an error.  `quad` is the place in
      the current group of four, `left` the bits carried over, `pads` the pads seen in this group. */
  function Base64Scan(s: string, quad: nat, left: nat, pads: nat): Option<seq<Byte>>
    requires quad < 4 && (quad == 1 ==> left < 64) && (quad == 2 ==> left < 16) && (quad == 3 ==> left < 4)
  {
    if s == "" then if quad == 0 then Some([]) else None
    else if s[0] == '=' then
      if quad >= 2 && quad + pads + 1 >= 4 then Some([])
      else Base64Scan(s[1..], quad, left, if quad >= 2 then pads + 1 else pads)
    else
      match SextetOf(s[0])
      case None => Base64Scan(s[1..], quad, left, pads)
      case Some(v) =>
        if quad == 0 then Base64Scan(s[1..], 1, v, 0)
        else if quad == 1 then Emit(left * 4 + v / 16, Base64Scan(s[1..], 2, v % 16, 0))
        else if quad == 2 then Emit(left * 16 + v / 4, Base64Scan(s[1..], 3, v % 4, 0))
        else Emit(left * 64 + v, Base64Scan(s[1..], 0, 0, 0))
  }

  function Emit(b: Byte, rest: Option<seq<Byte>>): Option<seq<Byte>> {
    match rest
    case None => None
    case Some(bytes) => Some([b] + bytes)
  }

  lemma ScanStep(c: char, rest: string, quad: nat, left: nat, pads: nat)
    requires quad < 4 && (quad == 1 ==> left < 64) && (quad == 2 ==> left < 16) && (quad == 3 ==> left < 4)
    requires SextetOf(c).Some?
    ensures var v := SextetOf(c).value;
            Base64Scan([c] + rest, quad, left, pads) ==
              if quad == 0 then Base64Scan(rest, 1, v, 0)
              else if quad == 1 then Emit(left * 4 + v / 16, Base64Scan(rest, 2, v % 16, 0))
              else if quad == 2 then Emit(left * 16 + v / 4, Base64Scan(rest, 3, v % 4, 0))
              else Emit(left * 64 + v, Base64Scan(rest, 0, 0, 0))
  {
    assert ([c] + rest)[1..] == rest;
  }

  lemma SextetRoundTrip(v: int)
    requires 0 <= v < 64
    ensures SextetOf(SextetChar(v)) == Some(v)
  {
  }

  lemma ScanGroup(b0: Byte, b1: Byte, b2: Byte, rest: string)
    ensures var group := [SextetChar(b0 / 4), SextetChar(b0 % 4 * 16 + b1 / 16), SextetChar(b1 % 16 * 4 + b2 / 64),
                          SextetChar(b2 % 64)];
            Base64Scan(group + rest, 0, 0, 0) == Emit(b0, Emit(b1, Emit(b2, Base64Scan(rest, 0, 0, 0))))
  {
    var v0, v1, v2, v3 := b0 / 4, b0 % 4 * 16 + b1 / 16, b1 % 16 * 4 + b2 / 64, b2 % 64;
    SextetRoundTrip(v0); SextetRoundTrip(v1); SextetRoundTrip(v2); SextetRoundTrip(v3);
    var t3 := [SextetChar(v3)] + rest;
    var t2 := [SextetChar(v2)] + t3;
    var t1 := [SextetChar(v1)] + t2;
    assert [SextetChar(v0), SextetChar(v1), SextetChar(v2), SextetChar(v3)] + rest == [SextetChar(v0)] + t1;
    ScanStep(SextetChar(v0), t1, 0, 0, 0);
    ScanStep(SextetChar(v1), t2, 1, v0, 0);
    ScanStep(SextetChar(v2), t3, 2, v1 % 16, 0);
    ScanStep(SextetChar(v3), rest, 3, v2 % 4, 0);
    assert v0 * 4 + v1 / 16 == b0;
    assert v1 % 16 * 16 + v2 / 4 == b1;
    assert v2 % 4 * 64 + v3 == b2;
  }

  lemma ScanLastByte(b0: Byte)
    ensures Base64Scan(Base64Encode([b0]), 0, 0, 0) == Some([b0])
  {
    var v0, v1 := b0 / 4, b0 % 4 * 16;
    SextetRoundTrip(v0); SextetRoundTrip(v1);
    var t1 := [SextetChar(v1)] + "==";
    ScanStep(SextetChar(v0), t1, 0, 0, 0);
    ScanStep(SextetChar(v1), "==", 1, v0, 0);
    assert Base64Encode([b0]) == [SextetChar(v0)] + t1;
    assert Base64Scan("==", 2, v1 % 16, 0) == Some([]) by { assert "=="[1..] == "="; }
    assert v0 * 4 + v1 / 16 == b0;
    assert [b0] + [] == [b0];
  }

  lemma ScanLastTwoBytes(b0: Byte, b1: Byte)
    ensures Base64Scan(Base64Encode([b0, b1]), 0, 0, 0) == Some([b0, b1])
  {
    var v0, v1, v2 := b0 / 4, b0 % 4 * 16 + b1 / 16, b1 % 16 * 4;
    SextetRoundTrip(v0); SextetRoundTrip(v1); SextetRoundTrip(v2);
    var t2 := [SextetChar(v2)] + "=";
    var t1 := [SextetChar(v1)] + t2;
    ScanStep(SextetChar(v0), t1, 0, 0, 0);
    ScanStep(SextetChar(v1), t2, 1, v0, 0);
    ScanStep(SextetChar(v2), "=", 2, v1 % 16, 0);
    assert Base64Encode([b0, b1]) == [SextetChar(v0)] + t1;
    assert v0 * 4 + v1 / 16 == b0;
    assert v1 % 16 * 16 + v2 / 4 == b1;
    assert [b0] + ([b1] + []) == [b0, b1];
  }

  lemma {:induction false} Base64RoundTrip(b: seq<Byte>)
    ensures Base64Scan(Base64Encode(b), 0, 0, 0) == Some(b)
  {
    if |b| == 0 {
    } else if |b| == 1 {
      ScanLastByte(b[0]);
      assert b == [b[0]];
    } else if |b| == 2 {
      ScanLastTwoBytes(b[0], b[1]);
      assert b == [b[0], b[1]];
    } else {
      ScanGroup(b[0], b[1], b[2], Base64Encode(b[3..]));
      Base64RoundTrip(b[3..]);
      assert b == [b[0]] + ([b[1]] + ([b[2]] + b[3..]));
    }
  }

  // ----- the tokens between '&' and '-' -----

  function StripPads(s: string): string {
    if s != "" && s[|s| - 1] == '=' then StripPads(s[..|s| - 1]) else s
  }

  function Pads(n: nat): string { seq((4 - n % 4) % 4, _ => '=') }

  predicate TokenChar(c: char) {
    'A' <= c <= 'Z' || 'a' <= c <= 'z' || '0' <= c <= '9' || c == '+' || c == ','
  }

  /** What the printer puts between '&' and '-'. */
  function EncodeToken(text: string): string {
    ReplaceChar(StripPads(Base64Encode(Utf16Encode(text))), '/', ",")
  }

  /** What the parser makes of the text between '&' and '-'. */
  function DecodeToken(token: string): Option<string> {
    var padded := ReplaceChar(token, ',', "/") + Pads(|token|);
    if exists i :: 0 <= i < |padded| && padded[i] as int >= 128 then None
    else
      match Base64Scan(padded, 0, 0, 0)
      case None => None
      case Some(bytes) => Utf16Decode(bytes)
  }

  predicate AlphabetChar(c: char) { SextetOf(c).Some? }

  ghost predicate PaddedCore(s: string, core: string) {
    && s == core + Pads(|core|)
    && StripPads(s) == core
    && forall c | c in core :: AlphabetChar(c)
  }

  /** Base64 text is alphabet characters, then the pads that fill up the last group of four. */
  lemma {:induction false} Base64Shape(b: seq<Byte>)
    ensures PaddedCore(Base64Encode(b), StripPads(Base64Encode(b)))
    ensures StripPads(Base64Encode(b)) == "" <==> b == []
  {
    if |b| == 0 {
      assert Pads(0) == "";
    } else if |b| == 1 {
      ShapeLastByte(b[0]);
      assert b == [b[0]];
    } else if |b| == 2 {
      ShapeLastTwoBytes(b[0], b[1]);
      assert b == [b[0], b[1]];
    } else {
      Base64Shape(b[3..]);
      ShapeGroup([SextetChar(b[0] / 4), SextetChar(b[0] % 4 * 16 + b[1] / 16),
                  SextetChar(b[1] % 16 * 4 + b[2] / 64), SextetChar(b[2] % 64)], Base64Encode(b[3..]));
    }
  }

  lemma ShapeLastByte(b0: Byte)
    ensures var s := Base64Encode([b0]); PaddedCore(s, s[..2])
  {
    var s := Base64Encode([b0]);
    assert s[..3] == [s[0], s[1], '='] && s[..3][..2] == s[..2];
    assert StripPads(s) == StripPads(s[..3]) == StripPads(s[..2]);
    assert s == s[..2] + Pads(2);
  }

  lemma ShapeLastTwoBytes(b0: Byte, b1: Byte)
    ensures var s := Base64Encode([b0, b1]); PaddedCore(s, s[..3])
  {
    var s := Base64Encode([b0, b1]);
    assert StripPads(s) == StripPads(s[..3]);
    assert s == s[..3] + Pads(3);
  }

  lemma PadsPeriodic(n: nat)
    ensures Pads(4 + n) == Pads(n)
  {
    assert (4 + n) % 4 == n % 4;
  }

  lemma ShapeGroup(group: string, rest: string)
    requires |group| == 4 && (forall c | c in group :: AlphabetChar(c))
    requires PaddedCore(rest, StripPads(rest))
    ensures PaddedCore(group + rest, group + StripPads(rest))
  {
    var core := StripPads(rest);
    assert group[3] in group;
    StripPadsSuffix(group, rest);
    PadsPeriodic(|core|);
    assert group + rest == group + core + Pads(|core|);
  }

  lemma {:induction false} StripPadsSuffix(prefix: string, s: string)
    requires prefix != "" && prefix[|prefix| - 1] != '='
    ensures StripPads(prefix + s) == prefix + StripPads(s)
  {
    if s != "" && s[|s| - 1] == '=' {
      assert (prefix + s)[..|prefix + s| - 1] == prefix + s[..|s| - 1];
      StripPadsSuffix(prefix, s[..|s| - 1]);
    } else if s == "" {
      assert prefix + s == prefix;
    }
  }

  lemma {:induction false} SlashCommaRoundTrip(core: string)
    requires forall c | c in core :: AlphabetChar(c)
    ensures var token := ReplaceChar(core, '/', ",");
            && |token| == |core| && (forall c | c in token :: TokenChar(c))
            && ReplaceChar(token, ',', "/") == core
  {
    if core != "" {
      assert core == [core[0]] + core[1..];
      SlashCommaRoundTrip(core[1..]);
      var rest := ReplaceChar(core[1..], '/', ",");
      var head := if core[0] == '/' then ',' else core[0];
      assert core[0] in core;
      assert ReplaceChar(core, '/', ",") == [head] + rest;
      assert ([head] + rest)[1..] == rest;
    }
  }

  lemma TokenRoundTrip(text: string)
    ensures DecodeToken(EncodeToken(text)) == Some(text)
    ensures forall c | c in EncodeToken(text) :: TokenChar(c)
    ensures EncodeToken(text) == "" <==> text == ""
  {
    var bytes := Utf16Encode(text);
    var core := StripPads(Base64Encode(bytes));
    Base64Shape(bytes);
    SlashCommaRoundTrip(core);
    Base64RoundTrip(bytes);
    Utf16RoundTrip(text);
    var padded := core + Pads(|core|);
    forall i | 0 <= i < |padded| ensures padded[i] as int < 128 {
      if i < |core| { assert core[i] in core; } else { assert padded[i] == '='; }
    }
    assert text != "" ==> |Utf16Char(text[0])| > 0 && bytes != [];
  }

  // ----- whole names -----

  predicate Direct(c: char) { ' ' <= c <= '~' && c != '&' }

  function Flush(buffer: string): string {
    if buffer == "" then "" else "&" + EncodeToken(buffer) + "-"
  }

  /** The printer's output for `value`, with `buffer` the characters waiting to be encoded. */
  function EncodeFrom(value: string, buffer: string): string {
    if value == "" then Flush(buffer)
    else if Direct(value[0]) then Flush(buffer) + [value[0]] + EncodeFrom(value[1..], "")
    else if value[0] == '&' then Flush(buffer) + "&-" + EncodeFrom(value[1..], "")
    else EncodeFrom(value[1..], buffer + [value[0]])
  }

  function Encode(value: string): string { EncodeFrom(value, "") }

  /** First place of `c` in `s`, or `|s|`. */
  function Find(s: string, c: char): (i: nat)
    ensures i <= |s| && (i < |s| ==> s[i] == c) && (forall j :: 0 <= j < i ==> s[j] != c)
  {
    if s == "" || s[0] == c then 0 else 1 + Find(s[1..], c)
  }

  function Then(first: string, rest: Result<string, NameError>): Result<string, NameError> {
    match rest
    case Err(e) => Err(e)
    case Ok(s) => Ok(first + s)
  }

  /** One piece of a name: the text it stands for, and the length it takes up. */
  datatype Piece = Piece(text: Option<string>, length: nat)

  /** A character other than '&' stands for itself; "&-" is '&'; "&token-" is base64; an
      unterminated '&' is literal text to the end. */
  function NextPiece(value: string): (p: Piece)
    requires value != ""
    ensures 0 < p.length <= |value|
  {
    if value[0] != '&' then Piece(Some(value[..1]), 1)
    else
      var end := Find(value, '-');
      if end == |value| then Piece(Some(value), end)
      else if end == 1 then Piece(Some("&"), 2)
      else Piece(DecodeToken(value[1..end]), end + 1)
  }

  function Decode(value: string): Result<string, NameError> {
    if value == "" then Ok("")
    else
      var piece := NextPiece(value);
      if piece.text.None? then Err(InvalidName)
      else Then(piece.text.value, Decode(value[piece.length..]))
  }

  lemma DecodeSkips(c: char, rest: string)
    requires c != '&'
    ensures Decode([c] + rest) == Then([c], Decode(rest))
  {
    var s := [c] + rest;
    assert NextPiece(s) == Piece(Some([c]), 1);
    assert s[1..] == rest;
  }

  lemma DecodeSection(token: string, rest: string)
    requires forall c | c in token :: TokenChar(c)
    requires token != "" ==> DecodeToken(token).Some?
    ensures Decode("&" + token + "-" + rest) ==
            Then(if token == "" then "&" else DecodeToken(token).value, Decode(rest))
  {
    var s := "&" + token + "-" + rest;
    var end := Find(s, '-');
    assert s[|token| + 1] == '-';
    forall j | 0 <= j < |token| + 1 ensures s[j] != '-' {
      if j > 0 { assert s[j] == token[j - 1] && token[j - 1] in token; }
    }
    assert end == |token| + 1;
    assert s[1..end] == token;
    assert s[end + 1..] == rest;
  }

  lemma DecodeFlush(buffer: string, rest: string)
    ensures Decode(Flush(buffer) + rest) == Then(buffer, Decode(rest))
  {
    if buffer == "" {
      assert Flush(buffer) + rest == rest;
      assert Decode(rest).Ok? ==> "" + Decode(rest).value == Decode(rest).value;
    } else {
      TokenRoundTrip(buffer);
      DecodeSection(EncodeToken(buffer), rest);
      assert Flush(buffer) + rest == "&" + EncodeToken(buffer) + "-" + rest;
    }
  }

  lemma DecodeEscapedAmpersand(rest: string)
    ensures Decode("&-" + rest) == Then("&", Decode(rest))
  {
    DecodeSection("", rest);
    assert "&" + "" + "-" + rest == "&-" + rest;
  }

  /** The results of text decoded in three parts. */
  lemma ThreeResults(whole: Result<string, NameError>, tail: Result<string, NameError>, last: Result<string, NameError>,
                     buffer: string, symbol: string, text: string)
    requires whole == Then(buffer, tail) && tail == Then(symbol, last) && last == Ok("" + text)
    ensures whole == Ok(buffer + (symbol + text))
  {
    assert "" + text == text;
  }

  lemma SameText(flushed: string, piece: string, rest: string)
    ensures flushed + piece + rest == flushed + (piece + rest)
  {
  }

  lemma DecodeAtEnd(buffer: string)
    ensures Decode(Flush(buffer)) == Ok(buffer)
  {
    DecodeFlush(buffer, "");
    assert Flush(buffer) + "" == Flush(buffer);
    assert buffer + "" == buffer;
  }

  lemma DecodeAfterDirect(buffer: string, c: char, rest: string, text: string)
    requires Direct(c) && Decode(rest) == Ok("" + text)
    ensures Decode(Flush(buffer) + [c] + rest) == Ok(buffer + ([c] + text))
  {
    var tail := [c] + rest;
    DecodeSkips(c, rest);
    DecodeFlush(buffer, tail);
    ThreeResults(Decode(Flush(buffer) + tail), Decode(tail), Decode(rest), buffer, [c], text);
    SameText(Flush(buffer), [c], rest);
  }

  lemma DecodeAfterAmpersand(buffer: string, rest: string, text: string)
    requires Decode(rest) == Ok("" + text)
    ensures Decode(Flush(buffer) + "&-" + rest) == Ok(buffer + ("&" + text))
  {
    var tail := "&-" + rest;
    DecodeEscapedAmpersand(rest);
    DecodeFlush(buffer, tail);
    ThreeResults(Decode(Flush(buffer) + tail), Decode(tail), Decode(rest), buffer, "&", text);
    SameText(Flush(buffer), "&-", rest);
  }

  lemma {:induction false} DecodeEncodeFrom(value: string, buffer: string)
    ensures Decode(EncodeFrom(value, buffer)) == Ok(buffer + value)
  {
    if value == "" {
      DecodeAtEnd(buffer);
      assert buffer + value == buffer;
    } else {
      assert [value[0]] + value[1..] == value;
      if Direct(value[0]) {
        DecodeEncodeFrom(value[1..], "");
        DecodeAfterDirect(buffer, value[0], EncodeFrom(value[1..], ""), value[1..]);
      } else if value[0] == '&' {
        DecodeEncodeFrom(value[1..], "");
        DecodeAfterAmpersand(buffer, EncodeFrom(value[1..], ""), value[1..]);
      } else {
        DecodeEncodeFrom(value[1..], buffer + [value[0]]);
        assert buffer + [value[0]] + value[1..] == buffer + value;
      }
    }
  }

  /** Parsing a printed name returns the name. */
  lemma DecodeEncode(value: string)
    ensures Decode(Encode(value)) == Ok(value)
  {
    DecodeEncodeFrom(value, "");
    assert "" + value == value;
  }

  /** Distinct names have distinct encodings. */
  lemma EncodeInjective(a: string, b: string)
    ensures Encode(a) == Encode(b) <==> a == b
  {
    DecodeEncode(a);
    DecodeEncode(b);
  }

  predicate Printable(s: string) { forall c | c in s :: ' ' <= c <= '~' }

  lemma {:induction false} EncodeFromPrintable(value: string, buffer: string)
    ensures Printable(EncodeFrom(value, buffer))
  {
    TokenRoundTrip(buffer);
    assert forall c | TokenChar(c) :: ' ' <= c <= '~';
    assert Printable(Flush(buffer));
    if value != "" {
      if Direct(value[0]) || value[0] == '&' {
        EncodeFromPrintable(value[1..], "");
      } else {
        EncodeFromPrintable(value[1..], buffer + [value[0]]);
      }
    }
  }

  /** An encoded name is printable ASCII. */
  lemma EncodePrintable(value: string)
    ensures Printable(Encode(value))
  {
    EncodeFromPrintable(value, "");
  }

  // ----- the two routines as the program runs them -----

  lemma EncodeStep(done: string, value: string, buffer: string)
    requires value != ""
    ensures var c := value[0];
            done + EncodeFrom(value, buffer) ==
              if Direct(c) then (done + Flush(buffer) + [c]) + EncodeFrom(value[1..], "")
              else if c == '&' then (done + Flush(buffer) + "&-") + EncodeFrom(value[1..], "")
              else done + EncodeFrom(value[1..], buffer + [c])
  {
    var c, flushed, rest := value[0], Flush(buffer), EncodeFrom(value[1..], "");
    if Direct(c) {
      Associate(done, flushed, [c], rest);
    } else if c == '&' {
      Associate(done, flushed, "&-", rest);
    }
  }

  lemma Associate(a: string, b: string, c: string, d: string)
    ensures a + (b + c + d) == (a + b + c) + d
  {
  }

  method EncodeModifiedUtf7(value: string) returns (result: string)
    ensures result == Encode(value)
  {
    result := "";
    var nonAscii := "";
    assert value[0..] == value;
    for i := 0 to |value|
      invariant Encode(value) == result + EncodeFrom(value[i..], nonAscii)
    {
      var c := value[i];
      assert value[i..][0] == c && value[i..][1..] == value[i + 1..];
      EncodeStep(result, value[i..], nonAscii);
      if Direct(c) {
        result, nonAscii := result + Flush(nonAscii) + [c], "";
      } else if c == '&' {
        result, nonAscii := result + Flush(nonAscii) + "&-", "";
      } else {
        nonAscii := nonAscii + [c];
      }
    }
    result := result + Flush(nonAscii);
  }

  lemma ThenAssociates(a: string, b: string, rest: Result<string, NameError>)
    ensures Then(a, Then(b, rest)) == Then(a + b, rest)
    ensures Then("", rest) == rest
  {
    if rest.Ok? {
      assert a + (b + rest.value) == a + b + rest.value;
      assert "" + rest.value == rest.value;
    }
  }

  lemma {:induction false} DecodeLiteralPrefix(prefix: string, rest: string)
    requires '&' !in prefix
    ensures Decode(prefix + rest) == Then(prefix, Decode(rest))
  {
    if prefix == "" {
      assert prefix + rest == rest;
      ThenAssociates("", "", Decode(rest));
    } else {
      var first, tail := [prefix[0]], prefix[1..] + rest;
      DecodeLiteralPrefix(prefix[1..], rest);
      DecodeSkips(prefix[0], tail);
      ThenAssociates(first, prefix[1..], Decode(rest));
      SplitText(prefix, rest);
    }
  }

  lemma SplitText(prefix: string, rest: string)
    requires prefix != ""
    ensures prefix + rest == [prefix[0]] + (prefix[1..] + rest) && prefix == [prefix[0]] + prefix[1..]
  {
  }

  /** The parser's loop invariant: `done` is what came before `rest`. */
  ghost predicate DecodedUpTo(value: string, done: string, rest: string) {
    Decode(value) == Then(done, Decode(rest))
  }

  lemma LiteralDecoded(value: string, done: string, rest: string, amp: nat)
    requires DecodedUpTo(value, done, rest) && amp == Find(rest, '&')
    ensures DecodedUpTo(value, done + rest[..amp], rest[amp..])
    ensures amp == |rest| ==> Decode(value) == Ok(done + rest[..amp])
  {
    var literal, tail := rest[..amp], rest[amp..];
    DecodeLiteralPrefix(literal, tail);
    assert rest == literal + tail;
    ThenAssociates(done, literal, Decode(tail));
    if amp == |rest| {
      assert Decode(tail) == Ok("");
      assert done + literal + "" == done + literal;
    }
  }

  lemma SectionDecoded(value: string, done: string, tail: string)
    requires DecodedUpTo(value, done, tail) && tail != ""
    ensures var piece := NextPiece(tail);
            if piece.text.None? then Decode(value) == Err(InvalidName)
            else DecodedUpTo(value, done + piece.text.value, tail[piece.length..])
  {
    var piece := NextPiece(tail);
    if piece.text.Some? {
      ThenAssociates(done, piece.text.value, Decode(tail[piece.length..]));
    }
  }

  lemma UnterminatedDecoded(tail: string)
    requires tail != "" && tail[0] == '&' && Find(tail, '-') == |tail|
    ensures Decode(tail) == Ok(tail)
  {
    var piece := NextPiece(tail);
    assert tail[|tail|..] == "";
    assert Then(tail, Ok("")) == Ok(tail) by { assert tail + "" == tail; }
  }

  method DecodeModifiedUtf7(value: string) returns (name: Result<string, NameError>)
    ensures name == Decode(value)
  {
    var result := "";
    var rest := value;
    ThenAssociates("", "", Decode(value));
    while rest != ""
      invariant DecodedUpTo(value, result, rest)
      decreases |rest|
    {
      var amp := Find(rest, '&');
      LiteralDecoded(value, result, rest, amp);
      result := result + rest[..amp];
      if amp == |rest| {
        return Ok(result);
      }
      var tail := rest[amp..];
      var end := Find(tail, '-');
      if end == |tail| {
        UnterminatedDecoded(tail);
        return Ok(result + tail);
      }
      SectionDecoded(value, result, tail);
      var piece := NextPiece(tail);
      assert piece == Piece(if end == 1 then Some("&") else DecodeToken(tail[1..end]), end + 1);
      if piece.text.None? {
        return Err(InvalidName);
      }
      result := result + piece.text.value;
      rest := tail[piece.length..];
    }
    assert result + "" == result;
    name := Ok(result);
  }

  // ----- quoted names in LIST responses -----

  /** A quoted string of the protocol: quotes and backslashes are preceded by a backslash. */
  function Quote(s: string): string {
    "\"" + QuoteBody(s) + "\""
  }

  function QuoteBody(s: string): string {
    if s == "" then "" else (if s[0] in {'"', '\\'} then ['\\', s[0]] else [s[0]]) + QuoteBody(s[1..])
  }

  /** The name token of a LIST response: a quoted token is unquoted by two passes in sequence. */
  function ParseListToken(raw: string): (r: Result<(string, string), NameError>) {
    var token := Strip(raw);
    var bare :=
      if token != "" && token[0] == '"' && token[|token| - 1] == '"' then
        var inner := if |token| >= 2 then token[1..|token| - 1] else "";
        ReplacePair(ReplacePair(inner, '\\', '"', '"'), '\\', '\\', '\\')
      else token;
    match Decode(bare)
    case Err(e) => Err(e)
    case Ok(name) => Ok((name, bare))
  }

  function BackslashesDoubled(s: string): string {
    if s == "" then "" else (if s[0] == '\\' then "\\\\" else [s[0]]) + BackslashesDoubled(s[1..])
  }

  lemma {:induction false} UnquotePasses(s: string)
    ensures ReplacePair(QuoteBody(s), '\\', '"', '"') == BackslashesDoubled(s)
    ensures ReplacePair(BackslashesDoubled(s), '\\', '\\', '\\') == s
  {
    if s != "" {
      UnquotePasses(s[1..]);
      var q, d := QuoteBody(s[1..]), BackslashesDoubled(s[1..]);
      if s[0] == '\\' {
        assert q != "" ==> q[0] != '"';
        ReplacePairSkipsTwo('\\', '\\', q, '\\', '"', '"');
        ReplacePairMatches(d, '\\', '\\', '\\');
      } else if s[0] == '"' {
        ReplacePairMatches(q, '\\', '"', '"');
        ReplacePairSkips('"', d, '\\', '\\', '\\');
      } else {
        ReplacePairSkips(s[0], q, '\\', '"', '"');
        ReplacePairSkips(s[0], d, '\\', '\\', '\\');
      }
      assert s == [s[0]] + s[1..];
    }
  }

  /** A server that quotes the encoded name gets it recognised, whatever quotes, backslashes or
      non-ASCII characters the name holds; and the encoded form is handed back for later commands. */
  lemma ListedNameIsRecognised(name: string)
    ensures ParseListToken(Quote(Encode(name))) == Ok((name, Encode(name)))
  {
    var e := Encode(name);
    StripKeeps(Quote(e));
    assert Quote(e)[1..|Quote(e)| - 1] == QuoteBody(e);
    UnquotePasses(e);
    DecodeEncode(name);
  }
}
