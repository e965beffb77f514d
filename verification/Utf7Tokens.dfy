/** What mailbox names look like on the wire (section 5.1.3 of RFC 3501), said apart from the printer and the
    parser: the digits between '&' and '-' are the bits of the text in UTF-16, six at a time. */
module Utf7Tokens {
  import opened Common
  import opened ModifiedUtf7

  const UPPER := "ABCDEFGHIJKLMNOPQRSTUVWXYZ"
  const LOWER := "abcdefghijklmnopqrstuvwxyz"
  const DIGITS := "0123456789"

  const ALPHABET := UPPER + LOWER + DIGITS + "+,"

  /** The value of a digit is its place in the alphabet. */
  function Place(c: char): nat { Find(ALPHABET, c) }

  // ----- bits -----

  function Bit(v: nat, k: nat): bool { if k == 0 then v % 2 == 1 else Bit(v / 2, k - 1) }

  /** The n lowest bits, highest first. */
  function BitsOf(v: nat, n: nat): (b: seq<bool>)
    ensures |b| == n
  {
    seq(n, i requires 0 <= i < n => Bit(v, n - 1 - i))
  }

  /** Numbers of six bits each. */
  function SextetBits(values: seq<nat>): (b: seq<bool>)
    ensures |b| == 6 * |values|
  {
    if values == [] then [] else BitsOf(values[0], 6) + SextetBits(values[1..])
  }

  function Places(token: string): seq<nat> { seq(|token|, i requires 0 <= i < |token| => Place(token[i])) }

  function TokenBits(token: string): (b: seq<bool>)
    ensures |b| == 6 * |token|
  {
    SextetBits(Places(token))
  }

  function ByteBits(bytes: seq<Byte>): (b: seq<bool>)
    ensures |b| == 8 * |bytes|
  {
    if bytes == [] then [] else BitsOf(bytes[0], 8) + ByteBits(bytes[1..])
  }

  /** The character in UTF-16: one unit, or a high and a low surrogate with ten bits each. */
  function CharBits(c: char): seq<bool> {
    var u := c as int;
    if u < 0x10000 then BitsOf(u, 16)
    else
      var b := BitsOf(u - 0x10000, 20);
      [true, true, false, true, true, false] + b[..10] + ([true, true, false, true, true, true] + b[10..])
  }

  function TextBits(text: string): seq<bool> {
    if text == "" then [] else CharBits(text[0]) + TextBits(text[1..])
  }

  /** Shifted to the left by k bits. */
  function Shift(v: nat, k: nat): nat { if k == 0 then v else 2 * Shift(v, k - 1) }

  lemma {:induction false} HighBit(hi: nat, lo: nat, k: nat, j: nat)
    requires lo < Shift(1, k)
    ensures Bit(Shift(hi, k) + lo, k + j) == Bit(hi, j)
  {
    if k > 0 {
      assert (Shift(hi, k) + lo) / 2 == Shift(hi, k - 1) + lo / 2;
      HighBit(hi, lo / 2, k - 1, j);
    }
  }

  lemma {:induction false} LowBit(hi: nat, lo: nat, k: nat, j: nat)
    requires lo < Shift(1, k) && j < k
    ensures Bit(Shift(hi, k) + lo, j) == Bit(lo, j)
  {
    assert (Shift(hi, k) + lo) / 2 == Shift(hi, k - 1) + lo / 2 && (Shift(hi, k) + lo) % 2 == lo % 2;
    if j > 0 { LowBit(hi, lo / 2, k - 1, j - 1); }
  }

  /** Bits side by side. */
  lemma BitsJoin(hi: nat, n: nat, lo: nat, k: nat)
    requires lo < Shift(1, k)
    ensures BitsOf(Shift(hi, k) + lo, n + k) == BitsOf(hi, n) + BitsOf(lo, k)
  {
    forall i | 0 <= i < n + k
      ensures BitsOf(Shift(hi, k) + lo, n + k)[i] == (BitsOf(hi, n) + BitsOf(lo, k))[i]
    {
      if i < n { HighBit(hi, lo, k, n - 1 - i); } else { LowBit(hi, lo, k, n + k - 1 - i); }
    }
  }

  lemma Shifts(v: nat)
    ensures Shift(v, 2) == 4 * v && Shift(v, 4) == 16 * v && Shift(v, 6) == 64 * v && Shift(v, 8) == 256 * v
    ensures Shift(v, 10) == 1024 * v
  {
    assert Shift(v, 2) == 2 * Shift(v, 1) && Shift(v, 1) == 2 * v;
    assert Shift(v, 4) == 2 * Shift(v, 3) && Shift(v, 3) == 2 * Shift(v, 2);
    assert Shift(v, 6) == 2 * Shift(v, 5) && Shift(v, 5) == 2 * Shift(v, 4);
    assert Shift(v, 8) == 2 * Shift(v, 7) && Shift(v, 7) == 2 * Shift(v, 6);
    assert Shift(v, 10) == 2 * Shift(v, 9) && Shift(v, 9) == 2 * Shift(v, 8);
  }

  /** The widths that occur, with their powers of two. */
  predicate Width(k: nat, d: nat) { (k, d) in {(2, 4), (4, 16), (6, 64), (8, 256), (10, 1024)} }

  /** A number of n and one of k bits side by side. */
  lemma BitsPair(v: nat, hi: nat, n: nat, lo: nat, k: nat, d: nat)
    requires Width(k, d) && lo < d && v == d * hi + lo
    ensures BitsOf(v, n + k) == BitsOf(hi, n) + BitsOf(lo, k)
  {
    Shifts(hi);
    Shifts(1);
    BitsJoin(hi, n, lo, k);
  }

  lemma {:induction false} BitsDiffer(v: nat, w: nat, n: nat)
    requires v < Shift(1, n) && w < Shift(1, n) && forall k: nat | k < n :: Bit(v, k) == Bit(w, k)
    ensures v == w
  {
    if n > 0 {
      assert Bit(v, 0) == Bit(w, 0);
      forall k: nat | k < n - 1 ensures Bit(v / 2, k) == Bit(w / 2, k) { assert Bit(v, k + 1) == Bit(w, k + 1); }
      BitsDiffer(v / 2, w / 2, n - 1);
    }
  }

  // ----- the alphabet -----

  function Comma(c: char): char { if c == '/' then ',' else c }

  lemma UpperAt(v: nat)
    requires v < 26
    ensures UPPER[v] as int == 'A' as int + v && LOWER[v] as int == 'a' as int + v
  {
  }

  lemma DigitAt(v: nat)
    requires v < 10
    ensures DIGITS[v] as int == '0' as int + v
  {
  }

  lemma AlphabetAt(v: nat)
    requires v < 64
    ensures ALPHABET[v] == Comma(SextetChar(v))
  {
    if v < 26 {
      UpperAt(v);
    } else if v < 52 {
      UpperAt(v - 26);
    } else if v < 62 {
      DigitAt(v - 52);
    }
  }

  lemma PlaceOfDigit(v: nat)
    requires v < 64
    ensures Place(Comma(SextetChar(v))) == v
  {
    AlphabetAt(v);
    var k := Place(Comma(SextetChar(v)));
    if k < v {
      AlphabetAt(k);
      SextetRoundTrip(v);
      SextetRoundTrip(k);
    }
  }

  /** The token characters are the alphabet, and the decoder takes each for its place in it. */
  lemma PlaceOfToken(c: char)
    requires TokenChar(c)
    ensures Place(c) < 64 && SextetOf(if c == ',' then '/' else c) == Some(Place(c))
  {
    var v := SextetOf(if c == ',' then '/' else c).value;
    assert Comma(SextetChar(v)) == c;
    PlaceOfDigit(v);
  }

  // ----- UTF-16 -----

  lemma {:induction false} ByteBitsConcat(a: seq<Byte>, b: seq<Byte>)
    ensures ByteBits(a + b) == ByteBits(a) + ByteBits(b)
  {
    if a == [] {
      assert a + b == b;
    } else {
      assert (a + b)[1..] == a[1..] + b;
      ByteBitsConcat(a[1..], b);
    }
  }

  lemma UnitBits(u: nat)
    requires u < 0x10000
    ensures ByteBits([u / 256, u % 256]) == BitsOf(u, 16)
  {
    BitsPair(u, u / 256, 8, u % 256, 8, 256);
    assert [u / 256, u % 256][1..] == [u % 256] && [u % 256][1..] == [];
  }

  lemma SurrogateBits(v: nat, base: nat, top: nat, bits: seq<bool>)
    requires v < 0x400 && base == 1024 * top && BitsOf(top, 6) == bits
    ensures BitsOf(base + v, 16) == bits + BitsOf(v, 10)
  {
    BitsPair(base + v, top, 6, v, 10, 1024);
  }

  lemma LastBit(v: nat, n: nat)
    ensures BitsOf(v, n + 1) == BitsOf(v / 2, n) + [v % 2 == 1]
  {
    var b, c := BitsOf(v, n + 1), BitsOf(v / 2, n);
    forall i | 0 <= i < n ensures b[i] == c[i] {
      assert b[i] == Bit(v, n - i) && c[i] == Bit(v / 2, n - 1 - i);
    }
    assert b[n] == Bit(v, 0);
  }

  lemma SurrogateTops()
    ensures BitsOf(54, 6) == [true, true, false, true, true, false]
    ensures BitsOf(55, 6) == [true, true, false, true, true, true]
  {
    LastBit(1, 0);
    LastBit(3, 1);
    LastBit(6, 2);
    LastBit(13, 3);
    LastBit(27, 4);
    LastBit(54, 5);
    LastBit(55, 5);
  }

  lemma CharInBytes(c: char)
    ensures ByteBits(Utf16Char(c)) == CharBits(c)
  {
    var u := c as int;
    if u < 0x10000 {
      UnitBits(u);
    } else {
      var v := u - 0x10000;
      var hi, lo := 0xD800 + v / 0x400, 0xDC00 + v % 0x400;
      SurrogateTops();
      SurrogateBits(v / 0x400, 0xD800, 54, [true, true, false, true, true, false]);
      SurrogateBits(v % 0x400, 0xDC00, 55, [true, true, false, true, true, true]);
      BitsPair(v, v / 0x400, 10, v % 0x400, 10, 1024);
      UnitBits(hi);
      UnitBits(lo);
      ByteBitsConcat([hi / 256, hi % 256], [lo / 256, lo % 256]);
      assert Utf16Char(c) == [hi / 256, hi % 256] + [lo / 256, lo % 256];
    }
  }

  lemma {:induction false} TextInBytes(text: string)
    ensures ByteBits(Utf16Encode(text)) == TextBits(text)
  {
    if text != "" {
      CharInBytes(text[0]);
      TextInBytes(text[1..]);
      ByteBitsConcat(Utf16Char(text[0]), Utf16Encode(text[1..]));
    }
  }

  lemma {:induction false} BytesDiffer(a: seq<Byte>, b: seq<Byte>)
    requires |a| == |b| && ByteBits(a) == ByteBits(b)
    ensures a == b
  {
    if a != [] {
      assert ByteBits(a)[..8] == BitsOf(a[0], 8) && ByteBits(b)[..8] == BitsOf(b[0], 8);
      assert ByteBits(a)[8..] == ByteBits(a[1..]) && ByteBits(b)[8..] == ByteBits(b[1..]);
      Shifts(1);
      forall k: nat | k < 8 ensures Bit(a[0], k) == Bit(b[0], k) {
        assert BitsOf(a[0], 8)[7 - k] == BitsOf(b[0], 8)[7 - k];
      }
      BitsDiffer(a[0], b[0], 8);
      BytesDiffer(a[1..], b[1..]);
    }
  }

  predicate HighSurrogate(b: seq<Byte>) { |b| >= 2 && 0xD800 <= Unit(b[0], b[1]) <= 0xDBFF }

  lemma DecodedPair(b: seq<Byte>) returns (c: char)
    requires Utf16Decode(b).Some? && HighSurrogate(b)
    ensures |b| >= 4 && Utf16Decode(b) == Prepend(c, Utf16Decode(b[4..])) && Utf16Char(c) == b[..4]
  {
    var u, l := Unit(b[0], b[1]), Unit(b[2], b[3]);
    c := (0x10000 + (u - 0xD800) * 0x400 + (l - 0xDC00)) as char;
  }

  lemma DecodedUnit(b: seq<Byte>) returns (c: char)
    requires Utf16Decode(b).Some? && b != [] && !HighSurrogate(b)
    ensures |b| >= 2 && Utf16Decode(b) == Prepend(c, Utf16Decode(b[2..])) && Utf16Char(c) == b[..2]
  {
    c := Unit(b[0], b[1]) as char;
  }

  /** The decoder of UTF-16 accepts nothing but encodings. */
  lemma {:induction false} DecodedIsEncoded(b: seq<Byte>)
    ensures Utf16Decode(b).Some? ==> Utf16Encode(Utf16Decode(b).value) == b
  {
    if Utf16Decode(b).Some? && b != [] {
      if HighSurrogate(b) {
        var c := DecodedPair(b);
        DecodedIsEncoded(b[4..]);
        EncodedAgain(c, Utf16Decode(b[4..]).value, b, 4);
      } else {
        var c := DecodedUnit(b);
        DecodedIsEncoded(b[2..]);
        EncodedAgain(c, Utf16Decode(b[2..]).value, b, 2);
      }
    }
  }

  lemma EncodedAgain(c: char, rest: string, b: seq<Byte>, n: nat)
    requires n <= |b| && Utf16Char(c) == b[..n] && Utf16Encode(rest) == b[n..]
    ensures Utf16Encode([c] + rest) == b
  {
    assert ([c] + rest)[1..] == rest && b[..n] + b[n..] == b;
  }

  // ----- digits and bytes -----

  lemma {:induction false} SextetsConcat(a: seq<nat>, b: seq<nat>)
    ensures SextetBits(a + b) == SextetBits(a) + SextetBits(b)
  {
    if a == [] {
      assert a + b == b;
    } else {
      assert (a + b)[1..] == a[1..] + b;
      SextetsConcat(a[1..], b);
    }
  }

  lemma Regroup(x: seq<bool>, y: seq<bool>, z: seq<bool>)
    ensures x + (y + z) == x + y + z
  {
  }

  lemma TwoSextets(v: nat, w: nat, rest: seq<nat>)
    ensures SextetBits([v, w] + rest) == BitsOf(v, 6) + BitsOf(w, 6) + SextetBits(rest)
  {
    var values := [v, w] + rest;
    assert values[1..] == [w] + rest && values[1..][1..] == rest;
    Regroup(BitsOf(v, 6), BitsOf(w, 6), SextetBits(rest));
  }

  /** Bits that move from one number to the one before it: `mid` is the front of the second number s and
      becomes the end of the first number x, `lo` is left. */
  lemma Shared(hi: nat, n: nat, mid: nat, m: nat, lo: nat, k: nat, d: nat, e: nat, s: nat, x: nat)
    requires Width(m, d) && Width(k, e) && mid < d && lo < e && s == e * mid + lo && x == d * hi + mid
    ensures BitsOf(hi, n) + BitsOf(s, m + k) == BitsOf(x, n + m) + BitsOf(lo, k)
  {
    BitsPair(x, hi, n, mid, m, d);
    BitsPair(s, mid, m, lo, k, e);
    Regroup(BitsOf(hi, n), BitsOf(mid, m), BitsOf(lo, k));
  }

  /** Two numbers of six bits are a byte and four bits. */
  lemma FirstByte(v: nat, a: nat, b: nat, s: nat, x: nat)
    requires a < 4 && b < 16 && s == 16 * a + b && x == 4 * v + a
    ensures BitsOf(v, 6) + BitsOf(s, 6) == BitsOf(x, 8) + BitsOf(b, 4)
  {
    Shared(v, 6, a, 2, b, 4, 4, 16, s, x);
  }

  lemma SecondByte(b: nat, c: nat, e: nat, t: nat, y: nat)
    requires b < 16 && c < 16 && e < 4 && t == 4 * c + e && y == 16 * b + c
    ensures BitsOf(b, 4) + BitsOf(t, 6) == BitsOf(y, 8) + BitsOf(e, 2)
  {
    Shared(b, 4, c, 4, e, 2, 16, 4, t, y);
  }

  /** Three numbers of six bits are two bytes and two bits, four are three bytes. */
  lemma FourAreThree(v: nat, a: nat, b: nat, c: nat, e: nat, w: nat, s: nat, t: nat, x: nat, y: nat, z: nat)
    requires a < 4 && b < 16 && c < 16 && e < 4 && w < 64
    requires s == 16 * a + b && t == 4 * c + e && x == 4 * v + a && y == 16 * b + c && z == 64 * e + w
    ensures BitsOf(v, 6) + BitsOf(s, 6) + BitsOf(t, 6) == BitsOf(x, 8) + BitsOf(y, 8) + BitsOf(e, 2)
    ensures BitsOf(v, 6) + BitsOf(s, 6) + (BitsOf(t, 6) + BitsOf(w, 6)) == BitsOf(x, 8) + BitsOf(y, 8) + BitsOf(z, 8)
  {
    FirstByte(v, a, b, s, x);
    SecondByte(b, c, e, t, y);
    BitsPair(z, e, 2, w, 6, 64);
    Chain(BitsOf(v, 6), BitsOf(s, 6), BitsOf(t, 6), BitsOf(w, 6), BitsOf(x, 8), BitsOf(y, 8), BitsOf(z, 8),
          BitsOf(b, 4), BitsOf(e, 2));
  }

  lemma Chain(p: seq<bool>, q: seq<bool>, r: seq<bool>, s: seq<bool>, x: seq<bool>, y: seq<bool>, z: seq<bool>,
              carry: seq<bool>, last: seq<bool>)
    requires p + q == x + carry && carry + r == y + last && last + s == z
    ensures p + q + r == x + y + last && p + q + (r + s) == x + y + z
  {
    assert p + q + r == x + (carry + r);
    assert x + (y + last) == x + y + last;
    assert p + q + (r + s) == p + q + r + s;
    assert x + y + last + s == x + y + (last + s);
  }

  /** The values of the digits that the printer writes for these bytes. */
  /** The first three bytes in four numbers of six bits. */
  function FirstFour(b: seq<Byte>): (v: seq<nat>)
    requires |b| > 2
    ensures |v| == 4 && forall i | 0 <= i < 4 :: v[i] < 64
  {
    [b[0] / 4, b[0] % 4 * 16 + b[1] / 16, b[1] % 16 * 4 + b[2] / 64, b[2] % 64]
  }

  function Values(b: seq<Byte>): (v: seq<nat>)
    ensures forall i | 0 <= i < |v| :: v[i] < 64
  {
    if |b| == 0 then []
    else if |b| == 1 then [b[0] / 4, b[0] % 4 * 16]
    else if |b| == 2 then [b[0] / 4, b[0] % 4 * 16 + b[1] / 16, b[1] % 16 * 4]
    else FirstFour(b) + Values(b[3..])
  }

  function Zeros(n: nat): seq<bool> { seq(n, _ => false) }

  lemma {:induction false} ZeroBit(k: nat)
    ensures !Bit(0, k)
  {
    if k > 0 { ZeroBit(k - 1); }
  }

  lemma ZeroBits(n: nat)
    ensures BitsOf(0, n) == Zeros(n)
  {
    forall i | 0 <= i < n ensures BitsOf(0, n)[i] == false { ZeroBit(n - 1 - i); }
  }

  lemma LastByte(b: Byte)
    ensures SextetBits([b / 4, b % 4 * 16]) == ByteBits([b]) + Zeros(4)
  {
    TwoSextets(b / 4, b % 4 * 16, []);
    FirstByte(b / 4, b % 4, 0, b % 4 * 16, b);
    ZeroBits(4);
    assert [b / 4, b % 4 * 16] + [] == [b / 4, b % 4 * 16] && [b][1..] == [];
  }

  lemma TwoBytesInSextets(b0: Byte, b1: Byte, s: nat, t: nat)
    requires s == b0 % 4 * 16 + b1 / 16 && t == b1 % 16 * 4
    ensures BitsOf(b0 / 4, 6) + BitsOf(s, 6) + BitsOf(t, 6) == BitsOf(b0, 8) + BitsOf(b1, 8) + Zeros(2)
  {
    ZeroBits(2);
    FourAreThree(b0 / 4, b0 % 4, b1 / 16, b1 % 16, 0, 0, s, t, b0, b1, 0);
  }

  lemma ThreeBytesInSextets(b0: Byte, b1: Byte, b2: Byte, s: nat, t: nat)
    requires s == b0 % 4 * 16 + b1 / 16 && t == b1 % 16 * 4 + b2 / 64
    ensures BitsOf(b0 / 4, 6) + BitsOf(s, 6) + (BitsOf(t, 6) + BitsOf(b2 % 64, 6))
            == BitsOf(b0, 8) + BitsOf(b1, 8) + BitsOf(b2, 8)
  {
    FourAreThree(b0 / 4, b0 % 4, b1 / 16, b1 % 16, b2 / 64, b2 % 64, s, t, b0, b1, b2);
  }

  lemma TwoBytes(b0: Byte, b1: Byte)
    ensures ByteBits([b0, b1]) == BitsOf(b0, 8) + BitsOf(b1, 8)
  {
    ByteBitsConcat([b0], [b1]);
    OneByte(b0);
    OneByte(b1);
    assert [b0] + [b1] == [b0, b1];
  }

  lemma LastTwoBytes(b0: Byte, b1: Byte)
    ensures SextetBits([b0 / 4, b0 % 4 * 16 + b1 / 16, b1 % 16 * 4]) == ByteBits([b0, b1]) + Zeros(2)
  {
    var v, w, x := b0 / 4, b0 % 4 * 16 + b1 / 16, b1 % 16 * 4;
    TwoSextets(v, w, [x]);
    OneSextet(x);
    TwoBytesInSextets(b0, b1, w, x);
    TwoBytes(b0, b1);
    assert [v, w, x] == [v, w] + [x];
  }

  lemma OneSextet(v: nat)
    ensures SextetBits([v]) == BitsOf(v, 6)
  {
    assert [v][1..] == [];
  }

  lemma OneByte(b: Byte)
    ensures ByteBits([b]) == BitsOf(b, 8)
  {
    assert [b][1..] == [];
  }

  lemma FourSextets(v0: nat, v1: nat, v2: nat, v3: nat, rest: seq<nat>)
    ensures SextetBits([v0, v1, v2, v3] + rest)
            == BitsOf(v0, 6) + BitsOf(v1, 6) + (BitsOf(v2, 6) + BitsOf(v3, 6)) + SextetBits(rest)
  {
    TwoSextets(v0, v1, [v2, v3] + rest);
    TwoSextets(v2, v3, rest);
    assert [v0, v1, v2, v3] + rest == [v0, v1] + ([v2, v3] + rest);
    Regroup(BitsOf(v0, 6) + BitsOf(v1, 6), BitsOf(v2, 6) + BitsOf(v3, 6), SextetBits(rest));
  }

  lemma ThreeBytes(b0: Byte, b1: Byte, b2: Byte, rest: seq<Byte>)
    ensures ByteBits([b0, b1, b2] + rest) == BitsOf(b0, 8) + BitsOf(b1, 8) + BitsOf(b2, 8) + ByteBits(rest)
  {
    ByteBitsConcat([b0, b1, b2], rest);
    ByteBitsConcat([b0, b1], [b2]);
    TwoBytes(b0, b1);
    OneByte(b2);
    assert [b0, b1] + [b2] == [b0, b1, b2];
  }

  lemma GroupOfBytes(b0: Byte, b1: Byte, b2: Byte, s: nat, t: nat, values: seq<nat>, rest: seq<Byte>, pad: seq<bool>)
    requires SextetBits(values) == ByteBits(rest) + pad
    requires s == b0 % 4 * 16 + b1 / 16 && t == b1 % 16 * 4 + b2 / 64
    ensures SextetBits([b0 / 4, s, t, b2 % 64] + values) == ByteBits([b0, b1, b2] + rest) + pad
  {
    FourSextets(b0 / 4, s, t, b2 % 64, values);
    ThreeBytesInSextets(b0, b1, b2, s, t);
    ThreeBytes(b0, b1, b2, rest);
    Regroup(BitsOf(b0, 8) + BitsOf(b1, 8) + BitsOf(b2, 8), ByteBits(rest), pad);
  }

  lemma ValuesOfGroup(b0: Byte, b1: Byte, b2: Byte, s: nat, t: nat, rest: seq<Byte>)
    requires s == b0 % 4 * 16 + b1 / 16 && t == b1 % 16 * 4 + b2 / 64
    ensures Values([b0, b1, b2] + rest) == [b0 / 4, s, t, b2 % 64] + Values(rest)
  {
    assert ([b0, b1, b2] + rest)[3..] == rest;
  }

  lemma NextGroup(b0: Byte, b1: Byte, b2: Byte, rest: seq<Byte>, pad: seq<bool>)
    requires SextetBits(Values(rest)) == ByteBits(rest) + pad
    ensures SextetBits(Values([b0, b1, b2] + rest)) == ByteBits([b0, b1, b2] + rest) + pad
  {
    var s, t := b0 % 4 * 16 + b1 / 16, b1 % 16 * 4 + b2 / 64;
    ValuesOfGroup(b0, b1, b2, s, t, rest);
    GroupOfBytes(b0, b1, b2, s, t, Values(rest), rest, pad);
  }

  /** The digits hold the bits of the bytes, and zeros to fill up the last digit. */
  lemma {:induction false} ValuesHoldBytes(b: seq<Byte>) returns (pad: nat)
    ensures pad < 6 && SextetBits(Values(b)) == ByteBits(b) + Zeros(pad)
  {
    if |b| == 0 {
      pad := 0;
    } else if |b| == 1 {
      LastByte(b[0]);
      assert b == [b[0]];
      pad := 4;
    } else if |b| == 2 {
      LastTwoBytes(b[0], b[1]);
      assert b == [b[0], b[1]];
      pad := 2;
    } else {
      pad := ValuesHoldBytes(b[3..]);
      NextGroup(b[0], b[1], b[2], b[3..], Zeros(pad));
      assert b == [b[0], b[1], b[2]] + b[3..];
    }
  }

  // ----- what the printer writes -----

  function Digits(values: seq<nat>): string
    requires forall i | 0 <= i < |values| :: values[i] < 64
  {
    seq(|values|, i requires 0 <= i < |values| => SextetChar(values[i]))
  }

  lemma DigitsOfFour(v: nat, w: nat, x: nat, y: nat)
    requires v < 64 && w < 64 && x < 64 && y < 64
    ensures Digits([v, w, x, y]) == [SextetChar(v), SextetChar(w), SextetChar(x), SextetChar(y)]
  {
  }

  lemma GroupEncodes(b: seq<Byte>)
    requires |b| > 2
    ensures FourDigits(b[0], b[1], b[2]) == Digits(FirstFour(b))
  {
    var four := FirstFour(b);
    DigitsOfFour(four[0], four[1], four[2], four[3]);
    assert four == [four[0], four[1], four[2], four[3]];
  }

  lemma DigitsOfGroup(b: seq<Byte>)
    requires |b| > 2 && StripPads(Base64Encode(b[3..])) == Digits(Values(b[3..]))
    ensures StripPads(Base64Encode(b)) == Digits(Values(b))
  {
    var four, rest := FirstFour(b), b[3..];
    GroupEncodes(b);
    DigitsHaveNoPad(four);
    StripPadsSuffix(Digits(four), Base64Encode(rest));
    DigitsConcat(four, Values(rest));
  }

  lemma DigitsHaveNoPad(values: seq<nat>)
    requires Sextets(values)
    ensures forall i | 0 <= i < |values| :: Digits(values)[i] != '='
  {
  }

  lemma DigitsConcat(a: seq<nat>, b: seq<nat>)
    requires Sextets(a) && Sextets(b)
    ensures Digits(a + b) == Digits(a) + Digits(b)
  {
  }

  lemma {:induction false} CoreIsDigits(b: seq<Byte>)
    ensures StripPads(Base64Encode(b)) == Digits(Values(b))
  {
    if |b| == 1 {
      ShapeLastByte(b[0]);
      assert b == [b[0]];
    } else if |b| == 2 {
      ShapeLastTwoBytes(b[0], b[1]);
      assert b == [b[0], b[1]];
    } else if |b| > 2 {
      CoreIsDigits(b[3..]);
      DigitsOfGroup(b);
    }
  }

  lemma {:induction false} CommasFor(s: string)
    ensures ReplaceChar(s, '/', ",") == seq(|s|, i requires 0 <= i < |s| => Comma(s[i]))
  {
    if s != "" { CommasFor(s[1..]); }
  }

  lemma TokenPlaces(text: string)
    ensures Places(EncodeToken(text)) == Values(Utf16Encode(text))
  {
    var values := Values(Utf16Encode(text));
    CoreIsDigits(Utf16Encode(text));
    CommasFor(Digits(values));
    forall i | 0 <= i < |values| ensures Place(EncodeToken(text)[i]) == values[i] {
      PlaceOfDigit(values[i]);
    }
  }

  /** The printer writes the bits of the text in UTF-16, six for each digit of the alphabet, with less than
      six zeros to fill up the last digit. */
  lemma PrinterWritesBits(text: string) returns (pad: nat)
    ensures pad < 6 && TokenBits(EncodeToken(text)) == TextBits(text) + Zeros(pad)
    ensures forall c | c in EncodeToken(text) :: TokenChar(c)
  {
    TokenPlaces(text);
    TextInBytes(text);
    pad := ValuesHoldBytes(Utf16Encode(text));
    TokenRoundTrip(text);
  }

  // ----- what the parser reads -----

  function Slash(c: char): char { if c == ',' then '/' else c }

  lemma {:induction false} SlashesFor(s: string)
    ensures ReplaceChar(s, ',', "/") == seq(|s|, i requires 0 <= i < |s| => Slash(s[i]))
  {
    if s != "" { SlashesFor(s[1..]); }
  }

  /** What the scan of the digits from here on gives. */
  ghost predicate ScanGives(scan: Option<seq<Byte>>, values: seq<nat>) {
    if |values| % 4 == 1 then scan.None?
    else scan.Some? && |scan.value| == 6 * |values| / 8 && ByteBits(scan.value) <= SextetBits(values)
  }

  predicate Sextets(values: seq<nat>) { forall i | 0 <= i < |values| :: values[i] < 64 }

  lemma DigitScan(v: nat, rest: string, quad: nat, left: nat)
    requires v < 64 && quad < 4 && (quad == 1 ==> left < 64) && (quad == 2 ==> left < 16) && (quad == 3 ==> left < 4)
    ensures Base64Scan([SextetChar(v)] + rest, quad, left, 0) ==
              if quad == 0 then Base64Scan(rest, 1, v, 0)
              else if quad == 1 then Emit(left * 4 + v / 16, Base64Scan(rest, 2, v % 16, 0))
              else if quad == 2 then Emit(left * 16 + v / 4, Base64Scan(rest, 3, v % 4, 0))
              else Emit(left * 64 + v, Base64Scan(rest, 0, 0, 0))
  {
    SextetRoundTrip(v);
    ScanStep(SextetChar(v), rest, quad, left, 0);
  }

  lemma ScanNothing()
    ensures ScanGives(Base64Scan("", 0, 0, 0), [])
  {
  }

  lemma ScanOne(v: nat)
    requires v < 64
    ensures Base64Scan(Digits([v]) + "===", 0, 0, 0) == None
  {
    DigitScan(v, "===", 0, 0);
    assert Digits([v]) == [SextetChar(v)];
    assert Base64Scan("=", 1, v, 0) == None by { assert "="[1..] == ""; }
    assert Base64Scan("==", 1, v, 0) == None by { assert "=="[1..] == "="; }
    assert Base64Scan("===", 1, v, 0) == None by { assert "==="[1..] == "=="; }
  }

  lemma ScanTwo(v: nat, w: nat)
    requires v < 64 && w < 64
    ensures ScanGives(Base64Scan(Digits([v, w]) + "==", 0, 0, 0), [v, w])
  {
    var b := v * 4 + w / 16;
    DigitScan(v, [SextetChar(w)] + "==", 0, 0);
    DigitScan(w, "==", 1, v);
    assert Digits([v, w]) + "==" == [SextetChar(v)] + ([SextetChar(w)] + "==");
    assert "=="[1..] == "=";
    assert Base64Scan(Digits([v, w]) + "==", 0, 0, 0) == Some([b]) by { assert [b] + [] == [b]; }
    FirstByte(v, w / 16, w % 16, w, b);
    OneByte(b);
    TwoSextets(v, w, []);
    assert [v, w] + [] == [v, w];
  }

  lemma ScanThree(v: nat, w: nat, x: nat)
    requires v < 64 && w < 64 && x < 64
    ensures ScanGives(Base64Scan(Digits([v, w, x]) + "=", 0, 0, 0), [v, w, x])
  {
    var b, c := v * 4 + w / 16, w % 16 * 16 + x / 4;
    DigitScan(v, [SextetChar(w)] + ([SextetChar(x)] + "="), 0, 0);
    DigitScan(w, [SextetChar(x)] + "=", 1, v);
    DigitScan(x, "=", 2, w % 16);
    assert Digits([v, w, x]) + "=" == [SextetChar(v)] + ([SextetChar(w)] + ([SextetChar(x)] + "="));
    assert Base64Scan(Digits([v, w, x]) + "=", 0, 0, 0) == Some([b, c]) by { assert [b] + ([c] + []) == [b, c]; }
    FourAreThree(v, w / 16, w % 16, x / 4, x % 4, 0, w, x, b, c, x % 4 * 64);
    TwoBytes(b, c);
    TwoSextets(v, w, [x]);
    OneSextet(x);
    assert [v, w] + [x] == [v, w, x];
  }

  lemma ScanFour(v: nat, w: nat, x: nat, y: nat, rest: string)
    requires v < 64 && w < 64 && x < 64 && y < 64
    ensures Base64Scan(Digits([v, w, x, y]) + rest, 0, 0, 0)
            == Emit(v * 4 + w / 16, Emit(w % 16 * 16 + x / 4, Emit(x % 4 * 64 + y, Base64Scan(rest, 0, 0, 0))))
  {
    var t3 := [SextetChar(y)] + rest;
    var t2 := [SextetChar(x)] + t3;
    var t1 := [SextetChar(w)] + t2;
    DigitScan(v, t1, 0, 0);
    DigitScan(w, t2, 1, v);
    DigitScan(x, t3, 2, w % 16);
    DigitScan(y, rest, 3, x % 4);
    assert Digits([v, w, x, y]) + rest == [SextetChar(v)] + t1;
  }

  lemma PrefixAfter(front: seq<bool>, a: seq<bool>, b: seq<bool>)
    requires a <= b
    ensures front + a <= front + b
  {
  }

  lemma FourMoreBits(v: nat, w: nat, x: nat, y: nat, values: seq<nat>, bytes: seq<Byte>)
    requires v < 64 && w < 64 && x < 64 && y < 64 && ByteBits(bytes) <= SextetBits(values)
    ensures ByteBits([v * 4 + w / 16, w % 16 * 16 + x / 4, x % 4 * 64 + y] + bytes) <= SextetBits([v, w, x, y] + values)
  {
    var b, c, d := v * 4 + w / 16, w % 16 * 16 + x / 4, x % 4 * 64 + y;
    FourSextets(v, w, x, y, values);
    FourAreThree(v, w / 16, w % 16, x / 4, x % 4, y, w, x, b, c, d);
    ThreeBytes(b, c, d, bytes);
    PrefixAfter(BitsOf(b, 8) + BitsOf(c, 8) + BitsOf(d, 8), ByteBits(bytes), SextetBits(values));
  }

  lemma RightSizeGives(bytes: seq<Byte>, values: seq<nat>)
    requires |values| % 4 != 1 && |bytes| == 6 * |values| / 8 && ByteBits(bytes) <= SextetBits(values)
    ensures ScanGives(Some(bytes), values)
  {
  }

  lemma FourBySix(n: nat)
    ensures (n + 4) % 4 == n % 4 && 6 * (n + 4) / 8 == 6 * n / 8 + 3
  {
  }

  /** Three bytes more for four digits more. */
  lemma ThreeMore(b: Byte, c: Byte, d: Byte, four: seq<nat>, values: seq<nat>, scan: Option<seq<Byte>>)
    requires |four| == 4 && ScanGives(scan, values)
    requires scan.Some? ==> ByteBits([b, c, d] + scan.value) <= SextetBits(four + values)
    ensures ScanGives(Emit(b, Emit(c, Emit(d, scan))), four + values)
  {
    FourBySix(|values|);
    if scan.Some? {
      RightSizeGives([b, c, d] + scan.value, four + values);
      assert [b] + ([c] + ([d] + scan.value)) == [b, c, d] + scan.value;
    }
  }

  lemma FourMore(v: nat, w: nat, x: nat, y: nat, values: seq<nat>, scan: Option<seq<Byte>>)
    requires v < 64 && w < 64 && x < 64 && y < 64 && ScanGives(scan, values)
    ensures ScanGives(Emit(v * 4 + w / 16, Emit(w % 16 * 16 + x / 4, Emit(x % 4 * 64 + y, scan))),
                      [v, w, x, y] + values)
  {
    if scan.Some? { FourMoreBits(v, w, x, y, values, scan.value); }
    ThreeMore(v * 4 + w / 16, w % 16 * 16 + x / 4, x % 4 * 64 + y, [v, w, x, y], values, scan);
  }

  lemma {:induction false} ScanReadsBits(values: seq<nat>)
    requires Sextets(values)
    ensures ScanGives(Base64Scan(Digits(values) + Pads(|values|), 0, 0, 0), values)
  {
    if |values| >= 4 {
      ScanReadsBits(values[4..]);
      ScanNextFour(values);
    } else {
      ScanLast(values);
    }
  }

  lemma ScanLast(values: seq<nat>)
    requires Sextets(values) && |values| < 4
    ensures ScanGives(Base64Scan(Digits(values) + Pads(|values|), 0, 0, 0), values)
  {
    if |values| == 0 {
      ScanNothing();
      assert values == [] && Digits(values) + Pads(0) == "";
    } else if |values| == 1 {
      ScanOne(values[0]);
      assert values == [values[0]] && Pads(1) == "===";
    } else if |values| == 2 {
      ScanTwo(values[0], values[1]);
      assert values == [values[0], values[1]] && Pads(2) == "==";
    } else {
      ScanThree(values[0], values[1], values[2]);
      assert values == [values[0], values[1], values[2]] && Pads(3) == "=";
    }
  }

  lemma PaddedDigits(four: seq<nat>, more: seq<nat>)
    requires Sextets(four) && Sextets(more) && |four| == 4
    ensures Digits(four + more) + Pads(|four + more|) == Digits(four) + (Digits(more) + Pads(|more|))
  {
    DigitsConcat(four, more);
    PadsPeriodic(|more|);
    assert |four + more| == |more| + 4;
  }

  lemma ScanNextFour(values: seq<nat>)
    requires Sextets(values) && |values| >= 4
    requires ScanGives(Base64Scan(Digits(values[4..]) + Pads(|values| - 4), 0, 0, 0), values[4..])
    ensures ScanGives(Base64Scan(Digits(values) + Pads(|values|), 0, 0, 0), values)
  {
    var v, w, x, y, more := values[0], values[1], values[2], values[3], values[4..];
    var rest := Digits(more) + Pads(|more|);
    ScanFour(v, w, x, y, rest);
    FourMore(v, w, x, y, more, Base64Scan(rest, 0, 0, 0));
    PaddedDigits([v, w, x, y], more);
    assert [v, w, x, y] + more == values;
  }

  /** These are the values of the token's digits. */
  predicate ValuesOf(token: string, values: seq<nat>) {
    && |values| == |token| && Sextets(values)
    && forall i | 0 <= i < |token| :: SextetChar(values[i]) == Slash(token[i])
  }

  lemma DigitOf(c: char)
    requires TokenChar(c)
    ensures Place(c) < 64 && SextetChar(Place(c)) == Slash(c)
  {
    PlaceOfToken(c);
    CharOfSextet(Slash(c));
  }

  lemma CharOfSextet(c: char)
    requires SextetOf(c).Some?
    ensures SextetChar(SextetOf(c).value) == c
  {
  }

  lemma PlacesAreValues(token: string)
    requires forall c | c in token :: TokenChar(c)
    ensures ValuesOf(token, Places(token))
  {
    forall i | 0 <= i < |token|
      ensures Places(token)[i] < 64 && SextetChar(Places(token)[i]) == Slash(token[i])
    {
      assert token[i] in token;
      DigitOf(token[i]);
    }
  }

  lemma TokenScan(token: string, values: seq<nat>)
    requires ValuesOf(token, values)
    ensures ScanGives(Base64Scan(ReplaceChar(token, ',', "/") + Pads(|token|), 0, 0, 0), values)
    ensures DecodeToken(token) == match Base64Scan(ReplaceChar(token, ',', "/") + Pads(|token|), 0, 0, 0)
                                  case None => None
                                  case Some(bytes) => Utf16Decode(bytes)
  {
    SlashesFor(token);
    assert ReplaceChar(token, ',', "/") == Digits(values);
    ScanReadsBits(values);
    var padded := ReplaceChar(token, ',', "/") + Pads(|token|);
    forall i | 0 <= i < |padded| ensures padded[i] as int < 128 {
      if i < |token| { assert padded[i] == SextetChar(values[i]); } else { assert padded[i] == '='; }
    }
  }

  /** The bits are those of the text, and less than another digit. */
  ghost predicate BitsAreOf(bits: seq<bool>, text: string) {
    TextBits(text) <= bits && |bits| - |TextBits(text)| < 6
  }

  /** Bytes that the digits hold but for less than another digit. */
  predicate Fills(bytes: seq<Byte>, values: seq<nat>) {
    ByteBits(bytes) <= SextetBits(values) && 6 * |values| - 8 * |bytes| < 6
  }

  lemma ScannedBytes(scan: Option<seq<Byte>>, values: seq<nat>, bytes: seq<Byte>)
    requires ScanGives(scan, values)
    ensures scan == Some(bytes) <==> Fills(bytes, values)
  {
    if Fills(bytes, values) {
      assert 8 * |bytes| <= 6 * |values| && |values| % 4 != 1 && |bytes| == 6 * |values| / 8;
      BytesDiffer(scan.value, bytes);
    }
  }

  lemma ScannedText(scan: Option<seq<Byte>>, values: seq<nat>, text: string)
    requires ScanGives(scan, values)
    ensures scan.Some? && Utf16Decode(scan.value) == Some(text) <==> BitsAreOf(SextetBits(values), text)
  {
    ScannedBytes(scan, values, Utf16Encode(text));
    TextInBytes(text);
    Utf16RoundTrip(text);
    if scan.Some? { DecodedIsEncoded(scan.value); }
  }

  lemma ReadsBits(token: string, values: seq<nat>, text: string)
    requires ValuesOf(token, values)
    ensures DecodeToken(token) == Some(text) <==> BitsAreOf(SextetBits(values), text)
  {
    TokenScan(token, values);
    ScannedText(Base64Scan(ReplaceChar(token, ',', "/") + Pads(|token|), 0, 0, 0), values, text);
  }

  /** The parser reads a token of the alphabet as a text if and only if the token holds the bits of the text
      in UTF-16 and less than another digit. */
  lemma ParserReadsBits(token: string, text: string)
    requires forall c | c in token :: TokenChar(c)
    ensures DecodeToken(token) == Some(text) <==> BitsAreOf(TokenBits(token), text)
  {
    PlacesAreValues(token);
    ReadsBits(token, Places(token), text);
  }
}
