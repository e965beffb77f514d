/** Shared result types and the few string operations of the original language that several
    components rely on: trimming, sequential replacement and decimal rendering. */
module Common {

  datatype Option<+T> = None | Some(value: T)

  datatype Result<+T, +E> = Ok(value: T) | Err(error: E)

  /** The characters that trimming removes. */
  predicate IsSpace(c: char) {
    || '\t' <= c <= '\r'
    || '\U{1c}' <= c <= ' '
    || c in {'\U{85}', '\U{a0}', '\U{1680}', '\U{2028}', '\U{2029}', '\U{202f}', '\U{205f}', '\U{3000}'}
    || '\U{2000}' <= c <= '\U{200a}'
  }

  function TrimLeft(s: string): string {
    if s != "" && IsSpace(s[0]) then TrimLeft(s[1..]) else s
  }

  function TrimRight(s: string): string {
    if s != "" && IsSpace(s[|s| - 1]) then TrimRight(s[..|s| - 1]) else s
  }

  function Strip(s: string): string {
    TrimRight(TrimLeft(s))
  }

  /** Trimming cuts a piece out of the text, and only white space around it. */
  lemma {:induction false} TrimLeftIsSlice(s: string) returns (i: nat)
    ensures i <= |s| && TrimLeft(s) == s[i..] && forall k | 0 <= k < i :: IsSpace(s[k])
  {
    if s != "" && IsSpace(s[0]) {
      i := TrimLeftIsSlice(s[1..]);
      i := i + 1;
    } else {
      i := 0;
    }
  }

  lemma {:induction false} TrimRightIsSlice(s: string) returns (j: nat)
    ensures j <= |s| && TrimRight(s) == s[..j] && forall k | j <= k < |s| :: IsSpace(s[k])
  {
    if s != "" && IsSpace(s[|s| - 1]) {
      j := TrimRightIsSlice(s[..|s| - 1]);
    } else {
      j := |s|;
    }
  }

  lemma StripIsSlice(s: string) returns (i: nat, j: nat)
    ensures i <= j <= |s| && Strip(s) == s[i..j] && forall k | 0 <= k < i :: IsSpace(s[k])
  {
    i := TrimLeftIsSlice(s);
    j := TrimRightIsSlice(s[i..]);
    j := i + j;
  }

  lemma StripKeeps(s: string)
    requires s != "" ==> !IsSpace(s[0]) && !IsSpace(s[|s| - 1])
    ensures Strip(s) == s
  {
  }

  /** Every occurrence of `a` becomes `sub`. */
  function ReplaceChar(s: string, a: char, sub: string): string {
    if s == "" then "" else (if s[0] == a then sub else [s[0]]) + ReplaceChar(s[1..], a, sub)
  }

  /** Leftmost, non-overlapping occurrences of the two characters `ab` become `sub`. */
  function ReplacePair(s: string, a: char, b: char, sub: char): string {
    if |s| < 2 then s
    else if s[0] == a && s[1] == b then [sub] + ReplacePair(s[2..], a, b, sub)
    else [s[0]] + ReplacePair(s[1..], a, b, sub)
  }

  /** A character that starts no occurrence is copied. */
  lemma ReplacePairSkips(c: char, rest: string, a: char, b: char, sub: char)
    requires c == a && rest != "" ==> rest[0] != b
    ensures ReplacePair([c] + rest, a, b, sub) == [c] + ReplacePair(rest, a, b, sub)
  {
    assert ([c] + rest)[1..] == rest;
  }

  /** Two characters that start no occurrence are copied. */
  lemma ReplacePairSkipsTwo(c: char, d: char, rest: string, a: char, b: char, sub: char)
    requires c == a ==> d != b
    requires d == a && rest != "" ==> rest[0] != b
    ensures ReplacePair([c, d] + rest, a, b, sub) == [c, d] + ReplacePair(rest, a, b, sub)
  {
    ReplacePairSkips(d, rest, a, b, sub);
    ReplacePairSkips(c, [d] + rest, a, b, sub);
    assert [c, d] + rest == [c] + ([d] + rest);
  }

  /** An occurrence in front is replaced. */
  lemma ReplacePairMatches(rest: string, a: char, b: char, sub: char)
    ensures ReplacePair([a, b] + rest, a, b, sub) == [sub] + ReplacePair(rest, a, b, sub)
  {
    assert ([a, b] + rest)[2..] == rest;
  }

  lemma {:induction false} ReplaceCharConcat(s: string, t: string, a: char, sub: string)
    ensures ReplaceChar(s + t, a, sub) == ReplaceChar(s, a, sub) + ReplaceChar(t, a, sub)
  {
    if s == "" {
      assert s + t == t;
    } else {
      assert (s + t)[1..] == s[1..] + t;
      ReplaceCharConcat(s[1..], t, a, sub);
    }
  }

  /** No place of `s` holds `a` directly followed by `b`. */
  ghost predicate NoPair(s: string, a: char, b: char) {
    forall i {:trigger s[i]} :: 0 <= i < |s| - 1 && s[i] == a ==> s[i + 1] != b
  }

  /** After replacing `ab` by a third character no `ab` is left. */
  lemma {:induction false} ReplacePairRemoves(s: string, a: char, b: char, sub: char)
    requires a != b && sub != a && sub != b
    ensures NoPair(ReplacePair(s, a, b, sub), a, b)
    ensures s != "" ==> ReplacePair(s, a, b, sub) != "" && ReplacePair(s, a, b, sub)[0] in {s[0], sub}
  {
    if |s| >= 2 {
      if s[0] == a && s[1] == b {
        ReplacePairRemoves(s[2..], a, b, sub);
      } else {
        ReplacePairRemoves(s[1..], a, b, sub);
      }
    }
  }

  /** Replacing another pair `ax` cannot create a pair `ab`. */
  lemma {:induction false} ReplacePairPreserves(s: string, a: char, x: char, sub: char, b: char)
    requires a != b && sub != b && (sub == a ==> x == a)
    requires NoPair(s, a, b)
    ensures NoPair(ReplacePair(s, a, x, sub), a, b)
    ensures s != "" ==> ReplacePair(s, a, x, sub) != "" && ReplacePair(s, a, x, sub)[0] in {s[0], sub}
  {
    if |s| >= 2 {
      if s[0] == a && s[1] == x {
        assert NoPair(s[2..], a, b) by { forall i | 0 <= i < |s[2..]| - 1 ensures s[2..][i] == s[i + 2] {} }
        ReplacePairPreserves(s[2..], a, x, sub, b);
        if sub == a && |s| > 2 {
          assert s[1] == a && s[2] != b;
        }
      } else {
        assert NoPair(s[1..], a, b) by { forall i | 0 <= i < |s[1..]| - 1 ensures s[1..][i] == s[i + 1] {} }
        ReplacePairPreserves(s[1..], a, x, sub, b);
        assert s[0] == a ==> s[1] != b;
      }
    }
  }

  /** Decimal rendering of a natural number, without leading zeros. */
  function Decimal(n: nat): (s: string)
    ensures s != "" && AllDigits(s)
    ensures n > 0 ==> s[0] != '0'
  {
    if n < 10 then [Digit(n)] else Decimal(n / 10) + [Digit(n % 10)]
  }

  function Digit(d: nat): (c: char)
    requires d < 10
    ensures '0' <= c <= '9' && (c as int) - ('0' as int) == d
  {
    ('0' as int + d) as char
  }

  predicate IsDigit(c: char) { '0' <= c <= '9' }

  predicate AllDigits(s: string) { forall i :: 0 <= i < |s| ==> IsDigit(s[i]) }

  /** The number a digit string denotes. */
  function Number(s: string): nat
    requires AllDigits(s)
  {
    if s == "" then 0 else 10 * Number(s[..|s| - 1]) + (s[|s| - 1] as int - '0' as int)
  }

  lemma {:induction false} NumberOfDecimal(n: nat)
    ensures Number(Decimal(n)) == n
  {
    if n >= 10 {
      NumberOfDecimal(n / 10);
      var s := Decimal(n);
      assert s[..|s| - 1] == Decimal(n / 10);
    }
  }

  lemma {:induction false} NumberIgnoresLeadingZeros(k: nat, s: string)
    requires AllDigits(s)
    ensures AllDigits(seq(k, _ => '0') + s)
    ensures Number(seq(k, _ => '0') + s) == Number(s)
  {
    var zeros: string := seq(k, _ => '0');
    if s != "" {
      assert (zeros + s)[..|zeros + s| - 1] == zeros + s[..|s| - 1];
      NumberIgnoresLeadingZeros(k, s[..|s| - 1]);
    } else if k > 0 {
      assert (zeros + s)[..|zeros + s| - 1] == seq(k - 1, _ => '0') + s;
      NumberIgnoresLeadingZeros(k - 1, s);
    }
  }
}
