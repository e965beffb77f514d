/** Amounts that are written without cents: what the amount parser reads from them. */
module MoneyWhole {
  import opened Common
  import opened InvoiceMoney

  /** A whole amount, its digits grouped by `sep`. */
  function RenderWhole(units: int, sep: string, style: SignStyle): string {
    var body := Group(Decimal(Abs(units)), sep);
    if units < 0 then (if style == Parentheses then "(" + body + ")" else "-" + body)
    else if style == PlusOrMinus then "+" + body else body
  }

  lemma {:induction false} SplitConcat(a: string, th: char, back: string)
    requires AllDigits(back) && !IsDigit(th)
    ensures Split(a + [th] + back, th) == Split(a, th) + [back]
  {
    var s := a + [th] + back;
    if a == "" {
      assert s[0] == th && s[1..] == back;
      SplitDigits(back, th);
    } else {
      assert s[0] == a[0] && s[1..] == a[1..] + [th] + back;
      SplitConcat(a[1..], th, back);
    }
  }

  lemma {:induction false} JoinConcat(groups: seq<string>, last: string)
    ensures Join(groups + [last]) == Join(groups) + last
  {
    if groups == [] {
      assert groups + [last] == [last] && [last][1..] == [];
    } else {
      assert (groups + [last])[0] == groups[0] && (groups + [last])[1..] == groups[1..] + [last];
      JoinConcat(groups[1..], last);
      assert groups[0] + (Join(groups[1..]) + last) == groups[0] + Join(groups[1..]) + last;
    }
  }

  /** Groups of digits of which all but the first are three. */
  predicate Thousands(groups: seq<string>) {
    && |groups| >= 1 && (forall i | 0 <= i < |groups| :: IsNumeral(groups[i]))
    && forall i | 1 <= i < |groups| :: |groups[i]| == 3
  }

  lemma {:induction false} GroupSplits(digits: string, th: char)
    requires IsNumeral(digits) && !IsDigit(th)
    ensures var groups := Split(Group(digits, [th]), th);
            Thousands(groups) && Join(groups) == digits && (|digits| > 3 ==> |groups| > 1)
  {
    if |digits| <= 3 {
      SplitDigits(digits, th);
      assert [digits][1..] == [];
    } else {
      var front, back := digits[..|digits| - 3], digits[|digits| - 3..];
      GroupSplits(front, th);
      SplitConcat(Group(front, [th]), th, back);
      JoinConcat(Split(Group(front, [th]), th), back);
      assert front + back == digits;
    }
  }

  lemma ThousandsAreWhole(groups: seq<string>)
    requires Thousands(groups) && |groups| > 1 && AllDigits(Join(groups))
    ensures OneSeparator(groups) == Some(Number(Join(groups)) * 100)
  {
    assert |groups[|groups| - 1]| == 3;
  }

  lemma OnlyThis(text: string, th: char)
    requires th in ".," && th in text && OtherSeparator(th) !in text
    ensures Magnitude(text) == OneSeparator(Split(text, th))
  {
  }

  lemma PlainDenotes(digits: string)
    requires IsNumeral(digits)
    ensures DenotesAmount(digits, Number(digits) * 100)
  {
    assert '.' !in digits && ',' !in digits;
  }

  lemma GroupedDenotes(digits: string, th: char)
    requires IsNumeral(digits) && th in ".," && |digits| > 3
    ensures DenotesAmount(Group(digits, [th]), Number(digits) * 100)
  {
    GroupChars(digits, [th]);
    GroupSplits(digits, th);
    ThousandsAreWhole(Split(Group(digits, [th]), th));
    OnlyThis(Group(digits, [th]), th);
  }

  predicate Separator(sep: string) { sep in {"", ".", ",", "'", "\U{2019}", " ", "\U{a0}"} }

  lemma KeptDenotes(digits: string, sep: string)
    requires IsNumeral(digits) && Separator(sep)
    ensures DenotesAmount(Kept(digits, sep), Number(digits) * 100)
  {
    if sep in {".", ","} && |digits| > 3 {
      assert sep == [sep[0]];
      GroupedDenotes(digits, sep[0]);
    } else {
      KeptIsPlain(digits, sep);
      PlainDenotes(digits);
    }
  }

  lemma KeptIsPlain(digits: string, sep: string)
    requires IsNumeral(digits) && Separator(sep) && (sep in {".", ","} ==> |digits| <= 3)
    ensures Kept(digits, sep) == digits
  {
    GroupChars(digits, sep);
  }

  lemma WholeBody(n: nat, sep: string)
    requires Separator(sep)
    ensures BareBody(Group(Decimal(n), sep), n * 100)
  {
    var digits := Decimal(n);
    NumberOfDecimal(n);
    GroupChars(digits, sep);
    GroupEnds(digits, sep);
    BodyDropped(digits, sep, "");
    assert Group(digits, sep) + "" == Group(digits, sep) && Kept(digits, sep) + "" == Kept(digits, sep);
    KeptDenotes(digits, sep);
  }

  lemma GroupEnds(digits: string, sep: string)
    requires IsNumeral(digits)
    ensures var g := Group(digits, sep); g != "" && g[|g| - 1] == digits[|digits| - 1]
  {
  }

  /** An amount without cents, with or without thousands in any of the groupings, is read as that many whole
      units, point and comma included: a single separator before three digits is none of decimals. */
  lemma WholeAmountIsRead(units: int, sep: string, style: SignStyle)
    requires Separator(sep)
    ensures AmountToCents(RenderWhole(units, sep, style))
            == if Abs(units) * 100 < LIMIT then Cents(units * 100) else Overflow
  {
    var body := Group(Decimal(Abs(units)), sep);
    WholeBody(Abs(units), sep);
    if units < 0 && style == Parentheses {
      ParenthesisedParses(body, Abs(units) * 100);
    } else if units < 0 || style == PlusOrMinus {
      LeadingSignParses(if units < 0 then '-' else '+', body, Abs(units) * 100);
    } else {
      UnsignedParses(body, Abs(units) * 100);
    }
  }

  // ----- what is no amount -----

  predicate NoDigit(s: string) { forall i | 0 <= i < |s| :: !IsDigit(s[i]) }

  lemma {:induction false} DroppedHasNoDigit(s: string)
    requires NoDigit(s)
    ensures NoDigit(DropIgnored(s))
  {
    if s != "" { DroppedHasNoDigit(s[1..]); }
  }

  lemma {:induction false} InnerHasNoDigit(s: string)
    requires NoDigit(s)
    ensures NoDigit(StripParens(s))
    decreases |s|
  {
    if s != "" && s[0] in "()" {
      InnerHasNoDigit(s[1..]);
    } else if s != "" && s[|s| - 1] in "()" {
      InnerHasNoDigit(s[..|s| - 1]);
    }
  }

  lemma {:induction false} FirstGroup(s: string, sep: char)
    requires NoDigit(s)
    ensures !IsNumeral(Split(s, sep)[0])
  {
    if s != "" && s[0] != sep { assert Split(s, sep)[0][0] == s[0]; }
  }

  lemma NoMagnitude(raw: string)
    requires NoDigit(raw) && raw != ""
    ensures Magnitude(raw) == None
  {
    FirstGroup(raw, '.');
    FirstGroup(raw, ',');
    assert !AllDigits(raw) by { assert !IsDigit(raw[0]); }
    if '.' in raw && ',' in raw {
      NoDecimals(raw, LastIndex(raw, '.'));
      NoDecimals(raw, LastIndex(raw, ','));
    }
  }

  lemma NoDecimals(raw: string, k: nat)
    requires NoDigit(raw) && k < |raw|
    ensures !IsNumeral(raw[k + 1..])
  {
    if raw[k + 1..] != "" { assert raw[k + 1..][0] == raw[k + 1]; }
  }

  lemma BareIsAbsent(parenthesised: bool, bare: string)
    requires NoDigit(bare)
    ensures ParseBare(parenthesised, bare) == Absent
  {
    var signed := bare != "" && bare[0] in "+-";
    var raw := if signed then bare[1..] else bare;
    if raw != "" {
      NoMagnitude(raw);
      assert InRange(parenthesised || (signed && bare[0] == '-'), Magnitude(raw)) == Absent;
    }
  }

  lemma StrippedHasNoDigit(text: string)
    requires NoDigit(text)
    ensures NoDigit(Strip(text))
  {
    var i, j := StripIsSlice(text);
    assert forall k | 0 <= k < j - i :: Strip(text)[k] == text[i + k];
  }

  /** Text without any digit is no amount. */
  lemma NoDigitNoAmount(text: string)
    requires NoDigit(text)
    ensures AmountToCents(text) == Absent
  {
    var trimmed := Strip(text);
    StrippedHasNoDigit(text);
    InnerHasNoDigit(trimmed);
    DroppedHasNoDigit(StripParens(trimmed));
    BareIsAbsent(trimmed != "" && trimmed[0] == '(', DropIgnored(StripParens(trimmed)));
  }
}
