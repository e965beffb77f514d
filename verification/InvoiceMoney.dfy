/** Money in invoices: the parser of amounts and the two printers of cents. */
module InvoiceMoney {
  import opened Common

  /** `Overflow` is the decimal library's refusal to handle more than 28 significant digits. */
  datatype Parsed = Absent | Cents(cents: int) | Overflow

  const LIMIT: int := 10_000_000_000_000_000_000_000_000_000

  predicate Ignored(c: char) { c in {'\U{a0}', ' ', '\'', '\U{2019}'} }

  predicate AmountChar(c: char) { IsDigit(c) || c == '.' || c == ',' }

  function DropIgnored(s: string): string {
    if s == "" then "" else (if Ignored(s[0]) then "" else [s[0]]) + DropIgnored(s[1..])
  }

  function StripParens(s: string): string {
    if s != "" && s[0] in "()" then StripParens(s[1..])
    else if s != "" && s[|s| - 1] in "()" then StripParens(s[..|s| - 1])
    else s
  }

  function Split(s: string, sep: char): (groups: seq<string>)
    ensures |groups| >= 1
  {
    if s == "" then [""]
    else
      var rest := Split(s[1..], sep);
      if s[0] == sep then [""] + rest else [[s[0]] + rest[0]] + rest[1..]
  }

  function Join(groups: seq<string>): string {
    if groups == [] then "" else groups[0] + Join(groups[1..])
  }

  /** Last place of `c`; -1 when there is none. */
  function LastIndex(s: string, c: char): (i: int)
    ensures -1 <= i < |s| && (i >= 0 ==> s[i] == c) && (c in s ==> i >= 0) && (forall j :: i < j < |s| ==> s[j] != c)
  {
    if c !in s then -1
    else if s[|s| - 1] == c then |s| - 1
    else LastIndex(s[..|s| - 1], c)
  }

  predicate IsNumeral(s: string) { s != "" && AllDigits(s) }

  /** Unsigned amount text: digits, points and commas.  With both separators the later one is the
      decimal sign. */
  function Magnitude(raw: string): Option<nat> {
    if '.' in raw && ',' in raw then
      var point, comma := LastIndex(raw, '.'), LastIndex(raw, ',');
      if point > comma then WithDecimals(ReplaceChar(raw[..point], ',', ""), raw[point + 1..])
      else WithDecimals(ReplaceChar(raw[..comma], '.', ""), raw[comma + 1..])
    else if '.' in raw then OneSeparator(Split(raw, '.'))
    else if ',' in raw then OneSeparator(Split(raw, ','))
    else if AllDigits(raw) then Some(Number(raw) * 100)
    else None
  }

  function WithDecimals(whole: string, fraction: string): Option<nat> {
    if |fraction| != 2 || !IsNumeral(fraction) || !AllDigits(whole) then None
    else Some(Number(whole) * 100 + Number(fraction))
  }

  /** With one kind of separator, a last group of two digits is the cents; otherwise the groups
      after the first must be thousands. */
  function OneSeparator(groups: seq<string>): Option<nat>
    requires |groups| >= 1
  {
    var last := groups[|groups| - 1];
    if exists i :: 0 <= i < |groups| && !IsNumeral(groups[i]) then None
    else
      JoinDigits(groups);
      JoinDigits(groups[..|groups| - 1]);
      if |last| == 2 then Some(Number(Join(groups[..|groups| - 1])) * 100 + Number(last))
      else if |groups| > 1 && forall i | 1 <= i < |groups| :: |groups[i]| == 3 then Some(Number(Join(groups)) * 100)
      else None
  }

  lemma JoinDigits(groups: seq<string>)
    requires forall i :: 0 <= i < |groups| ==> AllDigits(groups[i])
    ensures AllDigits(Join(groups))
  {
  }

  /** The amount parser, on text from which currency words and signs have been removed. */
  function AmountToCents(text: string): (p: Parsed)
    ensures p.Cents? ==> Abs(p.cents) < LIMIT
  {
    var trimmed := Strip(text);
    if trimmed == "" then Absent
    else
      var opens, closes := trimmed[0] == '(', trimmed[|trimmed| - 1] == ')';
      if opens != closes then Absent
      else
        ParseBare(opens, DropIgnored(StripParens(trimmed)))
  }

  function ParseBare(parenthesised: bool, bare: string): (p: Parsed)
    ensures p.Cents? ==> Abs(p.cents) < LIMIT
  {
    var signed := bare != "" && bare[0] in "+-";
    if parenthesised && signed then Absent
    else
      var raw := if signed then bare[1..] else bare;
      if raw == "" || exists i :: 0 <= i < |raw| && !AmountChar(raw[i]) then Absent
      else InRange(parenthesised || (signed && bare[0] == '-'), Magnitude(raw))
  }

  function InRange(negative: bool, m: Option<nat>): (p: Parsed)
    ensures p.Cents? ==> Abs(p.cents) < LIMIT
  {
    if m.None? then Absent
    else if m.value >= LIMIT then Overflow
    else Cents(Signed(negative, m.value))
  }

  function Signed(negative: bool, m: nat): int { if negative then -(m as int) else m }

  // ----- the printers -----

  function Abs(n: int): nat { if n < 0 then -n else n }

  function TwoDigits(n: nat): (s: string)
    requires n < 100
    ensures |s| == 2 && AllDigits(s)
  {
    [Digit(n / 10), Digit(n % 10)]
  }

  /** How the reprocessing preview prints stored cents. */
  function AmountFromCents(cents: int): string {
    (if cents < 0 then "-" else "") + Decimal(Abs(cents) / 100) + "." + TwoDigits(Abs(cents) % 100)
  }

  /** Rounding to 28 significant digits, ties to even, as the decimal division does. */
  function Round28(n: nat, unit: nat): nat
    requires unit > 0
    decreases n / unit
  {
    if n / unit < LIMIT then
      var down := n / unit;
      var twice := 2 * (n % unit);
      unit * (if twice > unit || (twice == unit && down % 2 == 1) then down + 1 else down)
    else
      SmallerQuotient(n, unit);
      Round28(n, 10 * unit)
  }

  lemma SmallerQuotient(n: nat, unit: nat)
    requires unit > 0 && n / unit > 0
    ensures n / (10 * unit) < n / unit
  {
    var p, q := n / unit, n / (10 * unit);
    if q >= p {
      assert n < (p + 1) * unit;
      assert q * (10 * unit) >= p * (10 * unit) by { MulMonotone(p, q, 10 * unit); }
      assert p * (10 * unit) == (10 * p) * unit;
      assert (10 * p) * unit >= (p + 1) * unit by { MulMonotone(p + 1, 10 * p, unit); }
    }
  }

  lemma MulMonotone(a: nat, b: nat, c: nat)
    requires a <= b
    ensures a * c <= b * c
  {
  }

  /** How the extractor prints an amount it has parsed. */
  function FormatAmount(cents: int): string {
    AmountFromCents(Signed(cents < 0, Round28(Abs(cents), 1)))
  }

  // ----- renderings -----

  function Group(digits: string, sep: string): string {
    if |digits| <= 3 then digits else Group(digits[..|digits| - 3], sep) + sep + digits[|digits| - 3..]
  }

  datatype SignStyle = Minus | PlusOrMinus | Parentheses

  /** `sep` groups the digits before the decimal sign by three (or is empty). */
  function Render(cents: int, sep: string, dec: char, style: SignStyle): string {
    var body := Body(Abs(cents), sep, dec);
    if cents < 0 then (if style == Parentheses then "(" + body + ")" else "-" + body)
    else if style == PlusOrMinus then "+" + body else body
  }

  predicate GroupingStyle(sep: string, dec: char) {
    dec in ".," && (sep in {"", ".", ",", "'", "\U{2019}", " ", "\U{a0}"}) && sep != [dec]
  }

  // ----- what grouping does -----

  lemma {:induction false} GroupChars(digits: string, sep: string)
    requires AllDigits(digits) && |sep| <= 1
    ensures forall i :: 0 <= i < |Group(digits, sep)| ==>
              IsDigit(Group(digits, sep)[i]) || [Group(digits, sep)[i]] == sep
    ensures digits != "" ==> Group(digits, sep) != "" && Group(digits, sep)[0] == digits[0]
    ensures sep == "" || |digits| <= 3 ==> Group(digits, sep) == digits
    ensures sep != "" && |digits| > 3 ==> sep[0] in Group(digits, sep)
  {
    if |digits| > 3 {
      var front, back := digits[..|digits| - 3], digits[|digits| - 3..];
      assert digits == front + back;
      GroupChars(front, sep);
      var g := Group(front, sep);
      assert Group(digits, sep) == g + sep + back;
      if sep != "" { assert (g + sep + back)[|g|] == sep[0]; }
    }
  }

  lemma {:induction false} DropIgnoredConcat(s: string, t: string)
    ensures DropIgnored(s + t) == DropIgnored(s) + DropIgnored(t)
  {
    if s == "" {
      assert s + t == t;
    } else {
      assert (s + t)[1..] == s[1..] + t;
      DropIgnoredConcat(s[1..], t);
    }
  }

  lemma {:induction false} NothingIgnored(s: string)
    requires forall i :: 0 <= i < |s| ==> !Ignored(s[i])
    ensures DropIgnored(s) == s
  {
    if s != "" {
      assert s == [s[0]] + s[1..];
      NothingIgnored(s[1..]);
    }
  }

  lemma NothingBetween(front: string, nothing: string, back: string)
    requires nothing == ""
    ensures front + nothing + back == front + back
  {
  }

  lemma JoinDropped(group: string, front: string, sep: string, back: string)
    requires DropIgnored(group) == front && |sep| == 1 && Ignored(sep[0]) && AllDigits(back)
    ensures DropIgnored(group + sep + back) == front + back
  {
    DropIgnoredConcat(group + sep, back);
    DropIgnoredConcat(group, sep);
    assert sep[1..] == "" && DropIgnored(sep) == "";
    NothingIgnored(back);
    NothingBetween(front, DropIgnored(sep), back);
  }

  lemma {:induction false} GroupDropped(digits: string, sep: string)
    requires AllDigits(digits) && |sep| == 1 && Ignored(sep[0])
    ensures DropIgnored(Group(digits, sep)) == digits
  {
    if |digits| > 3 {
      var front, back := digits[..|digits| - 3], digits[|digits| - 3..];
      GroupDropped(front, sep);
      JoinDropped(Group(front, sep), front, sep, back);
      assert digits == front + back;
    } else {
      NothingIgnored(digits);
    }
  }

  lemma ReplaceConcatThree(s: string, t: string, u: string, c: char)
    ensures ReplaceChar(s + t + u, c, "") == ReplaceChar(s, c, "") + ReplaceChar(t, c, "") + ReplaceChar(u, c, "")
  {
    ReplaceCharConcat(s + t, u, c, "");
    ReplaceCharConcat(s, t, c, "");
  }

  lemma ReplaceItself(c: char)
    ensures ReplaceChar([c], c, "") == ""
  {
    assert [c][1..] == "";
  }

  lemma JoinReplaced(group: string, front: string, back: string, th: char)
    requires ReplaceChar(group, th, "") == front && AllDigits(back) && !IsDigit(th)
    ensures ReplaceChar(group + [th] + back, th, "") == front + back
  {
    ReplaceConcatThree(group, [th], back, th);
    ReplaceItself(th);
    DigitsKept(back, th);
    NothingBetween(front, ReplaceChar([th], th, ""), back);
  }

  lemma {:induction false} GroupReplaced(digits: string, th: char)
    requires AllDigits(digits) && !IsDigit(th)
    ensures ReplaceChar(Group(digits, [th]), th, "") == digits
  {
    if |digits| > 3 {
      var front, back := digits[..|digits| - 3], digits[|digits| - 3..];
      GroupReplaced(front, th);
      JoinReplaced(Group(front, [th]), front, back, th);
      assert digits == front + back;
    } else {
      DigitsKept(digits, th);
    }
  }

  lemma {:induction false} DigitsKept(digits: string, th: char)
    requires AllDigits(digits) && !IsDigit(th)
    ensures ReplaceChar(digits, th, "") == digits
  {
    if digits != "" {
      assert digits == [digits[0]] + digits[1..];
      DigitsKept(digits[1..], th);
    }
  }

  lemma {:induction false} SplitDigits(digits: string, sep: char)
    requires AllDigits(digits) && !IsDigit(sep)
    ensures Split(digits, sep) == [digits]
  {
    if digits != "" {
      SplitDigits(digits[1..], sep);
      assert digits == [digits[0]] + digits[1..];
    }
  }

  lemma {:induction false} SplitOnce(front: string, back: string, sep: char)
    requires AllDigits(front) && AllDigits(back) && !IsDigit(sep)
    ensures Split(front + [sep] + back, sep) == [front, back]
  {
    var s := front + [sep] + back;
    if front == "" {
      assert s[0] == sep && s[1..] == back;
      SplitDigits(back, sep);
    } else {
      assert s[0] == front[0] && s[1..] == front[1..] + [sep] + back;
      SplitOnce(front[1..], back, sep);
      assert front == [front[0]] + front[1..];
    }
  }

  lemma NumberOfTwoDigits(n: nat)
    requires n < 100
    ensures Number(TwoDigits(n)) == n
  {
    var s := TwoDigits(n);
    assert s[..1] == [Digit(n / 10)] && s[..1][..0] == "";
    assert Number(s[..1]) == n / 10;
  }

  lemma MagnitudeBothSeparators(grouped: string, th: char, dec: char, ff: string, digits: string)
    requires (th == '.' && dec == ',') || (th == ',' && dec == '.')
    requires th in grouped && dec !in grouped && |ff| == 2 && AllDigits(ff) && AllDigits(digits)
    requires ReplaceChar(grouped, th, "") == digits
    ensures Magnitude(grouped + [dec] + ff) == WithDecimals(digits, ff)
  {
    var raw := grouped + [dec] + ff;
    DecimalSignFound(grouped, th, dec, ff);
    assert raw[|grouped| + 1..] == ff;
    assert raw[..|grouped|] == grouped;
  }

  lemma MagnitudeOneSeparator(th: char, dec: char, ff: string, digits: string)
    requires (th == '.' && dec == ',') || (th == ',' && dec == '.')
    requires IsNumeral(digits) && |ff| == 2 && AllDigits(ff)
    ensures Magnitude(digits + [dec] + ff) == WithDecimals(digits, ff)
  {
    var raw := digits + [dec] + ff;
    assert raw[|digits|] == dec;
    assert th !in raw;
    SplitOnce(digits, ff, dec);
    ParseTwoGroups(digits, ff);
  }

  /** Amount text in normal form: grouped digits, the decimal sign, two digits. */
  lemma MagnitudeOfBody(digits: string, ff: string, th: char, dec: char, grouped: string)
    requires IsNumeral(digits) && |ff| == 2 && AllDigits(ff)
    requires (th == '.' && dec == ',') || (th == ',' && dec == '.')
    requires grouped == digits || grouped == Group(digits, [th])
    ensures Magnitude(grouped + [dec] + ff) == WithDecimals(digits, ff)
  {
    if grouped == digits {
      MagnitudeOneSeparator(th, dec, ff, digits);
    } else {
      GroupChars(digits, [th]);
      GroupReplaced(digits, th);
      MagnitudeBothSeparators(grouped, th, dec, ff, digits);
    }
  }

  lemma ParseTwoGroups(digits: string, ff: string)
    requires IsNumeral(digits) && AllDigits(ff) && |ff| == 2
    ensures OneSeparator([digits, ff]) == WithDecimals(digits, ff)
  {
    assert [digits, ff][..1] == [digits] && [digits][1..] == [];
    assert Join([digits]) == digits by { assert digits + "" == digits; }
  }

  lemma DecimalSignFound(grouped: string, th: char, dec: char, ff: string)
    requires th != dec && !IsDigit(dec) && !IsDigit(th) && th in grouped && dec !in grouped && AllDigits(ff)
    ensures var raw := grouped + [dec] + ff;
            dec in raw && th in raw && LastIndex(raw, dec) == |grouped| && LastIndex(raw, th) < |grouped|
  {
    var raw := grouped + [dec] + ff;
    assert raw[|grouped|] == dec;
    assert forall j :: |grouped| < j < |raw| ==> raw[j] == ff[j - |grouped| - 1];
  }

  /** Grouped digits with the ignorable separators dropped. */
  function Kept(digits: string, sep: string): string
    requires |sep| <= 1
  {
    if sep != "" && Ignored(sep[0]) then digits else Group(digits, sep)
  }

  lemma BodyDropped(digits: string, sep: string, tail: string)
    requires AllDigits(digits) && |sep| <= 1 && (sep != "" ==> !IsDigit(sep[0]))
    requires forall i :: 0 <= i < |tail| ==> !Ignored(tail[i])
    ensures DropIgnored(Group(digits, sep) + tail) == Kept(digits, sep) + tail
  {
    GroupChars(digits, sep);
    NothingIgnored(tail);
    DropIgnoredConcat(Group(digits, sep), tail);
    if sep != "" && Ignored(sep[0]) {
      GroupDropped(digits, sep);
    } else {
      NothingIgnored(Group(digits, sep));
    }
  }

  /** The unsigned part of a rendering. */
  function Body(amount: nat, sep: string, dec: char): string {
    Group(Decimal(amount / 100), sep) + [dec] + TwoDigits(amount % 100)
  }

  function OtherSeparator(dec: char): char { if dec == '.' then ',' else '.' }

  lemma KeptForms(digits: string, sep: string, dec: char)
    requires AllDigits(digits) && GroupingStyle(sep, dec)
    ensures Kept(digits, sep) == digits || Kept(digits, sep) == Group(digits, [OtherSeparator(dec)])
  {
    if sep == "" {
      GroupChars(digits, sep);
    }
  }

  lemma AmountTextChars(kept: string, digits: string, th: char, dec: char, ff: string)
    requires IsNumeral(digits) && AllDigits(ff) && AmountChar(th) && AmountChar(dec)
    requires kept == digits || kept == Group(digits, [th])
    ensures var text := kept + [dec] + ff;
            text != "" && IsDigit(text[0]) && forall i :: 0 <= i < |text| ==> AmountChar(text[i])
  {
    GroupChars(digits, [th]);
  }

  lemma WithDecimalsOf(amount: nat)
    ensures WithDecimals(Decimal(amount / 100), TwoDigits(amount % 100)) == Some(amount)
  {
    NumberOfDecimal(amount / 100);
    NumberOfTwoDigits(amount % 100);
  }

  predicate DenotesAmount(kept: string, amount: nat) {
    && Magnitude(kept) == Some(amount)
    && kept != "" && IsDigit(kept[0]) && forall i :: 0 <= i < |kept| ==> AmountChar(kept[i])
  }

  lemma KeptParses(amount: nat, sep: string, dec: char)
    requires GroupingStyle(sep, dec)
    ensures DenotesAmount(Kept(Decimal(amount / 100), sep) + [dec] + TwoDigits(amount % 100), amount)
  {
    var digits, ff, th := Decimal(amount / 100), TwoDigits(amount % 100), OtherSeparator(dec);
    KeptForms(digits, sep, dec);
    var kept := Kept(digits, sep);
    WithDecimalsOf(amount);
    AmountTextChars(kept, digits, th, dec, ff);
    MagnitudeOfBody(digits, ff, th, dec, kept);
  }

  /** Once ignorable separators are dropped it is amount text that denotes the amount. */
  lemma BodyParses(amount: nat, sep: string, dec: char)
    requires GroupingStyle(sep, dec)
    ensures DenotesAmount(DropIgnored(Body(amount, sep, dec)), amount)
  {
    var digits, ff := Decimal(amount / 100), TwoDigits(amount % 100);
    var tail := [dec] + ff;
    BodyDropped(digits, sep, tail);
    assert Group(digits, sep) + [dec] + ff == Group(digits, sep) + tail;
    assert Kept(digits, sep) + [dec] + ff == Kept(digits, sep) + tail;
    KeptParses(amount, sep, dec);
  }

  lemma BodyEnds(amount: nat, sep: string, dec: char)
    requires GroupingStyle(sep, dec)
    ensures var body := Body(amount, sep, dec); |body| >= 4 && IsDigit(body[0]) && IsDigit(body[|body| - 1])
  {
    GroupChars(Decimal(amount / 100), sep);
  }

  lemma DroppedHead(c: char, rest: string)
    requires !Ignored(c)
    ensures DropIgnored([c] + rest) == [c] + DropIgnored(rest)
  {
    assert ([c] + rest)[1..] == rest;
  }

  lemma StripParensOf(body: string)
    requires |body| > 0 && body[0] !in "()" && body[|body| - 1] !in "()"
    ensures StripParens(body) == body
    ensures StripParens("(" + body + ")") == body
  {
    var s := "(" + body + ")";
    assert s[1..] == body + ")";
    assert (body + ")")[..|body|] == body;
  }

  lemma ParseUnsigned(kept: string, parenthesised: bool)
    requires kept != "" && IsDigit(kept[0]) && forall i :: 0 <= i < |kept| ==> AmountChar(kept[i])
    ensures ParseBare(parenthesised, kept) == InRange(parenthesised, Magnitude(kept))
  {
  }

  lemma ParseSigned(sign: char, kept: string)
    requires sign in "+-" && kept != "" && forall i :: 0 <= i < |kept| ==> AmountChar(kept[i])
    ensures ParseBare(false, [sign] + kept) == InRange(sign == '-', Magnitude(kept))
  {
    assert ([sign] + kept)[1..] == kept;
  }

  predicate BareBody(body: string, amount: nat) {
    |body| > 0 && IsDigit(body[0]) && IsDigit(body[|body| - 1]) && DenotesAmount(DropIgnored(body), amount)
  }

  lemma TrimmedParses(text: string)
    requires text != "" && !IsSpace(text[0]) && !IsSpace(text[|text| - 1])
    requires text[0] == '(' <==> text[|text| - 1] == ')'
    ensures AmountToCents(text) == ParseBare(text[0] == '(', DropIgnored(StripParens(text)))
  {
    StripKeeps(text);
  }

  lemma UnsignedParses(body: string, amount: nat)
    requires BareBody(body, amount)
    ensures AmountToCents(body) == InRange(false, Some(amount))
  {
    TrimmedParses(body);
    StripParensOf(body);
    ParseUnsigned(DropIgnored(body), false);
  }

  lemma ParenthesisedParses(body: string, amount: nat)
    requires BareBody(body, amount)
    ensures AmountToCents("(" + body + ")") == InRange(true, Some(amount))
  {
    TrimmedParses("(" + body + ")");
    StripParensOf(body);
    ParseUnsigned(DropIgnored(body), true);
  }

  lemma SignedTextTrims(sign: char, body: string)
    requires (sign == '+' || sign == '-') && |body| > 0 && IsDigit(body[0]) && IsDigit(body[|body| - 1])
    ensures AmountToCents([sign] + body) == ParseBare(false, [sign] + DropIgnored(body))
  {
    var text := [sign] + body;
    assert text[|text| - 1] == body[|body| - 1];
    TrimmedParses(text);
    StripParensOf(text);
    DroppedHead(sign, body);
  }

  lemma LeadingSignParses(sign: char, body: string, amount: nat)
    requires (sign == '+' || sign == '-') && BareBody(body, amount)
    ensures AmountToCents([sign] + body) == InRange(sign == '-', Some(amount))
  {
    SignedTextTrims(sign, body);
    ParseSigned(sign, DropIgnored(body));
  }

  /** Every rendering of a cent amount of at most 28 digits, in any grouping style and with any way of
      showing the sign, is read back as that amount; larger amounts overflow. */
  lemma RenderingRoundTrip(cents: int, sep: string, dec: char, style: SignStyle)
    requires GroupingStyle(sep, dec)
    ensures AmountToCents(Render(cents, sep, dec, style)) == if Abs(cents) < LIMIT then Cents(cents) else Overflow
  {
    var body := Body(Abs(cents), sep, dec);
    BodyParses(Abs(cents), sep, dec);
    BodyEnds(Abs(cents), sep, dec);
    if cents < 0 && style == Parentheses {
      ParenthesisedParses(body, Abs(cents));
    } else if cents < 0 || style == PlusOrMinus {
      LeadingSignParses(if cents < 0 then '-' else '+', body, Abs(cents));
    } else {
      UnsignedParses(body, Abs(cents));
    }
  }

  /** The preview's printer is undone for exactly the amounts of at most 28 digits. */
  lemma AmountFromCentsRoundTrip(cents: int)
    ensures AmountToCents(AmountFromCents(cents)) == if Abs(cents) < LIMIT then Cents(cents) else Overflow
  {
    GroupChars(Decimal(Abs(cents) / 100), "");
    RenderingRoundTrip(cents, "", '.', Minus);
    assert Render(cents, "", '.', Minus) == AmountFromCents(cents);
  }

  lemma {:induction false} Round28Large(n: nat, unit: nat)
    requires unit > 0 && n / unit >= LIMIT
    ensures Round28(n, unit) >= LIMIT
    decreases n / unit
  {
    SmallerQuotient(n, unit);
    var up := 10 * unit;
    if n / up >= LIMIT {
      Round28Large(n, up);
    } else {
      assert n >= unit * LIMIT by { MulMonotone(LIMIT, n / unit, unit); }
      TenfoldQuotient(n, unit);
      assert up * (n / up) >= up * (LIMIT / 10) by { MulMonotone(LIMIT / 10, n / up, up); }
    }
  }

  lemma TenfoldQuotient(n: nat, unit: nat)
    requires unit > 0 && n >= unit * LIMIT
    ensures n / (10 * unit) >= LIMIT / 10
  {
    var up := 10 * unit;
    var q := n / up;
    assert n < (q + 1) * up;
    assert (LIMIT / 10) * up == unit * LIMIT;
    if q < LIMIT / 10 {
      MulMonotone(q + 1, LIMIT / 10, up);
    }
  }

  /** Up to 28 digits the division is exact, and a larger amount stays that large. */
  lemma RoundingKeepsTheSide(n: nat)
    ensures n < LIMIT ==> Round28(n, 1) == n
    ensures n >= LIMIT ==> Round28(n, 1) >= LIMIT
  {
    if n >= LIMIT {
      Round28Large(n, 1);
    }
  }

  /** The extractor's own printer is undone for exactly the amounts of at most 28 digits: above that it
      prints a rounded amount, which the parser refuses. */
  lemma FormatAmountRoundTrip(cents: int)
    ensures AmountToCents(FormatAmount(cents)) == Cents(cents) <==> Abs(cents) < LIMIT
    ensures Abs(cents) < LIMIT ==> FormatAmount(cents) == AmountFromCents(cents)
  {
    RoundingKeepsTheSide(Abs(cents));
    AmountFromCentsRoundTrip(Signed(cents < 0, Round28(Abs(cents), 1)));
  }
}
