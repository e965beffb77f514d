/** How mailbox names are put together from characters and tokens (section 5.1.3 of RFC 3501), as laws that
    determine the printer and the parser. */
module Utf7Names {
  import opened Common
  import opened ModifiedUtf7
  import opened Utf7Tokens

  /** Printable ASCII but for the ampersand. */
  predicate Plain(c: char) { 0x20 <= c as int <= 0x7e && c as int != 0x26 }

  // ----- the printer -----

  lemma {:induction false} CutsAtPlain(a: string, c: char, b: string, buffer: string)
    requires Plain(c)
    ensures EncodeFrom(a + [c] + b, buffer) == EncodeFrom(a, buffer) + [c] + EncodeFrom(b, "")
  {
    var s := a + [c] + b;
    if a == "" {
      assert s[0] == c && s[1..] == b;
    } else {
      assert s[0] == a[0] && s[1..] == a[1..] + [c] + b;
      if Direct(a[0]) || a[0] == '&' {
        CutsAtPlain(a[1..], c, b, "");
      } else {
        CutsAtPlain(a[1..], c, b, buffer + [a[0]]);
      }
    }
  }

  lemma {:induction false} CutsAtAmpersand(a: string, b: string, buffer: string)
    ensures EncodeFrom(a + "&" + b, buffer) == EncodeFrom(a, buffer) + "&-" + EncodeFrom(b, "")
  {
    var s := a + "&" + b;
    if a == "" {
      assert s[0] == '&' && s[1..] == b;
    } else {
      assert s[0] == a[0] && s[1..] == a[1..] + "&" + b;
      if Direct(a[0]) || a[0] == '&' {
        CutsAtAmpersand(a[1..], b, "");
      } else {
        CutsAtAmpersand(a[1..], b, buffer + [a[0]]);
      }
    }
  }

  lemma {:induction false} WaitsForOthers(a: string, buffer: string)
    requires forall c | c in a :: !Plain(c) && c != '&'
    ensures EncodeFrom(a, buffer) == Flush(buffer + a)
  {
    if a == "" {
      assert buffer + a == buffer;
    } else {
      assert a[0] in a && buffer + a == buffer + [a[0]] + a[1..];
      WaitsForOthers(a[1..], buffer + [a[0]]);
    }
  }

  /** A plain character stands for itself, the ampersand is "&-", and each longest stretch of others is one
      token between "&" and "-". */
  lemma PrinterLaws(a: string, c: char, b: string)
    ensures Plain(c) ==> Encode(a + [c] + b) == Encode(a) + [c] + Encode(b)
    ensures Encode(a + "&" + b) == Encode(a) + "&-" + Encode(b)
    ensures a != "" && (forall x | x in a :: !Plain(x) && x != '&') ==> Encode(a) == "&" + EncodeToken(a) + "-"
    ensures Encode("") == ""
  {
    if Plain(c) { CutsAtPlain(a, c, b, ""); }
    CutsAtAmpersand(a, b, "");
    if a != "" && forall x | x in a :: !Plain(x) && x != '&' {
      WaitsForOthers(a, "");
      assert "" + a == a;
    }
  }

  // ----- the parser -----

  lemma TokenEnds(token: string, rest: string)
    requires '-' !in token
    ensures Find("&" + token + "-" + rest, '-') == |token| + 1
  {
    var s := "&" + token + "-" + rest;
    assert s[|token| + 1] == '-';
    forall j | 0 <= j < |token| + 1 ensures s[j] != '-' {
      if j > 0 { assert s[j] == token[j - 1]; }
    }
  }

  lemma TokenPiece(token: string, rest: string)
    requires token != "" && '-' !in token
    ensures NextPiece("&" + token + "-" + rest) == Piece(DecodeToken(token), |token| + 2)
  {
    TokenEnds(token, rest);
    assert ("&" + token + "-" + rest)[1..|token| + 1] == token;
  }

  lemma ReadsToken(token: string, rest: string)
    requires token != "" && '-' !in token
    ensures Decode("&" + token + "-" + rest)
            == if DecodeToken(token).Some? then Then(DecodeToken(token).value, Decode(rest)) else Err(InvalidName)
  {
    TokenPiece(token, rest);
    assert ("&" + token + "-" + rest)[|token| + 2..] == rest;
  }

  /** Text up to an ampersand stands for itself, "&-" is the ampersand, a token is what it stands for, and an
      ampersand without an end is read as it stands. */
  lemma ParserLaws(text: string, token: string, rest: string)
    ensures '&' !in text ==> Decode(text + rest) == Then(text, Decode(rest))
    ensures Decode("&-" + rest) == Then("&", Decode(rest))
    ensures token != "" && '-' !in token ==>
              Decode("&" + token + "-" + rest)
              == if DecodeToken(token).Some? then Then(DecodeToken(token).value, Decode(rest)) else Err(InvalidName)
    ensures '-' !in text ==> Decode("&" + text) == Ok("&" + text)
    ensures Decode("") == Ok("")
  {
    if '&' !in text { DecodeLiteralPrefix(text, rest); }
    DecodeEscapedAmpersand(rest);
    if token != "" && '-' !in token { ReadsToken(token, rest); }
    if '-' !in text { UnterminatedDecoded("&" + text); }
  }

  // ----- an example -----

  /** The letter with two dots that the name of a drafts folder has. */
  const UMLAUT := "\U{fc}"

  lemma UmlautToken()
    ensures EncodeToken(UMLAUT) == "APw"
  {
    assert UMLAUT[1..] == "" && Utf16Encode(UMLAUT) == [0, 252];
    assert Base64Encode([0, 252]) == "APw=";
    assert StripPads("APw=") == "APw" by { assert "APw="[..3] == "APw"; }
    CommasFor("APw");
  }

  predicate AllPlain(s: string) { forall c | c in s :: Plain(c) }

  /** A token between two stretches of plain characters. */
  lemma TokenInside(front: string, last: char, a: string, first: char, back: string)
    requires AllPlain(front) && Plain(last) && Plain(first) && AllPlain(back)
    requires a != "" && forall c | c in a :: !Plain(c) && c != '&'
    ensures Encode(front + [last] + (a + [first] + back))
            == front + [last] + ("&" + EncodeToken(a) + "-" + [first] + back)
  {
    PrinterLaws(front, last, a + [first] + back);
    PrinterLaws(a, first, back);
    PlainStretch(front);
    PlainStretch(back);
  }

  /** The folder of drafts goes over the wire as servers write it, in both directions. */
  lemma Drafts(name: string, wire: string)
    requires name == "Entw" + UMLAUT + "rfe" && wire == "Entw&APw-rfe"
    ensures Encode(name) == wire && Decode(wire) == Ok(name)
  {
    UmlautToken();
    TokenInside("Ent", 'w', UMLAUT, 'r', "fe");
    assert name == "Ent" + ['w'] + (UMLAUT + ['r'] + "fe");
    assert wire == "Ent" + ['w'] + ("&" + "APw" + "-" + ['r'] + "fe");
    DecodeEncode(name);
  }

  lemma {:induction false} PlainStretch(s: string)
    requires AllPlain(s)
    ensures Encode(s) == s
  {
    if s != "" {
      PlainStretch(s[1..]);
      PrinterLaws("", s[0], s[1..]);
      assert s == "" + [s[0]] + s[1..];
    }
  }

  // ----- what else a server may send -----

  /** A name without quotes is taken as it stands. */
  lemma UnquotedIsRecognised(name: string)
    requires var e := Encode(name); e != "" && Strip(e) == e && (e[0] != '"' || e[|e| - 1] != '"')
    ensures ParseListToken(Encode(name)) == Ok((name, Encode(name)))
  {
    DecodeEncode(name);
  }

  /** Two quotes are the empty name, and so is one alone. */
  lemma QuotesAlone()
    ensures ParseListToken("\"\"") == ParseListToken("\"") == Ok(("", ""))
  {
    StripKeeps("\"\"");
    StripKeeps("\"");
    assert "\"\""[1..1] == "";
  }

  /** A token with a character outside ASCII is no token. */
  lemma OnlyAscii(token: string, i: nat)
    requires i < |token| && token[i] as int >= 128
    ensures DecodeToken(token) == None
  {
    CharIsKept(token, i);
    var commas := ReplaceChar(token, ',', "/");
    var j :| 0 <= j < |commas| && commas[j] == token[i];
    assert (commas + Pads(|token|))[j] == token[i];
  }

  lemma {:induction false} CharIsKept(token: string, i: nat)
    requires i < |token| && token[i] != ','
    ensures token[i] in ReplaceChar(token, ',', "/")
  {
    if i > 0 { CharIsKept(token[1..], i - 1); }
  }

  predicate Ignored(c: char) { SextetOf(c).None? && c != '=' }

  /** Between the digits of a token any other ASCII character is passed over. */
  lemma {:induction false} OthersArePassedOver(a: string, c: char, b: string, quad: nat, left: nat, pads: nat)
    requires quad < 4 && (quad == 1 ==> left < 64) && (quad == 2 ==> left < 16) && (quad == 3 ==> left < 4)
    requires Ignored(c)
    ensures Base64Scan(a + [c] + b, quad, left, pads) == Base64Scan(a + b, quad, left, pads)
  {
    if a == "" {
      assert (a + [c] + b)[1..] == b && a + b == b;
    } else {
      var s, t := a + [c] + b, a + b;
      assert s[0] == t[0] == a[0] && s[1..] == a[1..] + [c] + b && t[1..] == a[1..] + b;
      if a[0] == '=' {
        OthersArePassedOver(a[1..], c, b, quad, left, if quad >= 2 then pads + 1 else pads);
      } else {
        match SextetOf(a[0])
        case None => OthersArePassedOver(a[1..], c, b, quad, left, pads);
        case Some(v) =>
          if quad == 0 { OthersArePassedOver(a[1..], c, b, 1, v, 0); }
          else if quad == 1 { OthersArePassedOver(a[1..], c, b, 2, v % 16, 0); }
          else if quad == 2 { OthersArePassedOver(a[1..], c, b, 3, v % 4, 0); }
          else { OthersArePassedOver(a[1..], c, b, 0, 0, 0); }
      }
    }
  }
}
