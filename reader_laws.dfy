/** The reader's own rules: the tokens `getToken` can produce, the shape of
    number tokens, keywords in any letter case, the escapes, the `\u`
    quirk, binary headers and the syntax errors of `getValue`. */
module ReaderLaws {
  import opened Values
  import opened IMuErrors
  import opened MixedInput
  import opened WireFormat

  // ---------------------------------------------------------------------
  // Tokens

  /** The tokens the reader produces: the kind of a string, number, word or
      binary block, or a single other character. */
  predicate IsToken(t: string)
  {
    t in {"string", "number", "true", "false", "null", "identifier", "binary"} || |t| == 1
  }

  lemma BinaryDataToken(data: seq<byte>, c: Cursor, text: string, size: int)
    requires c.pos <= |data| && BinaryData(data, c, text, size).Ok?
    ensures BinaryData(data, c, text, size).value.token == "binary"
  {
  }

  lemma BinaryTokenKind(data: seq<byte>, c: Cursor)
    requires c.pos <= |data| && BinaryToken(data, c).Ok?
    ensures BinaryToken(data, c).value.token == "binary"
  {
    var c1 := NextChar(data, c.pos).value;
    var d := LexDigits(data, c1, "").value;
    BinaryDataToken(data, d.cur, d.text, LongOf(d.text).value);
  }

  /** Every token read is one of those; in particular "end", which
      `getValue` would take as null, is never produced. */
  lemma TokenKinds(data: seq<byte>, c: Cursor)
    requires c.pos <= |data| && GetToken(data, c).Ok?
    ensures IsToken(GetToken(data, c).value.token)
    ensures GetToken(data, c).value.token != "end"
  {
    var c1 := SkipSpace(data, c).value;
    if c1.next == '*' {
      BinaryTokenKind(data, c1);
    }
  }

  // ---------------------------------------------------------------------
  // Number tokens

  /** The digit loop adds only digits to what it has collected. */
  lemma {:induction false} DigitsExtend(data: seq<byte>, c: Cursor, acc: string)
    requires c.pos <= |data| && LexDigits(data, c, acc).Ok?
    ensures var t := LexDigits(data, c, acc).value.text; |acc| <= |t| && t[..|acc|] == acc && AllDigits(t[|acc|..])
    decreases |data| - c.pos
  {
    if IsDigit(c.next) {
      var c1 := NextChar(data, c.pos).value;
      DigitsExtend(data, c1, acc + [c.next]);
      var t := LexDigits(data, c, acc).value.text;
      assert t == LexDigits(data, c1, acc + [c.next]).value.text;
      assert t[..|acc|] == (t[..|acc| + 1])[..|acc|];
      assert AllDigits(t[|acc|..]) by {
        forall i | 0 <= i < |t[|acc|..]| ensures IsDigit(t[|acc|..][i]) {
          if i > 0 { assert t[|acc|..][i] == t[|acc| + 1..][i - 1]; }
        }
      }
    } else {
      assert LexDigits(data, c, acc).value.text == acc;
    }
  }

  /** The characters a number token can hold. */
  predicate NumberChar(x: char)
  {
    IsDigit(x) || x == '-' || x == '+' || x == '.' || x == 'e'
  }

  predicate NumberChars(t: string)
  {
    forall i :: 0 <= i < |t| ==> NumberChar(t[i])
  }

  lemma DigitsKeepShape(data: seq<byte>, c: Cursor, acc: string)
    requires c.pos <= |data| && LexDigits(data, c, acc).Ok? && NumberChars(acc)
    ensures var t := LexDigits(data, c, acc).value.text;
      && NumberChars(t) && |acc| <= |t| && t[..|acc|] == acc
      && ('e' in t <==> 'e' in acc) && ('.' in t <==> '.' in acc)
  {
    DigitsExtend(data, c, acc);
    var t := LexDigits(data, c, acc).value.text;
    assert t == acc + t[|acc|..];
    var ds := t[|acc|..];
    assert forall i :: 0 <= i < |t| ==> NumberChar(t[i]) by {
      forall i | 0 <= i < |t| ensures NumberChar(t[i]) {
        if i >= |acc| { assert t[i] == ds[i - |acc|]; }
      }
    }
    assert 'e' !in ds && '.' !in ds by {
      forall i | 0 <= i < |ds| ensures ds[i] != 'e' && ds[i] != '.' { assert IsDigit(ds[i]); }
    }
  }

  /** A number token starts with its lead character, holds digits, '-',
      '+', '.' and 'e' only (so an 'E' was written as 'e'), and has a '.'
      whenever it has an exponent. */
  lemma NumberTextShape(data: seq<byte>, c: Cursor)
    requires c.pos <= |data| && (IsDigit(c.next) || c.next == '-') && LexNumber(data, c).Ok?
    ensures var t := LexNumber(data, c).value.text;
      && |t| >= 1 && t[0] == c.next && NumberChars(t) && 'E' !in t
      && ('e' in t ==> '.' in t)
  {
    var c1 := NextChar(data, c.pos).value;
    DigitsKeepShape(data, c1, [c.next]);
    var d1 := LexDigits(data, c1, [c.next]).value;
    assert 'e' !in d1.text;
    var d2 := LexFraction(data, d1).value;
    FractionShape(data, d1);
    ExponentShape(data, d2);
  }

  lemma FractionShape(data: seq<byte>, d: Lexed)
    requires d.cur.pos <= |data| && LexFraction(data, d).Ok? && NumberChars(d.text) && |d.text| >= 1 && 'e' !in d.text
    ensures var t := LexFraction(data, d).value.text;
      NumberChars(t) && |t| >= 1 && t[0] == d.text[0] && 'e' !in t
  {
    if d.cur.next == '.' {
      var c1 := NextChar(data, d.cur.pos).value;
      assert NumberChars(d.text + ".");
      assert 'e' !in d.text + ".";
      DigitsKeepShape(data, c1, d.text + ".");
    }
  }

  lemma ExponentShape(data: seq<byte>, d: Lexed)
    requires d.cur.pos <= |data| && LexExponent(data, d).Ok? && NumberChars(d.text) && |d.text| >= 1 && 'e' !in d.text
    ensures var t := LexExponent(data, d).value.text;
      NumberChars(t) && |t| >= 1 && t[0] == d.text[0] && 'E' !in t && ('e' in t ==> '.' in t)
  {
    if d.cur.next == 'e' || d.cur.next == 'E' {
      var t := (if '.' in d.text then d.text else d.text + ".") + "e";
      assert '.' in t && NumberChars(t) && t[0] == d.text[0];
      ExponentDigits(data, d, t);
    } else {
      assert LexExponent(data, d).value.text == d.text;
    }
  }

  /** After the 'e': an optional sign, then the digits. */
  lemma ExponentDigits(data: seq<byte>, d: Lexed, t: string)
    requires d.cur.pos <= |data| && LexExponent(data, d).Ok? && (d.cur.next == 'e' || d.cur.next == 'E')
    requires t == (if '.' in d.text then d.text else d.text + ".") + "e"
    requires '.' in t && NumberChars(t) && |t| >= 1
    ensures var u := LexExponent(data, d).value.text;
      NumberChars(u) && |u| >= 1 && u[0] == t[0] && '.' in u
  {
    var c1 := NextChar(data, d.cur.pos).value;
    if c1.next == '+' || c1.next == '-' {
      var c2 := NextChar(data, c1.pos).value;
      assert NumberChars(t + [c1.next]) && '.' in t + [c1.next];
      DigitsKeepShape(data, c2, t + [c1.next]);
    } else {
      DigitsKeepShape(data, c1, t);
    }
  }

  /** A number token's value is a Double when the text has a '.' and a
      Long otherwise; a whole number outside the 64-bit range fails as
      `Long.parseLong` does. */
  lemma NumberKinds(t: string)
    requires '.' !in t
    ensures NumberValue(t) == (match ParseLong(t) case Some(n) => Ok(Long(n)) case None => Err(NumberFormat(t)))
  {
  }

  // ---------------------------------------------------------------------
  // Keywords and syntax errors

  lemma {:induction false} LowerTwice(w: string)
    ensures LowerAll(LowerAll(w)) == LowerAll(w)
  {
    var l := LowerAll(w);
    assert forall i :: 0 <= i < |l| ==> Lower(l[i]) == l[i];
  }

  /** `true`, `false` and `null` are read in any letter case; every other
      word is an identifier. */
  lemma KeywordsIgnoreCase(w: string)
    ensures WordToken(w) == WordToken(LowerAll(w))
  {
    LowerTwice(w);
  }

  lemma KeywordExamples()
    ensures WordToken("TRUE") == "true" && WordToken("Null") == "null"
    ensures WordToken("truth") == "identifier"
  {
    assert LowerAll("TRUE") == "true" by {
      assert LowerAll("TRUE")[0] == 't' && LowerAll("TRUE")[1] == 'r';
      assert LowerAll("TRUE")[2] == 'u' && LowerAll("TRUE")[3] == 'e';
    }
    assert LowerAll("Null") == "null" by {
      assert LowerAll("Null")[0] == 'n';
    }
    assert LowerAll("truth") == "truth";
  }

  /** An identifier may name a map entry but is not a value. */
  lemma IdentifierNotAValue(data: seq<byte>, s: Scan)
    requires s.cur.pos <= |data| && s.token == "identifier"
    ensures ParseValue(data, s) == Err(StreamError("StreamSyntaxToken", [Str("identifier")]))
  {
  }

  /** Any token that is none of the value tokens is a syntax error. */
  lemma UnknownToken(data: seq<byte>, s: Scan)
    requires s.cur.pos <= |data|
    requires s.token !in {"end", "string", "number", "{", "[", "true", "false", "null", "binary"}
    ensures ParseValue(data, s) == Err(StreamError("StreamSyntaxToken", [Str(s.token)]))
  {
  }

  /** An entry name must be a string or an identifier. */
  lemma EntryNameError(data: seq<byte>, s: Scan, acc: seq<Entry>)
    requires s.cur.pos <= |data| && s.token !in {"}", "string", "identifier"}
    ensures ParseEntries(data, s, acc) == Err(StreamError("StreamSyntaxName", [Str(s.token)]))
  {
  }

  /** The name must be followed by ':'. */
  lemma EntryColonError(data: seq<byte>, s: Scan, acc: seq<Entry>, s1: Scan)
    requires s.cur.pos <= |data| && (s.token == "string" || s.token == "identifier")
    requires GetToken(data, s.cur) == Ok(s1) && s1.token != ":"
    ensures ParseEntries(data, s, acc) == Err(StreamError("StreamSyntaxColon", [Str(s1.token)]))
  {
  }

  /** Both a ',' and no ',' between elements are accepted. */
  lemma CommaOptional(data: seq<byte>, s: Scan, s1: Scan)
    requires s.cur.pos <= |data|
    ensures s.token != "," ==> SkipComma(data, s) == Ok(s)
    ensures s.token == "," && GetToken(data, s.cur) == Ok(s1) ==> SkipComma(data, s) == Ok(s1)
  {
  }

  // ---------------------------------------------------------------------
  // Escapes

  /** After a backslash, b, f, n, r and t stand for their control
      characters and any other character except u for itself. */
  lemma UnescapeRules(data: seq<byte>, p: nat, c1: Cursor)
    requires p <= |data| && NextChar(data, p) == Ok(c1)
    ensures c1.next == 'n' ==> Unescape(data, Cursor(p, '\\')) == Ok(Cursor(c1.pos, '\n'))
    ensures c1.next == 't' ==> Unescape(data, Cursor(p, '\\')) == Ok(Cursor(c1.pos, '\t'))
    ensures c1.next == 'r' ==> Unescape(data, Cursor(p, '\\')) == Ok(Cursor(c1.pos, '\r'))
    ensures c1.next == 'b' ==> Unescape(data, Cursor(p, '\\')) == Ok(Cursor(c1.pos, '\U{8}'))
    ensures c1.next == 'f' ==> Unescape(data, Cursor(p, '\\')) == Ok(Cursor(c1.pos, '\U{C}'))
    ensures c1.next !in "bfnrtu" ==> Unescape(data, Cursor(p, '\\')) == Ok(c1)
  {
  }

  /** Reading an ASCII byte. */
  lemma AsciiNext(data: seq<byte>, p: nat)
    requires p < |data| && data[p] < 0x80
    ensures NextChar(data, p) == Ok(Cursor(p + 1, data[p] as int as char))
  {
    assert DecodeChar(data, p) == Continue(data, p + 1, data[p] as int, 0);
  }

  /** A `\u` escape: one to four hex digits, lower-cased, make the
      character; no digit at all is StreamSyntaxUnicode. The reader then
      stands where the digits stopped, and its lookahead there is replaced
      by the decoded character. */
  lemma UnicodeRules(data: seq<byte>, p: nat, c1: Cursor, c2: Cursor, h: Lexed)
    requires p <= |data| && NextChar(data, p) == Ok(c1) && c1.next == 'u'
    requires NextChar(data, c1.pos) == Ok(c2) && LexHex(data, c2, "", 0) == Ok(h)
    ensures |h.text| == 0 <==> !(IsDigit(c2.next) || (IsLetter(c2.next) && Lower(c2.next) <= 'f'))
    ensures |h.text| <= 4 && HexValue(h.text) < 0x10000
    ensures |h.text| == 0 ==> Unescape(data, Cursor(p, '\\')) == Err(StreamError("StreamSyntaxUnicode", []))
    ensures |h.text| > 0 && !(0xD800 <= HexValue(h.text) < 0xE000) ==>
      Unescape(data, Cursor(p, '\\')) == Ok(Cursor(h.cur.pos, HexValue(h.text) as char))
  {
    LexHexGrows(data, c2, "", 0);
    PowBound(|h.text|);
  }

  /** The hex loop never drops a digit it has collected. */
  lemma {:induction false} LexHexGrows(data: seq<byte>, c: Cursor, acc: string, i: nat)
    requires c.pos <= |data| && i <= 4 && |acc| == i
    requires forall k :: 0 <= k < |acc| ==> IsHexDigit(acc[k])
    ensures LexHex(data, c, acc, i).Ok? ==> |acc| <= |LexHex(data, c, acc, i).value.text|
    ensures i < 4 && (IsDigit(c.next) || (IsLetter(c.next) && Lower(c.next) <= 'f')) && LexHex(data, c, acc, i).Ok? ==>
      |acc| < |LexHex(data, c, acc, i).value.text|
    decreases 4 - i
  {
    if i < 4 && (IsDigit(c.next) || (IsLetter(c.next) && Lower(c.next) <= 'f')) {
      match NextChar(data, c.pos)
      case Err(_) =>
      case Ok(c1) => LexHexGrows(data, c1, acc + [Lower(c.next)], i + 1);
    }
  }

  /** `\u` with no hex digit after it is an error, whatever follows. */
  lemma UnicodeNeedsDigit(data: seq<byte>, p: nat, c1: Cursor, c2: Cursor)
    requires p <= |data| && NextChar(data, p) == Ok(c1) && c1.next == 'u'
    requires NextChar(data, c1.pos) == Ok(c2)
    requires !(IsDigit(c2.next) || (IsLetter(c2.next) && Lower(c2.next) <= 'f'))
    ensures Unescape(data, Cursor(p, '\\')) == Err(StreamError("StreamSyntaxUnicode", []))
  {
    UnicodeRules(data, p, c1, c2, Lexed(c2, ""));
  }

  /** Inside a string the lookahead after a `\u` escape is lost: the decoded
      character is appended and lexing goes on from the character after
      that lookahead. After four digits the lookahead is the fifth
      character, so even a closing quote there is swallowed. */
  lemma UnicodeDropsNext(data: seq<byte>, p: nat, acc: string, c1: Cursor, c2: Cursor, h: Lexed, c3: Cursor)
    requires p <= |data| && NextChar(data, p) == Ok(c1) && c1.next == 'u'
    requires NextChar(data, c1.pos) == Ok(c2) && LexHex(data, c2, "", 0) == Ok(h)
    requires |h.text| > 0 && !(0xD800 <= HexValue(h.text) < 0xE000)
    requires NextChar(data, h.cur.pos) == Ok(c3)
    ensures LexString(data, Cursor(p, '\\'), acc) == LexString(data, c3, acc + [HexValue(h.text) as char])
  {
    UnicodeRules(data, p, c1, c2, h);
  }

  /** `"\u41x"`: the hex digits 4 and 1 make 'A', and the 'x' after them,
      already read as the lookahead, is lost from the string. */
  lemma UnicodeExample()
    ensures LexString([0x75, 0x34, 0x31, 0x78, 0x22], Cursor(0, '\\'), "") == Ok(Lexed(Cursor(5, '"'), "A"))
  {
    var data: seq<byte> := [0x75, 0x34, 0x31, 0x78, 0x22];
    UnicodeEscape();
    AsciiNext(data, 4);
    assert "" + ['A'] == "A";
    assert LexString(data, Cursor(5, '"'), "A") == Ok(Lexed(Cursor(5, '"'), "A"));
  }

  /** The escape itself ends with the reader on the 'x' and 'A' to append. */
  lemma UnicodeEscape()
    ensures Unescape([0x75, 0x34, 0x31, 0x78, 0x22], Cursor(0, '\\')) == Ok(Cursor(4, 'A'))
  {
    var data: seq<byte> := [0x75, 0x34, 0x31, 0x78, 0x22];
    AsciiNext(data, 0);
    AsciiNext(data, 1);
    AsciiNext(data, 2);
    AsciiNext(data, 3);
    assert LexHex(data, Cursor(4, 'x'), "41", 2) == Ok(Lexed(Cursor(4, 'x'), "41"));
    assert "4" + [Lower('1')] == "41";
    assert LexHex(data, Cursor(3, '1'), "4", 1) == Ok(Lexed(Cursor(4, 'x'), "41"));
    assert "" + [Lower('4')] == "4";
    assert LexHex(data, Cursor(2, '4'), "", 0) == Ok(Lexed(Cursor(4, 'x'), "41"));
    assert HexValue("41") == 0x41;
  }

  // ---------------------------------------------------------------------
  // Binary headers

  /** A '*' not followed by a digit is an error. */
  lemma BinaryNeedsDigit(data: seq<byte>, c: Cursor, c1: Cursor)
    requires c.pos <= |data| && NextChar(data, c.pos) == Ok(c1) && !IsDigit(c1.next)
    ensures BinaryToken(data, c) == Err(StreamError("StreamSyntaxBinary", []))
  {
    assert LexDigits(data, c1, "") == Ok(Lexed(c1, ""));
  }

  /** A block whose bytes run past the end of the input fails. */
  lemma BinaryTooShort(data: seq<byte>, c: Cursor, text: string, size: int, c2: Cursor)
    requires c.pos <= |data| && SkipLine(data, c) == Ok(c2) && size > 0 && c2.pos + size > |data|
    ensures BinaryData(data, c, text, size) == Err(StreamError("StreamEOF", [Str("binary")]))
  {
  }
}
