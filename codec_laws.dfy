/** What the text format promises: what `put` writes, `get` reads back, and
    the reader's own rules (number tokens, keywords, escapes, binary blocks).
    The output is taken to reach the peer in the coding MixedInputStream
    reads: characters below 0x10000 in their standard UTF-8 form, the bytes
    of a block as they are. */
module CodecLaws {
  import opened Values
  import opened IMuErrors
  import opened MixedInput
  import opened WireFormat

  /** A character the mixed coding carries in a single code unit. */
  predicate Bmp(c: char)
  {
    c as int < 0x10000
  }

  predicate AllBmp(s: string)
  {
    forall i :: 0 <= i < |s| ==> Bmp(s[i])
  }

  /** The bytes one output item becomes. A character beyond 0xFFFF (two
      UTF-16 units in Java) has no coding here; the laws below exclude it. */
  function Unit(x: OutItem): seq<byte>
  {
    match x
    case Text(c) => if Bmp(c) then EncodeChar(c) else []
    case Raw(b) => [b]
  }

  /** The bytes the output becomes on the connection. */
  function Encoded(items: seq<OutItem>): (bs: seq<byte>)
  {
    if items == [] then [] else Unit(items[0]) + Encoded(items[1..])
  }

  lemma {:induction false} EncodedAppend(a: seq<OutItem>, b: seq<OutItem>)
    ensures Encoded(a + b) == Encoded(a) + Encoded(b)
    decreases |a|
  {
    if a != [] {
      assert (a + b)[0] == a[0];
      assert (a + b)[1..] == a[1..] + b;
      EncodedAppend(a[1..], b);
      calc {
        Encoded(a + b);
        Unit(a[0]) + Encoded(a[1..] + b);
        Unit(a[0]) + (Encoded(a[1..]) + Encoded(b));
        (Unit(a[0]) + Encoded(a[1..])) + Encoded(b);
      }
    } else {
      assert a + b == b;
    }
  }

  /** Where reading the characters `cs` one by one from `pos` ends, if the
      input holds exactly those characters there. */
  function ReadsOff(data: seq<byte>, pos: nat, cs: string): (r: Option<nat>)
    requires pos <= |data|
    ensures r.Some? ==> pos <= r.value <= |data|
    decreases |cs|
  {
    if cs == [] then Some(pos)
    else
      match NextChar(data, pos)
      case Ok(c) => if c.next == cs[0] then ReadsOff(data, c.pos, cs[1..]) else None
      case Err(_) => None
  }

  /** Reading the first of several characters. */
  lemma ReadsFirst(data: seq<byte>, pos: nat, c: char, cs: string)
    requires pos <= |data| && ReadsOff(data, pos, [c] + cs).Some?
    ensures NextChar(data, pos).Ok? && NextChar(data, pos).value.next == c
    ensures ReadsOff(data, NextChar(data, pos).value.pos, cs) == ReadsOff(data, pos, [c] + cs)
  {
    assert ([c] + cs)[0] == c && ([c] + cs)[1..] == cs;
  }

  /** Reading the next character off its coding, whatever surrounds it. */
  lemma NextOfEncoded(pre: seq<byte>, c: char, post: seq<byte>)
    requires Bmp(c)
    ensures NextChar(pre + EncodeChar(c) + post, |pre|) == Ok(Cursor(|pre| + |EncodeChar(c)|, c))
  {
    var data := pre + EncodeChar(c) + post;
    assert data[|pre|..|pre| + |EncodeChar(c)|] == EncodeChar(c);
    DecodeEncoded(data, |pre|, c);
  }

  /** Reading a string whose first character is next in the input. */
  lemma ReadsStep(data: seq<byte>, pos: nat, q: nat, cs: string)
    requires pos <= |data| && cs != [] && NextChar(data, pos) == Ok(Cursor(q, cs[0]))
    ensures q <= |data| && ReadsOff(data, pos, cs) == ReadsOff(data, q, cs[1..])
  {
  }

  /** The characters written as text are read back one by one from their
      coding, wherever it stands in the input. */
  lemma {:induction false} ReadsCoding(data: seq<byte>, pos: nat, cs: string)
    requires AllBmp(cs)
    requires pos + |Encoded(Chars(cs))| <= |data| && data[pos..pos + |Encoded(Chars(cs))|] == Encoded(Chars(cs))
    ensures ReadsOff(data, pos, cs) == Some(pos + |Encoded(Chars(cs))|)
    decreases |cs|
  {
    if cs != [] {
      var q := CodingStep(data, pos, cs);
      ReadsStep(data, pos, q, cs);
      ReadsCoding(data, q, cs[1..]);
    }
  }

  /** The first character's coding, and where the rest's begins. */
  lemma CodingStep(data: seq<byte>, pos: nat, cs: string) returns (q: nat)
    requires cs != [] && AllBmp(cs)
    requires pos + |Encoded(Chars(cs))| <= |data| && data[pos..pos + |Encoded(Chars(cs))|] == Encoded(Chars(cs))
    ensures NextChar(data, pos) == Ok(Cursor(q, cs[0])) && AllBmp(cs[1..])
    ensures q + |Encoded(Chars(cs[1..]))| == pos + |Encoded(Chars(cs))|
    ensures q + |Encoded(Chars(cs[1..]))| <= |data| && data[q..q + |Encoded(Chars(cs[1..]))|] == Encoded(Chars(cs[1..]))
  {
    var e := EncodeChar(cs[0]);
    var more := Encoded(Chars(cs[1..]));
    EncodedChars(cs);
    q := pos + |e|;
    SliceSplit(data, pos, e, more);
    DecodeEncoded(data, pos, cs[0]);
    BmpTail(cs);
  }

  lemma SliceSplit(data: seq<byte>, pos: nat, a: seq<byte>, b: seq<byte>)
    requires pos + |a + b| <= |data| && data[pos..pos + |a + b|] == a + b
    ensures data[pos..pos + |a|] == a && data[pos + |a|..pos + |a| + |b|] == b
  {
    assert data[pos..pos + |a|] == data[pos..pos + |a + b|][..|a|];
    assert data[pos + |a|..pos + |a| + |b|] == data[pos..pos + |a + b|][|a|..];
  }

  lemma BmpTail(cs: string)
    requires cs != [] && AllBmp(cs)
    ensures AllBmp(cs[1..])
  {
    forall i | 0 <= i < |cs[1..]| ensures Bmp(cs[1..][i]) { assert cs[1..][i] == cs[i + 1]; }
  }

  /** Reading a single character. */
  lemma ReadsOne(data: seq<byte>, p: nat, y: char, r: nat)
    requires p <= |data| && ReadsOff(data, p, [y]) == Some(r)
    ensures NextChar(data, p) == Ok(Cursor(r, y))
  {
    assert [y][0] == y && [y][1..] == [];
  }

  /** Reading a string in two parts. */
  lemma {:induction false} ReadsSplit(data: seq<byte>, p: nat, a: string, b: string)
    requires p <= |data| && ReadsOff(data, p, a + b).Some?
    ensures ReadsOff(data, p, a).Some?
    ensures ReadsOff(data, ReadsOff(data, p, a).value, b) == ReadsOff(data, p, a + b)
    decreases |a|
  {
    if a == [] {
      assert a + b == b;
    } else {
      assert a + b == [a[0]] + (a[1..] + b);
      ReadsFirst(data, p, a[0], a[1..] + b);
      var q := NextChar(data, p).value.pos;
      ReadsSplit(data, q, a[1..], b);
      ReadsStep(data, p, q, a);
    }
  }

  /** The same, with the coding between what precedes and follows it. */
  lemma ReadsEncoded(pre: seq<byte>, cs: string, tail: seq<byte>)
    requires AllBmp(cs)
    ensures ReadsOff(pre + Encoded(Chars(cs)) + tail, |pre|, cs) == Some(|pre| + |Encoded(Chars(cs))|)
  {
    var data := pre + Encoded(Chars(cs)) + tail;
    assert data[|pre|..|pre| + |Encoded(Chars(cs))|] == Encoded(Chars(cs));
    ReadsCoding(data, |pre|, cs);
  }

  lemma EncodedChars(cs: string)
    requires cs != [] && AllBmp(cs)
    ensures Encoded(Chars(cs)) == EncodeChar(cs[0]) + Encoded(Chars(cs[1..]))
  {
    assert Bmp(cs[0]);
    assert Chars(cs)[0] == Text(cs[0]) && Chars(cs)[1..] == Chars(cs[1..]);
  }

  // ---------------------------------------------------------------------
  // Strings

  /** The first character of a string's body as `putString` writes it
      (its closing quote when it is empty), and the characters after that
      up to and including the closing quote. */
  function Head(s: string): char
  {
    if s == [] then '"' else if s[0] == '"' || s[0] == '\\' then '\\' else s[0]
  }

  function Rest(s: string): string
  {
    if s == [] then []
    else if s[0] == '"' || s[0] == '\\' then [s[0], Head(s[1..])] + Rest(s[1..])
    else [Head(s[1..])] + Rest(s[1..])
  }

  /** What follows the opening quote is the head and the rest. */
  lemma {:induction false} ClosedSplit(s: string)
    ensures Escaped(s) + [Text('"')] == Chars([Head(s)] + Rest(s))
    decreases |s|
  {
    if s == [] {
      assert Chars(['"']) == [Text('"')];
    } else {
      var t := s[1..];
      ClosedSplit(t);
      assert s == [s[0]] + t;
      if s[0] == '"' || s[0] == '\\' {
        ClosedEscaped(s[0], t);
      } else {
        ClosedPlain(s[0], t);
      }
    }
  }

  /** The step of ClosedSplit for a quote or a backslash. */
  lemma ClosedEscaped(x: char, t: string)
    requires x == '"' || x == '\\'
    requires Escaped(t) + [Text('"')] == Chars([Head(t)] + Rest(t))
    ensures Escaped([x] + t) + [Text('"')] == Chars([Head([x] + t)] + Rest([x] + t))
  {
    var mark := ['\\', x];
    var r := [Head(t)] + Rest(t);
    EscapedQuote(x, t);
    CharsAppend(mark, r);
    assert Chars(mark) == [Text('\\'), Text(x)] by {
      assert mark[1..] == [x];
    }
    assert Escaped([x] + t) + [Text('"')] == Chars(mark) + (Escaped(t) + [Text('"')]);
  }

  /** A quote or a backslash is escaped, and read back as two characters. */
  lemma EscapedQuote(x: char, t: string)
    requires x == '"' || x == '\\'
    ensures Escaped([x] + t) == [Text('\\'), Text(x)] + Escaped(t)
    ensures [Head([x] + t)] + Rest([x] + t) == ['\\', x] + ([Head(t)] + Rest(t))
  {
    var s := [x] + t;
    assert s[0] == x && s[1..] == t;
  }

  /** The step of ClosedSplit for any other character. */
  lemma ClosedPlain(x: char, t: string)
    requires x != '"' && x != '\\'
    requires Escaped(t) + [Text('"')] == Chars([Head(t)] + Rest(t))
    ensures Escaped([x] + t) + [Text('"')] == Chars([Head([x] + t)] + Rest([x] + t))
  {
    var s := [x] + t;
    assert s[0] == x && s[1..] == t;
    calc {
      Escaped(s) + [Text('"')];
      [Text(x)] + (Escaped(t) + [Text('"')]);
      [Text(x)] + Chars([Head(t)] + Rest(t));
      { CharsAppend([x], [Head(t)] + Rest(t)); }
      Chars([x] + ([Head(t)] + Rest(t)));
      { assert [x] + ([Head(t)] + Rest(t)) == [Head(s)] + Rest(s); }
      Chars([Head(s)] + Rest(s));
    }
  }

  lemma {:induction false} CharsAppend(a: string, b: string)
    ensures Chars(a + b) == Chars(a) + Chars(b)
    decreases |a|
  {
    if a != [] {
      assert (a + b)[0] == a[0] && (a + b)[1..] == a[1..] + b;
      CharsAppend(a[1..], b);
    } else {
      assert a + b == b;
    }
  }

  /** Escaping adds only backslashes. */
  lemma {:induction false} RestBmp(s: string)
    requires AllBmp(s)
    ensures Bmp(Head(s)) && AllBmp(Rest(s))
    decreases |s|
  {
    if s != [] {
      var t := s[1..];
      assert AllBmp(t) by {
        forall i | 0 <= i < |t| ensures Bmp(t[i]) { assert t[i] == s[i + 1]; }
      }
      assert Bmp(s[0]);
      RestBmp(t);
    }
  }

  /** One turn of the string loop, for a character other than a quote or a
      backslash. */
  lemma LexPlainTurn(data: seq<byte>, c: Cursor, acc: string)
    requires c.pos <= |data| && c.next != '"' && c.next != '\\' && NextChar(data, c.pos).Ok?
    ensures LexString(data, c, acc) == LexString(data, NextChar(data, c.pos).value, acc + [c.next])
  {
    assert Unescape(data, c) == Ok(c);
  }

  /** One turn of the string loop over a backslash and a quote or a
      backslash after it. */
  lemma LexQuoteTurn(data: seq<byte>, p: nat, c1: Cursor, acc: string)
    requires p <= |data| && NextChar(data, p) == Ok(c1) && (c1.next == '"' || c1.next == '\\')
    requires NextChar(data, c1.pos).Ok?
    ensures LexString(data, Cursor(p, '\\'), acc) == LexString(data, NextChar(data, c1.pos).value, acc + [c1.next])
  {
    assert Unescape(data, Cursor(p, '\\')) == Ok(c1);
  }

  /** The string loop reads back the body `putString` wrote, whatever
      characters it holds, and stops on the closing quote. */
  lemma {:induction false} LexEscaped(data: seq<byte>, p: nat, s: string, acc: string)
    requires p <= |data| && ReadsOff(data, p, Rest(s)).Some?
    ensures LexString(data, Cursor(p, Head(s)), acc) == Ok(Lexed(Cursor(ReadsOff(data, p, Rest(s)).value, '"'), acc + s))
    decreases |s|
  {
    if s == [] {
      assert Head(s) == '"' && Rest(s) == [];
      assert acc + s == acc;
    } else {
      var t := s[1..];
      assert s == [s[0]] + t;
      if s[0] == '"' || s[0] == '\\' {
        assert Head(s) == '\\' && Rest(s) == [s[0], Head(t)] + Rest(t);
        EscapedCase(data, p, s[0], t, acc, ReadsOff(data, p, Rest(s)).value);
      } else {
        assert Head(s) == s[0] && Rest(s) == [Head(t)] + Rest(t);
        PlainCase(data, p, s[0], t, acc, ReadsOff(data, p, Rest(s)).value);
      }
      assert acc + [s[0]] + t == acc + s;
    }
  }

  /** Reading two characters and then the rest. */
  lemma ReadsTwo(data: seq<byte>, p: nat, x: char, y: char, cs: string)
    requires p <= |data| && ReadsOff(data, p, [x, y] + cs).Some?
    ensures NextChar(data, p).Ok? && NextChar(data, p).value.next == x
    ensures var q := NextChar(data, p).value.pos;
      && NextChar(data, q).Ok? && NextChar(data, q).value.next == y
      && ReadsOff(data, NextChar(data, q).value.pos, cs) == ReadsOff(data, p, [x, y] + cs)
  {
    assert [x, y] + cs == [x] + ([y] + cs);
    ReadsFirst(data, p, x, [y] + cs);
    ReadsFirst(data, NextChar(data, p).value.pos, y, cs);
  }

  lemma {:induction false} EscapedCase(data: seq<byte>, p: nat, x: char, t: string, acc: string, r: nat)
    requires x == '"' || x == '\\'
    requires p <= |data| && ReadsOff(data, p, [x, Head(t)] + Rest(t)) == Some(r)
    ensures LexString(data, Cursor(p, '\\'), acc) == Ok(Lexed(Cursor(r, '"'), acc + [x] + t))
    decreases |t| + 1, 0
  {
    ReadsTwo(data, p, x, Head(t), Rest(t));
    var c1 := NextChar(data, p).value;
    LexQuoteTurn(data, p, c1, acc);
    LexEscaped(data, NextChar(data, c1.pos).value.pos, t, acc + [x]);
  }

  lemma {:induction false} PlainCase(data: seq<byte>, p: nat, x: char, t: string, acc: string, r: nat)
    requires x != '"' && x != '\\'
    requires p <= |data| && ReadsOff(data, p, [Head(t)] + Rest(t)) == Some(r)
    ensures LexString(data, Cursor(p, x), acc) == Ok(Lexed(Cursor(r, '"'), acc + [x] + t))
    decreases |t| + 1, 0
  {
    ReadsFirst(data, p, Head(t), Rest(t));
    LexPlainTurn(data, Cursor(p, x), acc);
    LexEscaped(data, NextChar(data, p).value.pos, t, acc + [x]);
  }
}
