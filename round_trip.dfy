/** What `get` makes of what `put` wrote: a string, a whole number and a
    binary block come back as the value that was written (a whole number
    as a Long, a block as a byte stream). Each law is stated for a message
    followed by anything at all, since the peer may send more after it. */
module RoundTrip {
  import opened Values
  import opened IMuErrors
  import opened MixedInput
  import opened WireFormat
  import opened CodecLaws

  /** `get` when the first character after the previous message starts
      the token `s` and that token starts the value `p`. */
  lemma ReadMessageAt(data: seq<byte>, c: Cursor, c1: Cursor, s: Scan, p: Parsed)
    requires c.pos <= |data| && NextChar(data, c.pos) == Ok(c1) && !IsWhitespace(c1.next)
    requires TokenAt(data, c1) == Ok(s) && ParseValue(data, s) == Ok(p)
    ensures ReadMessage(data, c) == Ok(p)
  {
    assert SkipSpace(data, c1) == Ok(c1);
    assert GetToken(data, c1) == Ok(s);
  }

  /** The coding of a single character. */
  lemma EncodedOne(c: char)
    requires Bmp(c)
    ensures Encoded([Text(c)]) == EncodeChar(c)
  {
    assert [Text(c)][1..] == [];
  }

  /** The coding of a byte sequence written raw is the sequence itself. */
  lemma {:induction false} EncodedRaws(bs: seq<byte>)
    ensures Encoded(Raws(bs)) == bs
    decreases |bs|
  {
    if bs != [] {
      assert Raws(bs)[0] == Raw(bs[0]) && Raws(bs)[1..] == Raws(bs[1..]);
      EncodedRaws(bs[1..]);
    }
  }

  // ---------------------------------------------------------------------
  // Strings

  /** The bytes of a string's body as `putString` wrote it, its closing
      quote and the character `y` after that. */
  function StringBody(s: string, y: char): seq<byte>
  {
    Encoded(Escaped(s) + [Text('"'), Text(y)])
  }

  /** What reading those bytes character by character sees: the body's
      head, the rest up to the closing quote, then `y`. */
  function QuoteReads(s: string, y: char): string
  {
    [Head(s)] + (Rest(s) + [y])
  }

  lemma ClosedWith(s: string, y: char)
    ensures Escaped(s) + [Text('"'), Text(y)] == Chars(QuoteReads(s, y))
  {
    ClosedSplit(s);
    CharsAppend([Head(s)] + Rest(s), [y]);
    assert Chars([y]) == [Text(y)];
    assert [Head(s)] + Rest(s) + [y] == [Head(s)] + (Rest(s) + [y]);
    assert Escaped(s) + [Text('"'), Text(y)] == (Escaped(s) + [Text('"')]) + [Text(y)];
  }

  lemma StringCoding(data: seq<byte>, pos: nat, s: string, y: char)
    requires AllBmp(s) && Bmp(y)
    requires pos + |StringBody(s, y)| <= |data| && data[pos..pos + |StringBody(s, y)|] == StringBody(s, y)
    ensures ReadsOff(data, pos, QuoteReads(s, y)) == Some(pos + |StringBody(s, y)|)
  {
    ClosedWith(s, y);
    QuoteBmp(s, y);
    ReadsCoding(data, pos, QuoteReads(s, y));
  }

  lemma QuoteBmp(s: string, y: char)
    requires AllBmp(s) && Bmp(y)
    ensures AllBmp(QuoteReads(s, y))
  {
    RestBmp(s);
  }

  lemma ReadsQuoted(data: seq<byte>, pos: nat, s: string, y: char, e: nat)
    requires pos <= |data| && ReadsOff(data, pos, QuoteReads(s, y)) == Some(e)
    ensures NextChar(data, pos).Ok? && NextChar(data, pos).value.next == Head(s)
    ensures var p1 := NextChar(data, pos).value.pos;
      && ReadsOff(data, p1, Rest(s)).Some?
      && NextChar(data, ReadsOff(data, p1, Rest(s)).value) == Ok(Cursor(e, y))
  {
    ReadsFirst(data, pos, Head(s), Rest(s) + [y]);
    var p1 := NextChar(data, pos).value.pos;
    ReadsSplit(data, p1, Rest(s), [y]);
    ReadsOne(data, ReadsOff(data, p1, Rest(s)).value, y, e);
  }

  lemma StringTokenStep(data: seq<byte>, pos: nat, c1: Cursor, s: string, r: nat, c2: Cursor)
    requires pos <= |data| && NextChar(data, pos) == Ok(c1)
    requires LexString(data, c1, "") == Ok(Lexed(Cursor(r, '"'), s)) && NextChar(data, r) == Ok(c2)
    ensures StringToken(data, Cursor(pos, '"')) == Ok(Scan(c2, "string", s, None))
  {
  }

  /** A quoted string `putString` wrote is read back as the same string,
      whatever characters it holds, and the reader stands on the character
      after the closing quote. */
  lemma StringTokenReads(data: seq<byte>, pos: nat, s: string, y: char, e: nat)
    requires pos <= |data| && ReadsOff(data, pos, QuoteReads(s, y)) == Some(e)
    ensures TokenAt(data, Cursor(pos, '"')) == Ok(Scan(Cursor(e, y), "string", s, None))
  {
    ReadsQuoted(data, pos, s, y, e);
    var c1 := NextChar(data, pos).value;
    var r1 := ReadsOff(data, c1.pos, Rest(s)).value;
    LexEscaped(data, c1.pos, s, "");
    assert "" + s == s;
    StringTokenStep(data, pos, c1, s, r1, Cursor(e, y));
  }

  /** The bytes of a message holding one string. */
  lemma StringMessage(s: string)
    ensures Encoded(WriteMessage(Str(s)).items) == [34 as byte] + StringBody(s, '\r') + [10 as byte]
  {
    var body := Escaped(s) + [Text('"'), Text('\r')];
    assert WriteMessage(Str(s)).items == [Text('"')] + body + [Text('\n')];
    EncodedAppend([Text('"')] + body, [Text('\n')]);
    EncodedAppend([Text('"')], body);
    EncodedOne('"');
    EncodedOne('\n');
  }

  /** `get` on a message holding one string `putString` wrote. */
  lemma GetString(data: seq<byte>, s: string, prev: char)
    requires AllBmp(s)
    requires 1 + |StringBody(s, '\r')| <= |data| && data[..1] == [34 as byte]
    requires data[1..1 + |StringBody(s, '\r')|] == StringBody(s, '\r')
    ensures ReadMessage(data, Cursor(0, prev)) == Ok(Parsed(Str(s), Scan(Cursor(1 + |StringBody(s, '\r')|, '\r'), "string", s, None)))
  {
    var e := 1 + |StringBody(s, '\r')|;
    assert data[0..1] == EncodeChar('"');
    DecodeEncoded(data, 0, '"');
    StringCoding(data, 1, s, '\r');
    StringTokenReads(data, 1, s, '\r', e);
    var scan := Scan(Cursor(e, '\r'), "string", s, None);
    ReadMessageAt(data, Cursor(0, prev), Cursor(1, '"'), scan, Parsed(Str(s), scan));
  }

  /** `put` of a string followed by `get` gives the string back. */
  lemma PutGetString(s: string, prev: char, tail: seq<byte>)
    requires AllBmp(s)
    ensures var r := ReadMessage(Encoded(WriteMessage(Str(s)).items) + tail, Cursor(0, prev));
      r.Ok? && r.value.value == Str(s)
  {
    var body := StringBody(s, '\r');
    StringMessage(s);
    var data := [34 as byte] + body + [10 as byte] + tail;
    assert data[..1] == [34 as byte] && data[1..1 + |body|] == body;
    GetString(data, s, prev);
  }

  // ---------------------------------------------------------------------
  // Whole numbers

  /** The lookahead and the characters still to read when a loop over the
      digits `ds` and the character `y` after them begins. */
  function First(ds: string, y: char): char
  {
    if ds == [] then y else ds[0]
  }

  function Later(ds: string, y: char): string
  {
    if ds == [] then [] else ds[1..] + [y]
  }

  /** The digit loop collects exactly the digits and stops on the character
      after them. */
  lemma {:induction false} LexDigitsReads(data: seq<byte>, p: nat, ds: string, y: char, acc: string, r: nat)
    requires AllDigits(ds) && !IsDigit(y)
    requires p <= |data| && ReadsOff(data, p, Later(ds, y)) == Some(r)
    ensures LexDigits(data, Cursor(p, First(ds, y)), acc) == Ok(Lexed(Cursor(r, y), acc + ds))
    decreases |ds|, 1
  {
    if ds == [] {
      assert acc + ds == acc;
    } else {
      var t := ds[1..];
      assert AllDigits(t) by {
        forall i | 0 <= i < |t| ensures IsDigit(t[i]) { assert t[i] == ds[i + 1]; }
      }
      assert Later(ds, y) == [First(t, y)] + Later(t, y);
      DigitsTurn(data, p, ds[0], t, y, acc, r);
      assert acc + [ds[0]] + t == acc + ds;
    }
  }

  lemma {:induction false} DigitsTurn(data: seq<byte>, p: nat, d: char, t: string, y: char, acc: string, r: nat)
    requires IsDigit(d) && AllDigits(t) && !IsDigit(y)
    requires p <= |data| && ReadsOff(data, p, [First(t, y)] + Later(t, y)) == Some(r)
    ensures LexDigits(data, Cursor(p, d), acc) == Ok(Lexed(Cursor(r, y), acc + [d] + t))
    decreases |t| + 1, 0
  {
    ReadsFirst(data, p, First(t, y), Later(t, y));
    LexDigitsReads(data, NextChar(data, p).value.pos, t, y, acc + [d], r);
  }

  /** A number token with no fraction and no exponent: the lead character
      `x` and the digits `t`, up to the character `y` after them. */
  lemma NumberTokenReads(data: seq<byte>, q: nat, x: char, t: string, y: char, r: nat)
    requires (IsDigit(x) || x == '-') && AllDigits(t)
    requires !IsDigit(y) && y != '.' && y != 'e' && y != 'E'
    requires q <= |data| && NextChar(data, q).Ok? && NextChar(data, q).value.next == First(t, y)
    requires ReadsOff(data, NextChar(data, q).value.pos, Later(t, y)) == Some(r)
    ensures TokenAt(data, Cursor(q, x)) == Ok(Scan(Cursor(r, y), "number", [x] + t, None))
  {
    LexDigitsReads(data, NextChar(data, q).value.pos, t, y, [x], r);
    assert LexNumber(data, Cursor(q, x)) == Ok(Lexed(Cursor(r, y), [x] + t));
  }

  /** What reading a line holding the character `x` and the digits `t`
      sees: `x`, then the digit loop's lookahead and the rest up to the
      carriage return, then the line feed. */
  function LineReads(x: char, t: string): string
  {
    [x] + (([First(t, '\r')] + Later(t, '\r')) + "\n")
  }

  function LineBytes(x: char, t: string): seq<byte>
  {
    Encoded(Chars([x] + t + "\r\n"))
  }

  lemma LineCoding(data: seq<byte>, pos: nat, x: char, t: string)
    requires x as int < 0x80 && AllDigits(t)
    requires pos + |LineBytes(x, t)| <= |data| && data[pos..pos + |LineBytes(x, t)|] == LineBytes(x, t)
    ensures ReadsOff(data, pos, LineReads(x, t)) == Some(pos + |LineBytes(x, t)|)
  {
    var cs := [x] + t + "\r\n";
    assert AllBmp(cs) by {
      forall i | 0 <= i < |cs| ensures Bmp(cs[i]) {
        if 1 <= i < 1 + |t| { assert cs[i] == t[i - 1]; }
      }
    }
    assert cs == LineReads(x, t);
    ReadsCoding(data, pos, cs);
  }

  /** Reading such a line: `x`, the digit loop's lookahead, the characters
      up to the carriage return and then the line feed, ending at `e`. */
  lemma ReadsLine(data: seq<byte>, pos: nat, x: char, t: string, e: nat)
    requires pos <= |data| && ReadsOff(data, pos, LineReads(x, t)) == Some(e)
    ensures NextChar(data, pos).Ok? && NextChar(data, pos).value.next == x
    ensures var q := NextChar(data, pos).value.pos;
      && NextChar(data, q).Ok? && NextChar(data, q).value.next == First(t, '\r')
      && ReadsOff(data, NextChar(data, q).value.pos, Later(t, '\r')).Some?
      && NextChar(data, ReadsOff(data, NextChar(data, q).value.pos, Later(t, '\r')).value) == Ok(Cursor(e, '\n'))
  {
    var w := [First(t, '\r')] + Later(t, '\r');
    ReadsFirst(data, pos, x, w + "\n");
    var q := NextChar(data, pos).value.pos;
    ReadsSplit(data, q, w, "\n");
    ReadsFirst(data, q, First(t, '\r'), Later(t, '\r'));
    var r := ReadsOff(data, q, w).value;
    ReadsOne(data, r, '\n', e);
  }

  /** `Long.parseLong` reads back what `Long.toString` printed. */
  lemma LongOfDecimal(n: int64)
    ensures LongOf(DecimalText(n)) == Ok(n)
  {
    DecimalRoundTrip(n, -0x8000_0000_0000_0000, 0x7FFF_FFFF_FFFF_FFFF);
  }

  /** The lead character and the digits of a whole number's text. */
  lemma DecimalShape(n: int)
    ensures var ds := DecimalText(n);
      && (IsDigit(ds[0]) || ds[0] == '-') && AllDigits(ds[1..])
      && ds == [ds[0]] + ds[1..]
  {
    var ds := DecimalText(n);
    if n < 0 {
      assert ds[1..] == NatText(-n);
    } else {
      assert AllDigits(ds[1..]) by {
        forall i | 0 <= i < |ds[1..]| ensures IsDigit(ds[1..][i]) { assert ds[1..][i] == ds[i + 1]; }
      }
    }
  }

  /** `get` on a message holding the text of a whole number. */
  lemma GetNumber(data: seq<byte>, x: char, t: string, n: int64, prev: char, e: nat)
    requires (IsDigit(x) || x == '-') && AllDigits(t) && LongOf([x] + t) == Ok(n)
    requires ReadsOff(data, 0, LineReads(x, t)) == Some(e)
    ensures var r := ReadMessage(data, Cursor(0, prev)); r.Ok? && r.value.value == Long(n)
  {
    ReadsLine(data, 0, x, t, e);
    var c0 := NextChar(data, 0).value;
    var q1 := NextChar(data, c0.pos).value.pos;
    var r := ReadsOff(data, q1, Later(t, '\r')).value;
    NumberTokenReads(data, c0.pos, x, t, '\r', r);
    var scan := Scan(Cursor(r, '\r'), "number", [x] + t, None);
    NoDot(x, t);
    assert ParseValue(data, scan) == Ok(Parsed(Long(n), scan));
    ReadMessageAt(data, Cursor(0, prev), c0, scan, Parsed(Long(n), scan));
  }

  /** A whole number's text has no '.', so the reader takes it as a Long. */
  lemma NoDot(x: char, t: string)
    requires x != '.' && AllDigits(t)
    ensures '.' !in [x] + t
  {
    forall i | 0 <= i < |[x] + t| ensures ([x] + t)[i] != '.' {
      if i > 0 { assert ([x] + t)[i] == t[i - 1]; }
    }
  }

  /** `put` of a Long followed by `get` gives the Long back. */
  lemma PutGetLong(n: int64, prev: char, tail: seq<byte>)
    ensures var r := ReadMessage(Encoded(WriteMessage(Long(n)).items) + tail, Cursor(0, prev));
      r.Ok? && r.value.value == Long(n)
  {
    NumberMessage(DecimalText(n), tail, prev, n);
  }

  /** `put` of an Integer followed by `get` gives a Long of the same
      value: the reader makes every whole number a Long. */
  lemma PutGetInt(i: int32, prev: char, tail: seq<byte>)
    ensures var r := ReadMessage(Encoded(WriteMessage(Int(i)).items) + tail, Cursor(0, prev));
      r.Ok? && r.value.value == Long(i as int64)
  {
    assert WriteMessage(Int(i)).items == WriteMessage(Long(i as int64)).items;
    PutGetLong(i as int64, prev, tail);
  }

  lemma NumberMessage(ds: string, tail: seq<byte>, prev: char, n: int64)
    requires ds == DecimalText(n)
    ensures var r := ReadMessage(Encoded(Chars(ds) + Line()) + tail, Cursor(0, prev));
      r.Ok? && r.value.value == Long(n)
  {
    DecimalShape(n);
    LongOfDecimal(n);
    var x := ds[0];
    var t := ds[1..];
    assert [x] + t == ds;
    LineMessage(x, t, n, tail, prev);
  }

  /** A message holding a sign or digit and then digits is read back as
      the Long they spell. */
  lemma LineMessage(x: char, t: string, n: int64, tail: seq<byte>, prev: char)
    requires (IsDigit(x) || x == '-') && AllDigits(t) && LongOf([x] + t) == Ok(n)
    ensures var r := ReadMessage(Encoded(Chars([x] + t) + Line()) + tail, Cursor(0, prev));
      r.Ok? && r.value.value == Long(n)
  {
    LineOfText(x, t);
    LineReadsOff(x, t, tail);
    GetNumber(LineBytes(x, t) + tail, x, t, n, prev, |LineBytes(x, t)|);
  }

  /** The line's characters are read off the front of its coding. */
  lemma LineReadsOff(x: char, t: string, tail: seq<byte>)
    requires x as int < 0x80 && AllDigits(t)
    ensures ReadsOff(LineBytes(x, t) + tail, 0, LineReads(x, t)) == Some(|LineBytes(x, t)|)
  {
    var data := LineBytes(x, t) + tail;
    assert data[0..|LineBytes(x, t)|] == LineBytes(x, t);
    LineCoding(data, 0, x, t);
  }

  /** A line of text as `putLine` ends it. */
  lemma LineOfText(x: char, t: string)
    ensures Encoded(Chars([x] + t) + Line()) == LineBytes(x, t)
  {
    CharsAppend([x] + t, "\r\n");
    assert Chars("\r\n") == Line();
  }

  // ---------------------------------------------------------------------
  // Binary blocks

  /** `get` on a message holding a binary block of `n` bytes: a header
      line, the `frame` and the character after it. */
  lemma GetBlock(data: seq<byte>, n: nat, frame: seq<byte>, prev: char, e: nat, c3: Cursor)
    requires n < 0x8000_0000_0000_0000 && |frame| == n
    requires ReadsOff(data, 0, LineReads('*', NatText(n))) == Some(e)
    requires e + n <= |data| && data[e..e + n] == frame && NextChar(data, e + n) == Ok(c3)
    ensures ReadMessage(data, Cursor(0, prev)) == Ok(Parsed(Stream(frame), Scan(c3, "binary", NatText(n), Some(frame))))
  {
    var t := NatText(n);
    ReadsLine(data, 0, '*', t, e);
    var c0 := NextChar(data, 0).value;
    var c1 := NextChar(data, c0.pos).value;
    var r := ReadsOff(data, c1.pos, Later(t, '\r')).value;
    LexDigitsReads(data, c1.pos, t, '\r', "", r);
    assert "" + t == t;
    BinaryTokenStep(data, c0.pos, c1, n, r, e, frame, c3);
    var scan := Scan(c3, "binary", t, Some(frame));
    ParseBinary(data, scan);
    ReadMessageAt(data, Cursor(0, prev), c0, scan, Parsed(Stream(frame), scan));
  }

  /** A binary token: the header's digits, the line end, the frame and the
      character after it. */
  lemma BinaryTokenStep(data: seq<byte>, q: nat, c1: Cursor, n: nat, r: nat, e: nat, frame: seq<byte>, c3: Cursor)
    requires n < 0x8000_0000_0000_0000 && |frame| == n
    requires q <= |data| && NextChar(data, q) == Ok(c1)
    requires LexDigits(data, c1, "") == Ok(Lexed(Cursor(r, '\r'), NatText(n)))
    requires r <= |data| && NextChar(data, r) == Ok(Cursor(e, '\n'))
    requires e + n <= |data| && data[e..e + n] == frame && NextChar(data, e + n) == Ok(c3)
    ensures TokenAt(data, Cursor(q, '*')) == Ok(Scan(c3, "binary", NatText(n), Some(frame)))
  {
    LongOfDecimal(n);
    BinaryDataStep(data, r, e, NatText(n), n, frame, c3);
    assert BinaryToken(data, Cursor(q, '*')) == Ok(Scan(c3, "binary", NatText(n), Some(frame)));
  }

  lemma BinaryDataStep(data: seq<byte>, r: nat, e: nat, text: string, n: nat, frame: seq<byte>, c3: Cursor)
    requires |frame| == n
    requires r <= |data| && NextChar(data, r) == Ok(Cursor(e, '\n'))
    requires e + n <= |data| && data[e..e + n] == frame && NextChar(data, e + n) == Ok(c3)
    ensures BinaryData(data, Cursor(r, '\r'), text, n) == Ok(Scan(c3, "binary", text, Some(frame)))
  {
    assert SkipLine(data, Cursor(r, '\r')) == Ok(Cursor(e, '\n'));
    assert ReadRaw(data, e, n) == Ok(frame);
  }

  /** A binary token's value is a byte stream of its bytes. */
  lemma ParseBinary(data: seq<byte>, s: Scan)
    requires s.cur.pos <= |data| && s.token == "binary" && s.file.Some?
    ensures ParseValue(data, s) == Ok(Parsed(Stream(s.file.value), s))
  {
  }

  /** The bytes of a message holding one block. */
  lemma BlockMessage(src: seq<byte>, n: nat)
    ensures Encoded(Block(src, n) + Line()) == LineBytes('*', NatText(n)) + Frame(src, n) + EncodeChar('\r') + EncodeChar('\n')
  {
    var t := NatText(n);
    CharsAppend("*" + t, "\r\n");
    assert Chars("\r\n") == Line();
    assert "*" + t + "\r\n" == ['*'] + t + "\r\n";
    EncodedAppend(Chars("*" + t) + Line() + Raws(Frame(src, n)), Line());
    EncodedAppend(Chars("*" + t) + Line(), Raws(Frame(src, n)));
    EncodedRaws(Frame(src, n));
    assert Encoded(Line()) == EncodeChar('\r') + EncodeChar('\n') by {
      assert Line() == [Text('\r')] + [Text('\n')];
      EncodedAppend([Text('\r')], [Text('\n')]);
      EncodedOne('\r');
      EncodedOne('\n');
    }
  }

  /** `put` of a block of `n` bytes taken from `src`, followed by `get`,
      gives a byte stream of exactly those `n` bytes. */
  lemma PutGetBlock(src: seq<byte>, n: nat, prev: char, tail: seq<byte>)
    requires n < 0x8000_0000_0000_0000
    ensures var r := ReadMessage(Encoded(Block(src, n) + Line()) + tail, Cursor(0, prev));
      r.Ok? && r.value.value == Stream(Frame(src, n))
  {
    var head := LineBytes('*', NatText(n));
    var frame := Frame(src, n);
    BlockMessage(src, n);
    var data := head + frame + EncodeChar('\r') + (EncodeChar('\n') + tail);
    assert Encoded(Block(src, n) + Line()) + tail == data;
    GetBlockAt(data, n, frame, head, EncodeChar('\n') + tail, prev);
  }

  lemma GetBlockAt(data: seq<byte>, n: nat, frame: seq<byte>, head: seq<byte>, rest: seq<byte>, prev: char)
    requires n < 0x8000_0000_0000_0000 && |frame| == n && head == LineBytes('*', NatText(n))
    requires data == head + frame + EncodeChar('\r') + rest
    ensures var r := ReadMessage(data, Cursor(0, prev)); r.Ok? && r.value.value == Stream(frame)
  {
    assert data[..|head|] == head;
    HeaderReads(data, n, head);
    BlockLayout(data, frame, head, rest);
    GetBlock(data, n, frame, prev, |head|, Cursor(|head| + n + 1, '\r'));
  }

  /** Where the bytes of a block and the line end after them stand in the
      input, whatever the header before them. */
  lemma BlockLayout(data: seq<byte>, frame: seq<byte>, head: seq<byte>, rest: seq<byte>)
    requires data == head + frame + EncodeChar('\r') + rest
    ensures |head| + |frame| <= |data| && data[|head|..|head| + |frame|] == frame
    ensures NextChar(data, |head| + |frame|) == Ok(Cursor(|head| + |frame| + 1, '\r'))
  {
    assert data[|head|..|head| + |frame|] == frame;
    assert |EncodeChar('\r')| == 1;
    NextOfEncoded(head + frame, '\r', rest);
  }

  /** The header line of a block is read off the start of the input. */
  lemma HeaderReads(data: seq<byte>, n: nat, head: seq<byte>)
    requires head == LineBytes('*', NatText(n)) && |head| <= |data| && data[..|head|] == head
    ensures ReadsOff(data, 0, LineReads('*', NatText(n))) == Some(|head|)
  {
    assert data[0..|head|] == head;
    LineCoding(data, 0, '*', NatText(n));
  }

  /** `put` of an InputStream followed by `get` gives a byte stream with
      the same bytes. */
  lemma PutGetStream(d: seq<byte>, prev: char, tail: seq<byte>)
    requires |d| < 0x8000_0000_0000_0000
    ensures var r := ReadMessage(Encoded(WriteMessage(Stream(d)).items) + tail, Cursor(0, prev));
      r.Ok? && r.value.value == Stream(d)
  {
    assert Frame(d, |d|) == d;
    assert WriteMessage(Stream(d)).items == Block(d, |d|) + Line();
    PutGetBlock(d, |d|, prev, tail);
  }

  /** `put` of a readable File followed by `get` gives a byte stream of
      the file's reported length: its bytes, cut or padded with zeros. */
  lemma PutGetFile(path: string, length: nat, contents: seq<byte>, prev: char, tail: seq<byte>)
    requires length < 0x8000_0000_0000_0000
    ensures var r := ReadMessage(Encoded(WriteMessage(File(path, true, length, contents)).items) + tail, Cursor(0, prev));
      r.Ok? && r.value.value == Stream(Frame(contents, length))
  {
    assert WriteMessage(File(path, true, length, contents)).items == Block(contents, length) + Line();
    PutGetBlock(contents, length, prev, tail);
  }
}
