/** The text format a Stream reads and writes, as functions: the tokenizer
    with its one character of lookahead, the recursive-descent reader of
    values, and the writer of values with its framing of byte sources. The
    Stream class is proved against these. */
module WireFormat {
  import opened Values
  import opened IMuErrors
  import opened MixedInput

  // ---------------------------------------------------------------------
  // Character classes (ASCII forms of the java.lang.Character predicates)

  /** `Character.isWhitespace` on ASCII: tab, line feed, vertical tab, form
      feed, carriage return, the four separators 0x1C-0x1F and space. */
  predicate IsWhitespace(c: char)
  {
    '\t' <= c <= '\r' || '\U{1C}' <= c <= ' '
  }

  predicate IsLetter(c: char)
  {
    'a' <= c <= 'z' || 'A' <= c <= 'Z'
  }

  predicate IsWordChar(c: char)
  {
    IsLetter(c) || IsDigit(c) || c == '_'
  }

  // ---------------------------------------------------------------------
  // Reading

  /** Where the reader stands: the bytes before `pos` are consumed and
      `next` is the lookahead character (`_next`). */
  datatype Cursor = Cursor(pos: nat, next: char)

  /** The reader after `getToken`: the cursor, `_token`, `_string` and
      `_file` (the bytes of a binary block). */
  datatype Scan = Scan(cur: Cursor, token: string, str: string, file: Option<seq<byte>>)

  /** A lexing loop's result: where it stopped and the text it collected. */
  datatype Lexed = Lexed(cur: Cursor, text: string)

  datatype Parsed = Parsed(value: Value, scan: Scan)

  function StreamError(id: string, args: seq<Value>): Failure
  {
    IMu(NewExc(id, args))
  }

  /** `getNext`: the next character, or StreamEOF "character" at the end. */
  function NextChar(data: seq<byte>, pos: nat): (r: Result<Cursor>)
    requires pos <= |data|
    ensures r.Ok? ==> pos < r.value.pos <= |data|
    ensures pos == |data| ==> r == Err(StreamError("StreamEOF", [Str("character")]))
  {
    match DecodeChar(data, pos)
    case EndOfInput => Err(StreamError("StreamEOF", [Str("character")]))
    case Broken(e, _) => Err(e)
    case Decoded(u, end) =>
      if 0xD800 <= u < 0xE000 then Err(Unmodelled("surrogate code unit"))
      else Ok(Cursor(end, u as char))
  }

  /** The whitespace loop at the head of `getToken`. */
  function SkipSpace(data: seq<byte>, c: Cursor): (r: Result<Cursor>)
    requires c.pos <= |data|
    ensures r.Ok? ==> c.pos <= r.value.pos <= |data| && !IsWhitespace(r.value.next)
    decreases |data| - c.pos
  {
    if !IsWhitespace(c.next) then Ok(c)
    else
      var c1 :- NextChar(data, c.pos);
      SkipSpace(data, c1)
  }

  /** A loop collecting decimal digits. */
  function LexDigits(data: seq<byte>, c: Cursor, acc: string): (r: Result<Lexed>)
    requires c.pos <= |data|
    ensures r.Ok? ==> c.pos <= r.value.cur.pos <= |data| && !IsDigit(r.value.cur.next)
    decreases |data| - c.pos
  {
    if !IsDigit(c.next) then Ok(Lexed(c, acc))
    else
      var c1 :- NextChar(data, c.pos);
      LexDigits(data, c1, acc + [c.next])
  }

  /** The identifier loop: letters, digits and underscores. */
  function LexWord(data: seq<byte>, c: Cursor, acc: string): (r: Result<Lexed>)
    requires c.pos <= |data|
    ensures r.Ok? ==> c.pos <= r.value.cur.pos <= |data| && !IsWordChar(r.value.cur.next)
    decreases |data| - c.pos
  {
    if !IsWordChar(c.next) then Ok(Lexed(c, acc))
    else
      var c1 :- NextChar(data, c.pos);
      LexWord(data, c1, acc + [c.next])
  }

  /** The loop skipping to the line feed that ends a binary header. */
  function SkipLine(data: seq<byte>, c: Cursor): (r: Result<Cursor>)
    requires c.pos <= |data|
    ensures r.Ok? ==> c.pos <= r.value.pos <= |data| && r.value.next == '\n'
    decreases |data| - c.pos
  {
    if c.next == '\n' then Ok(c)
    else
      var c1 :- NextChar(data, c.pos);
      SkipLine(data, c1)
  }

  predicate IsHexDigit(c: char)
  {
    IsDigit(c) || 'a' <= c <= 'f'
  }

  /** The up-to-four-digit loop after `\u`: digits are kept, letters are
      lowered and kept up to 'f', anything else ends the loop. */
  function LexHex(data: seq<byte>, c: Cursor, acc: string, i: nat): (r: Result<Lexed>)
    requires c.pos <= |data| && i <= 4 && |acc| == i
    requires forall k :: 0 <= k < |acc| ==> IsHexDigit(acc[k])
    ensures r.Ok? ==> c.pos <= r.value.cur.pos <= |data| && |r.value.text| <= 4
    ensures r.Ok? ==> forall k :: 0 <= k < |r.value.text| ==> IsHexDigit(r.value.text[k])
    decreases 4 - i
  {
    if i == 4 then Ok(Lexed(c, acc))
    else if IsDigit(c.next) || (IsLetter(c.next) && Lower(c.next) <= 'f') then
      var c1 :- NextChar(data, c.pos);
      LexHex(data, c1, acc + [Lower(c.next)], i + 1)
    else Ok(Lexed(c, acc))
  }

  function HexDigitValue(c: char): (n: nat)
    requires IsHexDigit(c)
    ensures n < 16
  {
    if IsDigit(c) then c as int - '0' as int else c as int - 'a' as int + 10
  }

  /** `Integer.parseInt(s, 16)` of one to four lower-case hex digits. */
  function HexValue(s: string): (n: nat)
    requires forall k :: 0 <= k < |s| ==> IsHexDigit(s[k])
    ensures n < Pow16(|s|)
  {
    if s == [] then 0 else HexValue(s[..|s| - 1]) * 16 + HexDigitValue(s[|s| - 1])
  }

  function Pow16(k: nat): (p: nat)
    ensures p > 0
  {
    if k == 0 then 1 else 16 * Pow16(k - 1)
  }

  /** The backslash handling inside a string: the character the loop
      appends next and where the reader then stands. For `\u` that
      character replaces the lookahead after the hex digits. */
  function Unescape(data: seq<byte>, c: Cursor): (r: Result<Cursor>)
    requires c.pos <= |data|
    ensures r.Ok? ==> c.pos <= r.value.pos <= |data|
  {
    if c.next != '\\' then Ok(c)
    else
      var c1 :- NextChar(data, c.pos);
      match c1.next
      case 'b' => Ok(Cursor(c1.pos, '\U{8}'))
      case 'f' => Ok(Cursor(c1.pos, '\U{C}'))
      case 'n' => Ok(Cursor(c1.pos, '\n'))
      case 'r' => Ok(Cursor(c1.pos, '\r'))
      case 't' => Ok(Cursor(c1.pos, '\t'))
      case 'u' =>
        var c2 :- NextChar(data, c1.pos);
        var h :- LexHex(data, c2, "", 0);
        if |h.text| == 0 then Err(StreamError("StreamSyntaxUnicode", []))
        else
          var num := HexValue(h.text);
          assert num < 0x10000 by { PowBound(|h.text|); }
          if 0xD800 <= num < 0xE000 then Err(Unmodelled("surrogate code unit"))
          else Ok(Cursor(h.cur.pos, num as char))
      case _ => Ok(c1)
  }

  lemma PowBound(k: nat)
    requires k <= 4
    ensures Pow16(k) <= 0x10000
  {
    assert Pow16(1) == 16 && Pow16(2) == 0x100 && Pow16(3) == 0x1000 && Pow16(4) == 0x10000;
  }

  /** The string loop: everything up to an unescaped '"'. */
  function LexString(data: seq<byte>, c: Cursor, acc: string): (r: Result<Lexed>)
    requires c.pos <= |data|
    ensures r.Ok? ==> c.pos <= r.value.cur.pos <= |data| && r.value.cur.next == '"'
    decreases |data| - c.pos
  {
    if c.next == '"' then Ok(Lexed(c, acc))
    else
      var e :- Unescape(data, c);
      var c1 :- NextChar(data, e.pos);
      LexString(data, c1, acc + [e.next])
  }

  function LexFraction(data: seq<byte>, d: Lexed): (r: Result<Lexed>)
    requires d.cur.pos <= |data|
    ensures r.Ok? ==> d.cur.pos <= r.value.cur.pos <= |data|
  {
    if d.cur.next != '.' then Ok(d)
    else
      var c1 :- NextChar(data, d.cur.pos);
      LexDigits(data, c1, d.text + ".")
  }

  function LexExponent(data: seq<byte>, d: Lexed): (r: Result<Lexed>)
    requires d.cur.pos <= |data|
    ensures r.Ok? ==> d.cur.pos <= r.value.cur.pos <= |data|
  {
    if d.cur.next != 'e' && d.cur.next != 'E' then Ok(d)
    else
      var t := (if '.' in d.text then d.text else d.text + ".") + "e";
      var c1 :- NextChar(data, d.cur.pos);
      if c1.next == '+' || c1.next == '-' then
        var c2 :- NextChar(data, c1.pos);
        LexDigits(data, c2, t + [c1.next])
      else LexDigits(data, c1, t)
  }

  /** A number: a digit or '-', digits, an optional fraction and an
      optional exponent, with "." put in before the exponent when there is
      no fraction and 'E' written as 'e'. */
  function LexNumber(data: seq<byte>, c: Cursor): (r: Result<Lexed>)
    requires c.pos <= |data|
    ensures r.Ok? ==> c.pos < r.value.cur.pos <= |data|
  {
    var c1 :- NextChar(data, c.pos);
    var d1 :- LexDigits(data, c1, [c.next]);
    var d2 :- LexFraction(data, d1);
    LexExponent(data, d2)
  }

  /** The bytes of a binary block: `size` of them (none when `size` is not
      positive), or StreamEOF "binary" when the input ends first. */
  function ReadRaw(data: seq<byte>, pos: nat, size: int): (r: Result<seq<byte>>)
    requires pos <= |data|
    ensures r.Ok? <==> size <= 0 || pos + size <= |data|
    ensures r.Ok? ==> pos + |r.value| <= |data| && r.value == data[pos..pos + |r.value|]
    ensures r.Ok? ==> |r.value| == if size > 0 then size else 0
    ensures r.Err? ==> r.error == StreamError("StreamEOF", [Str("binary")])
  {
    if size <= 0 then Ok([])
    else if size <= |data| - pos then Ok(data[pos..pos + size])
    else Err(StreamError("StreamEOF", [Str("binary")]))
  }

  /** A binary block: '*', the decimal length, the rest of the line, then
      exactly that many raw bytes. */
  function BinaryToken(data: seq<byte>, c: Cursor): (r: Result<Scan>)
    requires c.pos <= |data|
    ensures r.Ok? ==> c.pos < r.value.cur.pos <= |data|
  {
    var c1 :- NextChar(data, c.pos);
    var d :- LexDigits(data, c1, "");
    if |d.text| == 0 then Err(StreamError("StreamSyntaxBinary", []))
    else
      var size :- LongOf(d.text);
      BinaryData(data, d.cur, d.text, size)
  }

  /** After the length: the rest of the header line, `size` raw bytes and
      the character that follows them. */
  function BinaryData(data: seq<byte>, c: Cursor, text: string, size: int): (r: Result<Scan>)
    requires c.pos <= |data|
    ensures r.Ok? ==> c.pos < r.value.cur.pos <= |data|
  {
    var c2 :- SkipLine(data, c);
    var bytes :- ReadRaw(data, c2.pos, size);
    var c3 :- NextChar(data, c2.pos + |bytes|);
    Ok(Scan(c3, "binary", text, Some(bytes)))
  }

  /** A quoted string; the reader ends past the closing quote. */
  function StringToken(data: seq<byte>, c: Cursor): (r: Result<Scan>)
    requires c.pos <= |data|
    ensures r.Ok? ==> c.pos < r.value.cur.pos <= |data|
  {
    var c1 :- NextChar(data, c.pos);
    var s :- LexString(data, c1, "");
    var c2 :- NextChar(data, s.cur.pos);
    Ok(Scan(c2, "string", s.text, None))
  }

  /** An identifier's token: "true", "false" or "null" in any letter case,
      else "identifier". */
  function WordToken(w: string): (t: string)
    ensures t in {"true", "false", "null", "identifier"}
  {
    var lower := LowerAll(w);
    if lower == "false" then "false"
    else if lower == "null" then "null"
    else if lower == "true" then "true"
    else "identifier"
  }

  /** `getToken`: skip whitespace, then read one token. Any other
      character is a token of its own. */
  function GetToken(data: seq<byte>, c: Cursor): (r: Result<Scan>)
    requires c.pos <= |data|
    ensures r.Ok? ==> c.pos < r.value.cur.pos <= |data|
  {
    var c1 :- SkipSpace(data, c);
    TokenAt(data, c1)
  }

  /** The token that starts with the lookahead character. */
  function TokenAt(data: seq<byte>, c: Cursor): (r: Result<Scan>)
    requires c.pos <= |data|
    ensures r.Ok? ==> c.pos < r.value.cur.pos <= |data|
  {
    var n := c.next;
    if n == '"' then StringToken(data, c)
    else if IsDigit(n) || n == '-' then
      var d :- LexNumber(data, c);
      Ok(Scan(d.cur, "number", d.text, None))
    else if IsLetter(n) || n == '_' then
      var w :- LexWord(data, c, "");
      Ok(Scan(w.cur, WordToken(w.text), w.text, None))
    else if n == '*' then BinaryToken(data, c)
    else
      var c1 :- NextChar(data, c.pos);
      Ok(Scan(c1, [n], "", None))
  }

  predicate HasDigit(s: string)
  {
    exists k :: 0 <= k < |s| && IsDigit(s[k])
  }

  /** `Double.parseDouble` accepts a number token exactly when there is a
      digit before the exponent and, if there is an exponent, one after. */
  predicate DoubleSyntax(t: string)
  {
    if 'e' in t then
      var k := IndexOf(t, 'e');
      HasDigit(t[..k]) && HasDigit(t[k + 1..])
    else HasDigit(t)
  }

  function IndexOf(s: string, c: char): (k: nat)
    requires c in s
    ensures k < |s| && s[k] == c && c !in s[..k]
  {
    if s[0] == c then 0 else 1 + IndexOf(s[1..], c)
  }

  /** A number token's value: a Double when it has a '.', else a Long. */
  function NumberValue(t: string): (r: Result<Value>)
    ensures r.Ok? ==> ('.' in t <==> r.value.Float?)
    ensures r.Ok? ==> r.value.Float? || r.value.Long?
  {
    if '.' in t then
      if DoubleSyntax(t) then Ok(Float(t)) else Err(NumberFormat(t))
    else
      var n :- LongOf(t);
      Ok(Long(n))
  }

  /** `getValue` with the current token in `s`. */
  function ParseValue(data: seq<byte>, s: Scan): (r: Result<Parsed>)
    requires s.cur.pos <= |data|
    ensures r.Ok? ==> s.cur.pos <= r.value.scan.cur.pos <= |data|
    decreases |data| - s.cur.pos, 0
  {
    if s.token == "end" then Ok(Parsed(Null, s))
    else if s.token == "string" then Ok(Parsed(Str(s.str), s))
    else if s.token == "number" then
      var v :- NumberValue(s.str);
      Ok(Parsed(v, s))
    else if s.token == "{" then
      var s1 :- GetToken(data, s.cur);
      ParseEntries(data, s1, [])
    else if s.token == "[" then
      var s1 :- GetToken(data, s.cur);
      ParseItems(data, s1, [])
    else if s.token == "true" then Ok(Parsed(Bool(true), s))
    else if s.token == "false" then Ok(Parsed(Bool(false), s))
    else if s.token == "null" then Ok(Parsed(Null, s))
    else if s.token == "binary" then
      Ok(Parsed(if s.file.Some? then Stream(s.file.value) else Null, s))
    else Err(StreamError("StreamSyntaxToken", [Str(s.token)]))
  }

  /** The body of a map: `name : value` pairs, each name a string or an
      identifier, with optional commas, until '}'. */
  function ParseEntries(data: seq<byte>, s: Scan, acc: seq<Entry>): (r: Result<Parsed>)
    requires s.cur.pos <= |data|
    ensures r.Ok? ==> s.cur.pos <= r.value.scan.cur.pos <= |data|
    decreases |data| - s.cur.pos, 1
  {
    if s.token == "}" then Ok(Parsed(Obj(acc), s))
    else if s.token != "string" && s.token != "identifier" then
      Err(StreamError("StreamSyntaxName", [Str(s.token)]))
    else
      var s1 :- GetToken(data, s.cur);
      if s1.token != ":" then Err(StreamError("StreamSyntaxColon", [Str(s1.token)]))
      else
        var s2 :- GetToken(data, s1.cur);
        var p :- ParseValue(data, s2);
        var s3 :- GetToken(data, p.scan.cur);
        var s4 :- SkipComma(data, s3);
        ParseEntries(data, s4, Put(acc, s.str, p.value))
  }

  /** The body of an array: values with optional commas, until ']'. */
  function ParseItems(data: seq<byte>, s: Scan, acc: seq<Value>): (r: Result<Parsed>)
    requires s.cur.pos <= |data|
    ensures r.Ok? ==> s.cur.pos <= r.value.scan.cur.pos <= |data|
    decreases |data| - s.cur.pos, 1
  {
    if s.token == "]" then Ok(Parsed(Arr(acc), s))
    else
      var p :- ParseValue(data, s);
      var s1 :- GetToken(data, p.scan.cur);
      var s2 :- SkipComma(data, s1);
      ParseItems(data, s2, acc + [p.value])
  }

  /** A ',' token is read past; anything else is kept. */
  function SkipComma(data: seq<byte>, s: Scan): (r: Result<Scan>)
    requires s.cur.pos <= |data|
    ensures r.Ok? ==> s.cur.pos <= r.value.cur.pos <= |data|
    ensures r.Ok? && s.token != "," ==> r.value == s
  {
    if s.token == "," then GetToken(data, s.cur) else Ok(s)
  }

  /** Exceptions other than IMuException leave `get` as StreamGet with
      their message, and `put` as StreamPut. */
  function Wrap(id: string, r: Failure): Failure
  {
    if r.Runtime? then StreamError(id, [Str(r.message)]) else r
  }

  /** `get`: read the character after the previous message, one token and
      the value it starts. */
  function ReadMessage(data: seq<byte>, c: Cursor): (r: Result<Parsed>)
    requires c.pos <= |data|
    ensures r.Ok? ==> c.pos < r.value.scan.cur.pos <= |data|
    ensures r.Err? ==> !r.error.Runtime?
  {
    var body := ReadBody(data, c);
    if body.Err? then Err(Wrap("StreamGet", body.error)) else body
  }

  function ReadBody(data: seq<byte>, c: Cursor): (r: Result<Parsed>)
    requires c.pos <= |data|
    ensures r.Ok? ==> c.pos < r.value.scan.cur.pos <= |data|
  {
    var c1 :- NextChar(data, c.pos);
    var s :- GetToken(data, c1);
    ParseValue(data, s)
  }

  // ---------------------------------------------------------------------
  // Writing

  /** What goes to the MixedOutputStream: characters, and raw bytes for the
      contents of byte sources. */
  datatype OutItem = Text(c: char) | Raw(b: byte)

  function Chars(s: string): (r: seq<OutItem>)
    ensures |r| == |s|
  {
    if s == [] then [] else [Text(s[0])] + Chars(s[1..])
  }

  function Raws(bs: seq<byte>): (r: seq<OutItem>)
    ensures |r| == |bs|
  {
    if bs == [] then [] else [Raw(bs[0])] + Raws(bs[1..])
  }

  /** `putLine`. */
  function Line(): seq<OutItem>
  {
    [Text('\r'), Text('\n')]
  }

  /** `putIndent(n)`. */
  function Tabs(n: nat): (r: seq<OutItem>)
    ensures |r| == n
  {
    if n == 0 then [] else Tabs(n - 1) + [Text('\t')]
  }

  /** The characters of a string with '"' and '\' escaped by a backslash. */
  function Escaped(s: string): (r: seq<OutItem>)
  {
    if s == [] then []
    else (if s[0] == '"' || s[0] == '\\' then [Text('\\')] else []) + [Text(s[0])] + Escaped(s[1..])
  }

  /** `putString`. */
  function Quoted(s: string): seq<OutItem>
  {
    [Text('"')] + Escaped(s) + [Text('"')]
  }

  function Zeros(n: nat): (r: seq<byte>)
    ensures |r| == n && forall i :: 0 <= i < n ==> r[i] == 0
  {
    if n == 0 then [] else Zeros(n - 1) + [0]
  }

  /** The `n` bytes a block of length `n` carries for a source holding
      `src`: the source's bytes, cut at `n` or padded with zeros. */
  function Frame(src: seq<byte>, n: nat): (r: seq<byte>)
  {
    if n <= |src| then src[..n] else src + Zeros(n - |src|)
  }

  /** `putBytes(n, source)`: header `*n` and a line end, then the frame. */
  function Block(src: seq<byte>, n: nat): seq<OutItem>
  {
    Chars("*" + DecimalText(n)) + Line() + Raws(Frame(src, n))
  }

  /** What a write produced before it finished or threw. */
  datatype Written = Written(items: seq<OutItem>, outcome: Outcome)

  /** `putValue(v, indent)`. A map's entries are written in the order of its
      association list. */
  function Emit(v: Value, indent: nat): (w: Written)
    decreases v, 1
  {
    match v
    case Null => Written(Chars("null"), Pass)
    case Str(s) => Written(Quoted(s), Pass)
    case Int(i) => Written(Chars(DecimalText(i)), Pass)
    case Long(l) => Written(Chars(DecimalText(l)), Pass)
    case Float(t) => Written(Chars(t), Pass)
    case Obj(es) => Enclose('{', EmitEntries(es, indent + 1), indent, '}')
    case Arr(xs) => Enclose('[', EmitItems(xs, indent + 1), indent, ']')
    case Bool(b) => Written(Chars(if b then "true" else "false"), Pass)
    case File(path, readable, length, contents) =>
      if readable then Written(Block(contents, length), Pass)
      else Written([], Fail(Runtime("java.io.FileNotFoundException", path)))
    case Stream(d) => Written(Block(d, |d|), Pass)
    case Other(n) => Written([], Fail(StreamError("StreamType", [Str(n)])))
  }

  /** A container: the opening bracket and a line end, the body, and, when
      the body was written in full, the closing bracket at the parent's
      indentation. */
  function Enclose(open: char, body: Written, indent: nat, close: char): (w: Written)
  {
    var head := [Text(open)] + Line();
    if body.outcome.Pass? then Written(head + body.items + Tabs(indent) + [Text(close)], Pass)
    else Written(head + body.items, body.outcome)
  }

  /** After an element: a comma unless it is the last one, then a line end. */
  function Separator(last: bool): seq<OutItem>
  {
    (if last then [] else [Text(',')]) + Line()
  }

  /** `putObject`'s loop: each entry on its own line at `indent` tabs. */
  function EmitEntries(es: seq<Entry>, indent: nat): (w: Written)
    decreases es, 0
  {
    if es == [] then Written([], Pass)
    else
      var head := Tabs(indent) + Quoted(es[0].key) + Chars(" : ");
      var w := Emit(es[0].value, indent);
      if w.outcome.Fail? then Written(head + w.items, w.outcome)
      else
        var rest := EmitEntries(es[1..], indent);
        Written(head + w.items + Separator(|es| == 1) + rest.items, rest.outcome)
  }

  /** `putArray`'s loop: each element on its own line at `indent` tabs. */
  function EmitItems(xs: seq<Value>, indent: nat): (w: Written)
    decreases xs, 0
  {
    if xs == [] then Written([], Pass)
    else
      var w := Emit(xs[0], indent);
      if w.outcome.Fail? then Written(Tabs(indent) + w.items, w.outcome)
      else
        var rest := EmitItems(xs[1..], indent);
        Written(Tabs(indent) + w.items + Separator(|xs| == 1) + rest.items, rest.outcome)
  }

  /** `put`: the value and a final line end; a failure other than an
      IMuException becomes StreamPut. */
  function WriteMessage(v: Value): (w: Written)
  {
    var body := Emit(v, 0);
    if body.outcome.Pass? then Written(body.items + Line(), Pass)
    else Written(body.items, Fail(Wrap("StreamPut", body.outcome.error)))
  }
}
