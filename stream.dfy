/** com.kesoftware.imu.Stream: one connection's reader and writer. The
    reader keeps one character of lookahead (`next`) and the current token
    (`token`, `str`, `file`); the writer appends to the output. Every method
    is proved against the functions of WireFormat. */
module Streams {
  import opened Values
  import opened IMuErrors
  import opened MixedInput
  import opened WireFormat

  /** A write appended what `w` says to the output that was `before`. */
  predicate Extends(before: seq<OutItem>, w: Written, after: seq<OutItem>, o: Outcome)
  {
    after == before + w.items && o == w.outcome
  }

  class Stream {
    const input: MixedInputStream
    const blockSize: int
    var next: char
    var token: string
    var str: string
    var file: Option<seq<byte>>
    var output: seq<OutItem>

    predicate Valid()
      reads this, input.source
    {
      input.source.Valid() && blockSize > 0
    }

    /** Everything the connection will deliver. */
    function Data(): seq<byte>
    {
      input.source.data
    }

    function Cur(): Cursor
      reads this, input.source
    {
      Cursor(input.source.pos, next)
    }

    function Scanned(): Scan
      reads this, input.source
    {
      Scan(Cur(), token, str, file)
    }

    /** `new Stream(socket)` over the socket's input, with the class's block
        size; the token starts out empty (null in Java). */
    constructor (input: MixedInputStream, blockSize: int)
      requires input.source.Valid() && blockSize > 0
      ensures Valid() && this.input == input && this.blockSize == blockSize
      ensures next == ' ' && token == "" && str == "" && file == None && output == []
    {
      this.input := input;
      this.blockSize := blockSize;
      next := ' ';
      token := "";
      str := "";
      file := None;
      output := [];
    }

    // -------------------------------------------------------------------
    // Reading

    /** `getNext`. */
    method GetNext() returns (o: Outcome)
      requires Valid()
      modifies this, input.source
      ensures Valid()
      ensures Follows(o, NextChar(Data(), old(input.source.pos)), Cur())
      ensures token == old(token) && str == old(str) && file == old(file) && output == old(output)
    {
      var c := input.ReadChar();
      if c.EndOfInput? {
        return Fail(StreamError("StreamEOF", [Str("character")]));
      }
      if c.Broken? {
        return Fail(c.error);
      }
      if 0xD800 <= c.unit < 0xE000 {
        return Fail(Unmodelled("surrogate code unit"));
      }
      next := c.unit as char;
      return Pass;
    }

    /** The whitespace loop of `getToken`. */
    method SkipSpace() returns (o: Outcome)
      requires Valid()
      modifies this, input.source
      ensures Valid()
      ensures Follows(o, WireFormat.SkipSpace(Data(), old(Cur())), Cur())
      ensures token == old(token) && str == old(str) && file == old(file) && output == old(output)
    {
      o := Pass;
      while IsWhitespace(next)
        invariant Valid() && o == Pass
        invariant token == old(token) && str == old(str) && file == old(file) && output == old(output)
        invariant WireFormat.SkipSpace(Data(), Cur()) == WireFormat.SkipSpace(Data(), old(Cur()))
        decreases |Data()| - input.source.pos
      {
        o := GetNext();
        if o.Fail? {
          return;
        }
      }
    }

    /** A digit loop of the number and binary tokens, appending to `str`. */
    method ReadDigits() returns (o: Outcome)
      requires Valid()
      modifies this, input.source
      ensures Valid()
      ensures Follows(o, LexDigits(Data(), old(Cur()), old(str)), Lexed(Cur(), str))
      ensures token == old(token) && file == old(file) && output == old(output)
    {
      o := Pass;
      while IsDigit(next)
        invariant Valid() && o == Pass
        invariant token == old(token) && file == old(file) && output == old(output)
        invariant LexDigits(Data(), Cur(), str) == LexDigits(Data(), old(Cur()), old(str))
        decreases |Data()| - input.source.pos
      {
        str := str + [next];
        o := GetNext();
        if o.Fail? {
          return;
        }
      }
    }

    /** The identifier loop, appending to `str`. */
    method ReadWord() returns (o: Outcome)
      requires Valid()
      modifies this, input.source
      ensures Valid()
      ensures Follows(o, LexWord(Data(), old(Cur()), old(str)), Lexed(Cur(), str))
      ensures token == old(token) && file == old(file) && output == old(output)
    {
      o := Pass;
      while IsLetter(next) || IsDigit(next) || next == '_'
        invariant Valid() && o == Pass
        invariant token == old(token) && file == old(file) && output == old(output)
        invariant LexWord(Data(), Cur(), str) == LexWord(Data(), old(Cur()), old(str))
        decreases |Data()| - input.source.pos
      {
        str := str + [next];
        o := GetNext();
        if o.Fail? {
          return;
        }
      }
    }

    /** The loop to the end of a binary header line. */
    method SkipLine() returns (o: Outcome)
      requires Valid()
      modifies this, input.source
      ensures Valid()
      ensures Follows(o, WireFormat.SkipLine(Data(), old(Cur())), Cur())
      ensures token == old(token) && str == old(str) && file == old(file) && output == old(output)
    {
      o := Pass;
      while next != '\n'
        invariant Valid() && o == Pass
        invariant token == old(token) && str == old(str) && file == old(file) && output == old(output)
        invariant WireFormat.SkipLine(Data(), Cur()) == WireFormat.SkipLine(Data(), old(Cur()))
        decreases |Data()| - input.source.pos
      {
        o := GetNext();
        if o.Fail? {
          return;
        }
      }
    }

    /** The hex digits after `\u`, at most four. */
    method ReadHex() returns (hex: string, o: Outcome)
      requires Valid()
      modifies this, input.source
      ensures Valid()
      ensures Follows(o, LexHex(Data(), old(Cur()), "", 0), Lexed(Cur(), hex))
      ensures token == old(token) && str == old(str) && file == old(file) && output == old(output)
    {
      hex := "";
      o := Pass;
      var i := 0;
      while i < 4
        invariant Valid() && 0 <= i <= 4 && |hex| == i && o == Pass
        invariant forall k :: 0 <= k < |hex| ==> IsHexDigit(hex[k])
        invariant (token, str, file, output) == old((token, str, file, output))
        invariant LexHex(Data(), Cur(), hex, i) == LexHex(Data(), old(Cur()), "", 0)
      {
        var digit := next;
        var isHex := true;
        if !IsDigit(next) {
          if !IsLetter(next) {
            isHex := false;
          } else {
            digit := Lower(next);
            isHex := digit <= 'f';
          }
        }
        if !isHex {
          break;
        }
        assert digit == Lower(next) && IsHexDigit(digit);
        HexTurn(Data(), Cur(), hex, i);
        hex := hex + [digit];
        o := GetNext();
        if o.Fail? {
          return;
        }
        i := i + 1;
      }
    }

    /** The backslash handling of the string loop; it rewrites `next`. */
    method Unescape() returns (o: Outcome)
      requires Valid()
      modifies this, input.source
      ensures Valid()
      ensures Follows(o, WireFormat.Unescape(Data(), old(Cur())), Cur())
      ensures token == old(token) && str == old(str) && file == old(file) && output == old(output)
    {
      o := Pass;
      if next == '\\' {
        o := GetNext();
        if o.Fail? {
          return;
        }
        if next == 'b' {
          next := '\U{8}';
        } else if next == 'f' {
          next := '\U{C}';
        } else if next == 'n' {
          next := '\n';
        } else if next == 'r' {
          next := '\r';
        } else if next == 't' {
          next := '\t';
        } else if next == 'u' {
          o := GetNext();
          if o.Fail? {
            return;
          }
          var hex;
          hex, o := ReadHex();
          if o.Fail? {
            return;
          }
          if |hex| == 0 {
            return Fail(StreamError("StreamSyntaxUnicode", []));
          }
          var num := HexValue(hex);
          PowBound(|hex|);
          if 0xD800 <= num < 0xE000 {
            return Fail(Unmodelled("surrogate code unit"));
          }
          next := num as char;
        }
      }
    }

    /** The string loop, appending to `str` up to the closing quote. */
    method ReadString() returns (o: Outcome)
      requires Valid()
      modifies this, input.source
      ensures Valid()
      ensures Follows(o, LexString(Data(), old(Cur()), old(str)), Lexed(Cur(), str))
      ensures token == old(token) && file == old(file) && output == old(output)
    {
      o := Pass;
      while next != '"'
        invariant Valid() && o == Pass
        invariant token == old(token) && file == old(file) && output == old(output)
        invariant LexString(Data(), Cur(), str) == LexString(Data(), old(Cur()), old(str))
        decreases |Data()| - input.source.pos
      {
        o := Unescape();
        if o.Fail? {
          return;
        }
        str := str + [next];
        o := GetNext();
        if o.Fail? {
          return;
        }
      }
    }

    /** The number branch of `getToken`, building the text in `str`. */
    method ReadNumber() returns (o: Outcome)
      requires Valid() && str == ""
      modifies this, input.source
      ensures Valid()
      ensures Follows(o, LexNumber(Data(), old(Cur())), Lexed(Cur(), str))
      ensures token == old(token) && file == old(file) && output == old(output)
    {
      str := str + [next];
      assert str == [old(next)];
      o := GetNext();
      if o.Fail? {
        return;
      }
      o := ReadDigits();
      if o.Fail? {
        return;
      }
      o := ReadFraction();
      if o.Fail? {
        return;
      }
      o := ReadExponent();
    }

    /** The fraction part of a number: '.' and digits. */
    method ReadFraction() returns (o: Outcome)
      requires Valid()
      modifies this, input.source
      ensures Valid()
      ensures Follows(o, LexFraction(Data(), old(Lexed(Cur(), str))), Lexed(Cur(), str))
      ensures token == old(token) && file == old(file) && output == old(output)
    {
      o := Pass;
      if next == '.' {
        str := str + [next];
        o := GetNext();
        if o.Fail? {
          return;
        }
        o := ReadDigits();
      }
    }

    /** The exponent part of a number: "." when there was no fraction, 'e',
        an optional sign and digits. */
    method ReadExponent() returns (o: Outcome)
      requires Valid()
      modifies this, input.source
      ensures Valid()
      ensures Follows(o, LexExponent(Data(), old(Lexed(Cur(), str))), Lexed(Cur(), str))
      ensures token == old(token) && file == old(file) && output == old(output)
    {
      o := Pass;
      if next == 'e' || next == 'E' {
        if '.' !in str {
          str := str + ".";
        }
        str := str + "e";
        o := GetNext();
        if o.Fail? {
          return;
        }
        if next == '+' {
          str := str + "+";
          o := GetNext();
          if o.Fail? {
            return;
          }
        } else if next == '-' {
          str := str + "-";
          o := GetNext();
          if o.Fail? {
            return;
          }
        }
        o := ReadDigits();
      }
    }

    /** The copy of a binary block's bytes, `blockSize` at most per read. */
    method ReadBlock(size: int) returns (bytes: seq<byte>, o: Outcome)
      requires Valid()
      modifies input.source
      ensures Valid()
      ensures Follows(o, ReadRaw(Data(), old(input.source.pos), size), bytes)
      ensures o.Pass? ==> input.source.pos == old(input.source.pos) + |bytes|
    {
      bytes := [];
      var left := size;
      while left > 0
        invariant Valid()
        invariant input.source.pos == old(input.source.pos) + |bytes| <= |Data()|
        invariant bytes == Data()[old(input.source.pos)..input.source.pos]
        invariant left == size - |bytes| && if size > 0 then left >= 0 else bytes == []
      {
        var need := blockSize;
        if need > left {
          need := left;
        }
        var chunk, done := input.Read(need);
        if done <= 0 {
          return [], Fail(StreamError("StreamEOF", [Str("binary")]));
        }
        bytes := bytes + chunk;
        left := left - done;
      }
      assert size > 0 ==> |bytes| == size;
      assert bytes == if size > 0 then Data()[old(input.source.pos)..old(input.source.pos) + size] else [];
      o := Pass;
    }

    /** The binary branch of `getToken`. */
    method ReadBinary() returns (o: Outcome)
      requires Valid() && str == ""
      modifies this, input.source
      ensures Valid()
      ensures Follows(o, BinaryToken(Data(), old(Cur())), Scanned())
      ensures output == old(output)
    {
      token := "binary";
      o := GetNext();
      if o.Fail? {
        return;
      }
      o := ReadDigits();
      if o.Fail? {
        return;
      }
      if |str| == 0 {
        return Fail(StreamError("StreamSyntaxBinary", []));
      }
      var size := LongOf(str);
      if size.Err? {
        return Fail(size.error);
      }
      o := ReadBinaryData(size.value);
    }

    /** The rest of a binary token once its length is known: the end of the
        header line, the bytes, and the character after them. */
    method ReadBinaryData(size: int64) returns (o: Outcome)
      requires Valid() && token == "binary"
      modifies this, input.source
      ensures Valid()
      ensures Follows(o, BinaryData(Data(), old(Cur()), old(str), size), Scanned())
      ensures output == old(output)
    {
      o := SkipLine();
      if o.Fail? {
        return;
      }
      var bytes;
      bytes, o := ReadBlock(size);
      if o.Fail? {
        return;
      }
      file := Some(bytes);
      o := GetNext();
    }

    /** The string branch of `getToken`. */
    method ReadStringToken() returns (o: Outcome)
      requires Valid() && str == "" && file == None
      modifies this, input.source
      ensures Valid()
      ensures Follows(o, StringToken(Data(), old(Cur())), Scanned())
      ensures output == old(output)
    {
      token := "string";
      o := GetNext();
      if o.Fail? {
        return;
      }
      o := ReadString();
      if o.Fail? {
        return;
      }
      o := GetNext();
    }

    /** `getToken`. */
    method GetToken() returns (o: Outcome)
      requires Valid()
      modifies this, input.source
      ensures Valid()
      ensures Follows(o, WireFormat.GetToken(Data(), old(Cur())), Scanned())
      ensures output == old(output)
    {
      o := SkipSpace();
      if o.Fail? {
        return;
      }
      str := "";
      file := None;
      if next == '"' {
        o := ReadStringToken();
      } else if IsDigit(next) || next == '-' {
        token := "number";
        o := ReadNumber();
      } else if IsLetter(next) || next == '_' {
        token := "identifier";
        o := ReadWord();
        if o.Fail? {
          return;
        }
        var lower := LowerAll(str);
        if lower == "false" {
          token := "false";
        } else if lower == "null" {
          token := "null";
        } else if lower == "true" {
          token := "true";
        }
      } else if next == '*' {
        o := ReadBinary();
      } else {
        token := [next];
        o := GetNext();
      }
    }

    /** `getValue`, with the current token already read. */
    method GetValue() returns (v: Value, o: Outcome)
      requires Valid()
      modifies this, input.source
      ensures Valid()
      ensures Follows(o, ParseValue(Data(), old(Scanned())), Parsed(v, Scanned()))
      ensures output == old(output)
      decreases |Data()| - input.source.pos, 0
    {
      v := Null;
      o := Pass;
      if token == "end" {
        return;
      }
      if token == "string" {
        return Str(str), Pass;
      }
      if token == "number" {
        if '.' in str {
          if DoubleSyntax(str) {
            return Float(str), Pass;
          }
          return Null, Fail(NumberFormat(str));
        }
        var n := LongOf(str);
        if n.Err? {
          return Null, Fail(n.error);
        }
        return Long(n.value), Pass;
      }
      if token == "{" {
        o := GetToken();
        if o.Fail? {
          return;
        }
        v, o := GetEntries();
        return;
      }
      if token == "[" {
        o := GetToken();
        if o.Fail? {
          return;
        }
        v, o := GetItems();
        return;
      }
      if token == "true" {
        return Bool(true), Pass;
      }
      if token == "false" {
        return Bool(false), Pass;
      }
      if token == "null" {
        return Null, Pass;
      }
      if token == "binary" {
        return if file.Some? then Stream(file.value) else Null, Pass;
      }
      return Null, Fail(StreamError("StreamSyntaxToken", [Str(token)]));
    }

    /** The loop of `getValue` that reads a map up to '}'. */
    method GetEntries() returns (v: Value, o: Outcome)
      requires Valid()
      modifies this, input.source
      ensures Valid()
      ensures Follows(o, ParseEntries(Data(), old(Scanned()), []), Parsed(v, Scanned()))
      ensures output == old(output)
      decreases |Data()| - input.source.pos, 1
    {
      var entries: seq<Entry> := [];
      v := Null;
      o := Pass;
      while token != "}"
        invariant Valid() && output == old(output) && o == Pass
        invariant old(input.source.pos) <= input.source.pos
        invariant ParseEntries(Data(), Scanned(), entries) == ParseEntries(Data(), old(Scanned()), [])
        decreases |Data()| - input.source.pos
      {
        var name := "";
        if token == "string" {
          name := str;
        } else if token == "identifier" {
          name := str;
        } else {
          return Null, Fail(StreamError("StreamSyntaxName", [Str(token)]));
        }
        o := GetToken();
        if o.Fail? {
          return;
        }
        if token != ":" {
          return Null, Fail(StreamError("StreamSyntaxColon", [Str(token)]));
        }
        o := GetToken();
        if o.Fail? {
          return;
        }
        var item;
        item, o := GetValue();
        if o.Fail? {
          return;
        }
        entries := Values.Put(entries, name, item);
        o := GetToken();
        if o.Fail? {
          return;
        }
        if token == "," {
          o := GetToken();
          if o.Fail? {
            return;
          }
        }
      }
      v := Obj(entries);
    }

    /** The loop of `getValue` that reads an array up to ']'. */
    method GetItems() returns (v: Value, o: Outcome)
      requires Valid()
      modifies this, input.source
      ensures Valid()
      ensures Follows(o, ParseItems(Data(), old(Scanned()), []), Parsed(v, Scanned()))
      ensures output == old(output)
      decreases |Data()| - input.source.pos, 1
    {
      var list: seq<Value> := [];
      v := Null;
      o := Pass;
      while token != "]"
        invariant Valid() && output == old(output) && o == Pass
        invariant old(input.source.pos) <= input.source.pos
        invariant ParseItems(Data(), Scanned(), list) == ParseItems(Data(), old(Scanned()), [])
        decreases |Data()| - input.source.pos
      {
        var item;
        item, o := GetValue();
        if o.Fail? {
          return;
        }
        list := list + [item];
        o := GetToken();
        if o.Fail? {
          return;
        }
        if token == "," {
          o := GetToken();
          if o.Fail? {
            return;
          }
        }
      }
      v := Arr(list);
    }

    /** `get`: one message. */
    method Get() returns (v: Value, o: Outcome)
      requires Valid()
      modifies this, input.source
      ensures Valid()
      ensures Follows(o, ReadMessage(Data(), old(Cur())), Parsed(v, Scanned()))
      ensures output == old(output)
    {
      v := Null;
      o := GetNext();
      if o.Pass? {
        o := GetToken();
        if o.Pass? {
          v, o := GetValue();
        }
      }
      if o.Fail? {
        o := Fail(Wrap("StreamGet", o.error));
      }
    }

    // -------------------------------------------------------------------
    // Writing

    /** `putData(char)`. */
    method PutData(c: char)
      modifies this
      ensures output == old(output) + [Text(c)]
      ensures next == old(next) && token == old(token) && str == old(str) && file == old(file)
    {
      output := output + [Text(c)];
    }

    /** `putData(String)`. */
    method PutText(s: string)
      modifies this
      ensures output == old(output) + Chars(s)
      ensures next == old(next) && token == old(token) && str == old(str) && file == old(file)
    {
      output := output + Chars(s);
    }

    /** `putLine`. */
    method PutLine()
      modifies this
      ensures output == old(output) + Line()
      ensures next == old(next) && token == old(token) && str == old(str) && file == old(file)
    {
      PutData('\r');
      PutData('\n');
    }

    /** `putIndent`. */
    method PutIndent(indent: nat)
      modifies this
      ensures output == old(output) + Tabs(indent)
      ensures next == old(next) && token == old(token) && str == old(str) && file == old(file)
    {
      var i := 0;
      while i < indent
        invariant 0 <= i <= indent
        invariant output == old(output) + Tabs(i)
        invariant (next, token, str, file) == old((next, token, str, file))
      {
        PutData('\t');
        i := i + 1;
      }
    }

    /** `putString`. */
    method PutString(s: string)
      modifies this
      ensures output == old(output) + Quoted(s)
      ensures next == old(next) && token == old(token) && str == old(str) && file == old(file)
    {
      PutData('"');
      ghost var head := output;
      var i := 0;
      while i < |s|
        invariant 0 <= i <= |s|
        invariant output + Escaped(s[i..]) == head + Escaped(s)
        invariant (next, token, str, file) == old((next, token, str, file))
      {
        ghost var before := output;
        assert s[i..][0] == s[i] && s[i..][1..] == s[i + 1..];
        if s[i] == '"' || s[i] == '\\' {
          PutData('\\');
        }
        PutData(s[i]);
        ghost var escape := if s[i] == '"' || s[i] == '\\' then [Text('\\')] else [];
        Assoc(before, escape, [Text(s[i])]);
        Assoc(before, escape + [Text(s[i])], Escaped(s[i + 1..]));
        i := i + 1;
      }
      assert s[i..] == [];
      PutData('"');
      Assoc(old(output), [Text('"')], Escaped(s));
      Assoc(old(output), [Text('"')] + Escaped(s), [Text('"')]);
    }

    /** `putBytes(size, stream)`: header, the stream's bytes up to `size`,
        then zeros for whatever the stream did not have. */
    method PutBytes(size: nat, stream: ByteSource)
      requires Valid() && stream.Valid()
      modifies this, stream
      ensures Valid() && stream.Valid()
      ensures output == old(output) + Block(old(stream.data[stream.pos..]), size)
      ensures next == old(next) && token == old(token) && str == old(str) && file == old(file)
    {
      ghost var src := stream.data[stream.pos..];
      ghost var p0 := stream.pos;
      PutData('*');
      PutText(DecimalText(size));
      PutLine();
      ghost var header := Chars("*" + DecimalText(size)) + Line();
      assert ("*" + DecimalText(size))[0] == '*' && ("*" + DecimalText(size))[1..] == DecimalText(size);
      Assoc(old(output), [Text('*')], Chars(DecimalText(size)));
      Assoc(old(output), Chars("*" + DecimalText(size)), Line());
      assert output == old(output) + header;
      var left := CopyBytes(size, stream);
      ghost var copied := src[..size - left];
      assert stream.data[p0..stream.pos] == copied;
      if left > 0 {
        assert copied == src;
        PadBytes(left);
        Assoc(old(output) + header, Raws(copied), Raws(Zeros(left)));
      }
      FrameOfCopy(src, copied, size);
      Assoc(old(output), header, Raws(Frame(src, size)));
    }

    /** The first loop of `putBytes`: up to `size` bytes from the stream, in
        reads of at most `blockSize`; it stops early at the stream's end and
        returns how many bytes are still owed. */
    method CopyBytes(size: nat, stream: ByteSource) returns (left: nat)
      requires Valid() && stream.Valid()
      modifies this, stream
      ensures Valid() && stream.Valid() && left <= size
      ensures stream.pos == old(stream.pos) + (size - left)
      ensures left > 0 ==> stream.pos == |stream.data|
      ensures output == old(output) + Raws(stream.data[old(stream.pos)..stream.pos])
      ensures next == old(next) && token == old(token) && str == old(str) && file == old(file)
    {
      ghost var p0 := stream.pos;
      left := size;
      while left > 0
        invariant Valid() && stream.Valid() && p0 <= stream.pos
        invariant left == size - (stream.pos - p0) >= 0
        invariant output == old(output) + Raws(stream.data[p0..stream.pos])
        invariant (next, token, str, file) == old((next, token, str, file))
      {
        var need := blockSize;
        if need > left {
          need := left;
        }
        ghost var p1 := stream.pos;
        var data, done := stream.Read(need);
        if done <= 0 {
          return;
        }
        assert stream.data[p0..stream.pos] == stream.data[p0..p1] + data;
        RawsAppend(stream.data[p0..p1], data);
        Assoc(old(output), Raws(stream.data[p0..p1]), Raws(data));
        output := output + Raws(data);
        left := left - done;
      }
    }

    /** The second loop of `putBytes`: `left` zero bytes. */
    method PadBytes(left: nat)
      requires Valid()
      modifies this
      ensures Valid()
      ensures output == old(output) + Raws(Zeros(left))
      ensures next == old(next) && token == old(token) && str == old(str) && file == old(file)
    {
      var owed := left;
      while owed > 0
        invariant 0 <= owed <= left
        invariant output == old(output) + Raws(Zeros(left - owed))
        invariant (next, token, str, file) == old((next, token, str, file))
      {
        var need := blockSize;
        if need > owed {
          need := owed;
        }
        RawsZeros(left - owed, need);
        Assoc(old(output), Raws(Zeros(left - owed)), Raws(Zeros(need)));
        output := output + Raws(Zeros(need));
        owed := owed - need;
      }
    }

    /** `putFile`: the file's length as the block size, its contents as the
        stream; a file that cannot be opened throws. */
    method PutFile(path: string, readable: bool, length: nat, contents: seq<byte>) returns (o: Outcome)
      requires Valid()
      modifies this
      ensures Valid()
      ensures Extends(old(output), Emit(File(path, readable, length, contents), 0), output, o)
      ensures next == old(next) && token == old(token) && str == old(str) && file == old(file)
    {
      if !readable {
        return Fail(Runtime("java.io.FileNotFoundException", path));
      }
      var stream := new ByteSource(contents);
      PutBytes(length, stream);
      o := Pass;
    }

    /** `putStream`: drain the stream into a temporary store to learn its
        length, then write that store as a block. */
    method PutStream(what: ByteSource)
      requires Valid() && what.Valid()
      modifies this, what
      ensures Valid() && what.Valid() && what.pos == |what.data|
      ensures output == old(output) + Block(old(what.data[what.pos..]), |old(what.data[what.pos..])|)
      ensures next == old(next) && token == old(token) && str == old(str) && file == old(file)
    {
      var temp: seq<byte> := [];
      ghost var p0 := what.pos;
      while true
        invariant Valid() && what.Valid() && p0 <= what.pos
        invariant temp == what.data[p0..what.pos]
        invariant output == old(output)
        invariant (next, token, str, file) == old((next, token, str, file))
        decreases |what.data| - what.pos
      {
        ghost var p1 := what.pos;
        var data, done := what.Read(blockSize);
        if done <= 0 {
          break;
        }
        assert what.data[p0..what.pos] == what.data[p0..p1] + data;
        temp := temp + data;
      }
      assert temp == old(what.data[what.pos..]);
      var stream := new ByteSource(temp);
      assert stream.data[stream.pos..] == temp;
      PutBytes(|temp|, stream);
    }

    /** `putValue`. */
    method PutValue(v: Value, indent: nat) returns (o: Outcome)
      requires Valid()
      modifies this
      ensures Valid()
      ensures Extends(old(output), Emit(v, indent), output, o)
      ensures next == old(next) && token == old(token) && str == old(str) && file == old(file)
      decreases v, 0
    {
      o := Pass;
      match v {
        case Null => PutText("null");
        case Str(s) => PutString(s);
        case Int(i) => PutText(DecimalText(i));
        case Long(l) => PutText(DecimalText(l));
        case Float(t) => PutText(t);
        case Obj(es) => o := PutObject(es, indent);
        case Arr(xs) => o := PutArray(xs, indent);
        case Bool(b) => PutText(if b then "true" else "false");
        case File(path, readable, length, contents) => o := PutFile(path, readable, length, contents);
        case Stream(d) =>
          var what := new ByteSource(d);
          PutStream(what);
        case Other(n) => o := Fail(StreamError("StreamType", [Str(n)]));
      }
    }

    /** `putObject`. */
    method PutObject(es: seq<Entry>, indent: nat) returns (o: Outcome)
      requires Valid()
      modifies this
      ensures Valid()
      ensures Extends(old(output), Enclose('{', EmitEntries(es, indent + 1), indent, '}'), output, o)
      ensures next == old(next) && token == old(token) && str == old(str) && file == old(file)
      decreases es, 3
    {
      PutData('{');
      PutLine();
      Assoc(old(output), [Text('{')], Line());
      o := PutEntries(es, indent + 1);
      ghost var body := EmitEntries(es, indent + 1);
      Assoc(old(output), [Text('{')] + Line(), body.items);
      if o.Pass? {
        ghost var mid := output;
        PutIndent(indent);
        PutData('}');
        Assoc(mid, Tabs(indent), [Text('}')]);
        Assoc(old(output) + ([Text('{')] + Line()), body.items, Tabs(indent) + [Text('}')]);
        Assoc(old(output), [Text('{')] + Line() + body.items, Tabs(indent) + [Text('}')]);
        Assoc([Text('{')] + Line() + body.items, Tabs(indent), [Text('}')]);
      }
    }

    /** The loop of `putObject`: one line per entry. */
    method PutEntries(es: seq<Entry>, indent: nat) returns (o: Outcome)
      requires Valid()
      modifies this
      ensures Valid()
      ensures Extends(old(output), EmitEntries(es, indent), output, o)
      ensures next == old(next) && token == old(token) && str == old(str) && file == old(file)
      decreases es, 2
    {
      o := Pass;
      var i := 0;
      while i < |es|
        invariant 0 <= i <= |es| && Valid() && o == Pass
        invariant Append(output, EmitEntries(es[i..], indent)) == Append(old(output), EmitEntries(es, indent))
        invariant (next, token, str, file) == old((next, token, str, file))
      {
        ghost var before := output;
        EntriesStep(es, i, indent);
        o := PutEntry(es[i], indent, i == |es| - 1);
        if o.Fail? {
          return;
        }
        ghost var line := output[|before|..];
        assert output == before + line;
        Assoc(before, line, EmitEntries(es[i + 1..], indent).items);
        i := i + 1;
      }
      assert es[i..] == [];
    }

    /** One turn of `putObject`'s loop: indentation, the quoted key, the
        value and, when the value was written, the separator. */
    method PutEntry(e: Entry, indent: nat, last: bool) returns (o: Outcome)
      requires Valid()
      modifies this
      ensures Valid()
      ensures var w := Emit(e.value, indent);
        o == w.outcome
        && output == old(output) + (Tabs(indent) + Quoted(e.key) + Chars(" : ") + w.items
                                    + (if o.Pass? then Separator(last) else []))
      ensures next == old(next) && token == old(token) && str == old(str) && file == old(file)
      decreases e, 1
    {
      PutIndent(indent);
      PutString(e.key);
      PutText(" : ");
      ghost var head := Tabs(indent) + Quoted(e.key) + Chars(" : ");
      assert output == old(output) + head by {
        Assoc(old(output), Tabs(indent), Quoted(e.key));
        Assoc(old(output), Tabs(indent) + Quoted(e.key), Chars(" : "));
      }
      o := PutValue(e.value, indent);
      ghost var w := Emit(e.value, indent);
      Assoc(old(output), head, w.items);
      if o.Pass? {
        PutSeparator(last);
        Assoc(old(output), head + w.items, Separator(last));
      }
    }

    /** `putArray`. */
    method PutArray(xs: seq<Value>, indent: nat) returns (o: Outcome)
      requires Valid()
      modifies this
      ensures Valid()
      ensures Extends(old(output), Enclose('[', EmitItems(xs, indent + 1), indent, ']'), output, o)
      ensures next == old(next) && token == old(token) && str == old(str) && file == old(file)
      decreases xs, 3
    {
      PutData('[');
      PutLine();
      Assoc(old(output), [Text('[')], Line());
      o := PutItems(xs, indent + 1);
      ghost var body := EmitItems(xs, indent + 1);
      Assoc(old(output), [Text('[')] + Line(), body.items);
      if o.Pass? {
        ghost var mid := output;
        PutIndent(indent);
        PutData(']');
        Assoc(mid, Tabs(indent), [Text(']')]);
        Assoc(old(output) + ([Text('[')] + Line()), body.items, Tabs(indent) + [Text(']')]);
        Assoc(old(output), [Text('[')] + Line() + body.items, Tabs(indent) + [Text(']')]);
        Assoc([Text('[')] + Line() + body.items, Tabs(indent), [Text(']')]);
      }
    }

    /** The loop of `putArray`: one line per element. */
    method PutItems(xs: seq<Value>, indent: nat) returns (o: Outcome)
      requires Valid()
      modifies this
      ensures Valid()
      ensures Extends(old(output), EmitItems(xs, indent), output, o)
      ensures next == old(next) && token == old(token) && str == old(str) && file == old(file)
      decreases xs, 2
    {
      o := Pass;
      var i := 0;
      while i < |xs|
        invariant 0 <= i <= |xs| && Valid() && o == Pass
        invariant Append(output, EmitItems(xs[i..], indent)) == Append(old(output), EmitItems(xs, indent))
        invariant (next, token, str, file) == old((next, token, str, file))
      {
        ghost var before := output;
        ItemsStep(xs, i, indent);
        o := PutItem(xs[i], indent, i == |xs| - 1);
        if o.Fail? {
          return;
        }
        ghost var line := output[|before|..];
        assert output == before + line;
        Assoc(before, line, EmitItems(xs[i + 1..], indent).items);
        i := i + 1;
      }
      assert xs[i..] == [];
    }

    /** One turn of `putArray`'s loop. */
    method PutItem(x: Value, indent: nat, last: bool) returns (o: Outcome)
      requires Valid()
      modifies this
      ensures Valid()
      ensures var w := Emit(x, indent);
        o == w.outcome
        && output == old(output) + (Tabs(indent) + w.items + (if o.Pass? then Separator(last) else []))
      ensures next == old(next) && token == old(token) && str == old(str) && file == old(file)
      decreases x, 1
    {
      PutIndent(indent);
      o := PutValue(x, indent);
      ghost var w := Emit(x, indent);
      Assoc(old(output), Tabs(indent), w.items);
      if o.Pass? {
        PutSeparator(last);
        Assoc(old(output), Tabs(indent) + w.items, Separator(last));
      }
    }

    /** The end of an element's line: a comma unless it is the last. */
    method PutSeparator(last: bool)
      modifies this
      ensures output == old(output) + Separator(last)
      ensures next == old(next) && token == old(token) && str == old(str) && file == old(file)
    {
      if !last {
        PutData(',');
      }
      PutLine();
      Assoc(old(output), if last then [] else [Text(',')], Line());
    }

    /** `put`: one message and its final line end. */
    method Put(v: Value) returns (o: Outcome)
      requires Valid()
      modifies this
      ensures Valid()
      ensures Extends(old(output), WriteMessage(v), output, o)
      ensures next == old(next) && token == old(token) && str == old(str) && file == old(file)
    {
      o := PutValue(v, 0);
      if o.Pass? {
        PutLine();
      } else {
        o := Fail(Wrap("StreamPut", o.error));
      }
    }
  }

  /** What is written when `w` follows `items`. */
  function Append(items: seq<OutItem>, w: Written): Written
  {
    Written(items + w.items, w.outcome)
  }

  /** One turn of `putObject`'s loop: the entry at `i` on its line, then
      the entries after it. */
  lemma EntriesStep(es: seq<Entry>, i: nat, indent: nat)
    requires i < |es|
    ensures var w := Emit(es[i].value, indent);
      var head := Tabs(indent) + Quoted(es[i].key) + Chars(" : ");
      var rest := EmitEntries(es[i + 1..], indent);
      EmitEntries(es[i..], indent)
      == if w.outcome.Fail? then Written(head + w.items, w.outcome)
         else Written(head + w.items + Separator(i == |es| - 1) + rest.items, rest.outcome)
  {
    assert es[i..][0] == es[i] && es[i..][1..] == es[i + 1..];
  }

  /** One turn of `putArray`'s loop. */
  lemma ItemsStep(xs: seq<Value>, i: nat, indent: nat)
    requires i < |xs|
    ensures var w := Emit(xs[i], indent);
      var rest := EmitItems(xs[i + 1..], indent);
      EmitItems(xs[i..], indent)
      == if w.outcome.Fail? then Written(Tabs(indent) + w.items, w.outcome)
         else Written(Tabs(indent) + w.items + Separator(i == |xs| - 1) + rest.items, rest.outcome)
  {
    assert xs[i..][0] == xs[i] && xs[i..][1..] == xs[i + 1..];
  }

  lemma Assoc<T>(a: seq<T>, b: seq<T>, c: seq<T>)
    ensures a + b + c == a + (b + c)
  {
  }

  lemma RawsZeros(k: nat, n: nat)
    ensures Raws(Zeros(k)) + Raws(Zeros(n)) == Raws(Zeros(k + n))
  {
    assert Zeros(k) + Zeros(n) == Zeros(k + n);
    RawsAppend(Zeros(k), Zeros(n));
  }

  lemma {:induction false} RawsAppend(a: seq<byte>, b: seq<byte>)
    ensures Raws(a + b) == Raws(a) + Raws(b)
  {
    if a != [] {
      RawsAppend(a[1..], b);
      assert (a + b)[1..] == a[1..] + b;
    } else {
      assert a + b == b;
    }
  }

  /** What the two loops of `putBytes` write is the frame: the bytes the
      source had, cut at `size`, padded with zeros when it had fewer. */
  lemma FrameOfCopy(src: seq<byte>, copied: seq<byte>, size: nat)
    requires |copied| <= |src| && copied == src[..|copied|] && |copied| <= size
    requires |copied| < size ==> copied == src
    ensures Raws(copied) + (if |copied| < size then Raws(Zeros(size - |copied|)) else []) == Raws(Frame(src, size))
  {
    if |copied| < size {
      RawsAppend(copied, Zeros(size - |copied|));
    }
  }

  /** One digit of the `\u` loop: it is kept and the next character read. */
  lemma HexTurn(data: seq<byte>, c: Cursor, acc: string, i: nat)
    requires c.pos <= |data| && i < 4 && |acc| == i
    requires forall k :: 0 <= k < |acc| ==> IsHexDigit(acc[k])
    requires IsDigit(c.next) || (IsLetter(c.next) && Lower(c.next) <= 'f')
    ensures NextChar(data, c.pos).Err? ==> LexHex(data, c, acc, i) == Err(NextChar(data, c.pos).error)
    ensures NextChar(data, c.pos).Ok? ==>
      LexHex(data, c, acc, i) == LexHex(data, NextChar(data, c.pos).value, acc + [Lower(c.next)], i + 1)
  {
  }
}
