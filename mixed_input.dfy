/** The byte side of a connection: an InputStream over the bytes it will
    deliver, and MixedInputStream, which reads either raw bytes or one
    character coded in one to three bytes (a UTF-8 subset). */
module MixedInput {
  import opened Values
  import opened IMuErrors

  function Min(a: int, b: int): int { if a <= b then a else b }

  /** An InputStream: `data` is everything it will ever deliver, `pos` how
      much of it has been taken. */
  class ByteSource {
    const data: seq<byte>
    var pos: nat

    predicate Valid()
      reads this
    {
      pos <= |data|
    }

    constructor (data: seq<byte>)
      ensures Valid() && this.data == data && pos == 0
    {
      this.data := data;
      pos := 0;
    }

    /** `read()`: the next byte, or -1 once everything has been taken. */
    method ReadByte() returns (b: int)
      requires Valid()
      modifies this
      ensures Valid()
      ensures old(pos) < |data| ==> b == data[old(pos)] as int && pos == old(pos) + 1
      ensures old(pos) == |data| ==> b == -1 && pos == old(pos)
    {
      if pos == |data| {
        b := -1;
      } else {
        b := data[pos] as int;
        pos := pos + 1;
      }
    }

    /** `read(buffer, 0, need)`: as many of the next `need` bytes as there
        are (the count in `done`), or -1 once everything has been taken. */
    method Read(need: int) returns (chunk: seq<byte>, done: int)
      requires Valid() && need > 0
      modifies this
      ensures Valid()
      ensures old(pos) == |data| ==> done == -1 && chunk == [] && pos == old(pos)
      ensures old(pos) < |data| ==>
        done == |chunk| == Min(need, |data| - old(pos)) && pos == old(pos) + done
        && chunk == data[old(pos)..pos]
    {
      if pos == |data| {
        chunk, done := [], -1;
      } else {
        done := Min(need, |data| - pos);
        chunk := data[pos..pos + done];
        pos := pos + done;
      }
    }
  }

  /** The outcome of `readChar`: -1 at the end of input, a UTF-16 code unit,
      or an exception; `end` is where the underlying stream then stands. */
  datatype ReadChar =
    | EndOfInput
    | Decoded(unit: int, end: nat)
    | Broken(error: Failure, end: nat)

  function CharacterError(id: string): Failure
  {
    IMu(NewExc(id, []))
  }

  function StartError(b: int): Failure
    requires 0 <= b < 0x100
  {
    IMu(NewExc("InputCharacterStart", [Int(b)]))
  }

  /** What `readChar` does with the input standing at `pos`. The lead byte
      decides how many continuation bytes follow: 0xxxxxxx none, 110xxxxx
      one, 1110xxxx two; its payload is `b & 0x7F`, `b & 0x1F` or `b & 0x0F`,
      written here as remainders. */
  function DecodeChar(data: seq<byte>, pos: nat): (r: ReadChar)
    ensures r.EndOfInput? <==> pos >= |data|
    ensures r.Decoded? ==> 0 <= r.unit < 0x10000 && pos < r.end <= |data| && r.end <= pos + 3
    ensures r.Broken? ==> pos < r.end <= |data|
  {
    if pos >= |data| then EndOfInput
    else
      var b := data[pos] as int;
      if b < 0x80 then Continue(data, pos + 1, b, 0)
      else if 0xC0 <= b < 0xE0 then Continue(data, pos + 1, b % 0x20, 1)
      else if 0xE0 <= b < 0xF0 then Continue(data, pos + 1, b % 0x10, 2)
      else Broken(StartError(b), pos + 1)
  }

  /** The loop over the `n` continuation bytes still to read, each of the
      form 10xxxxxx and contributing six bits (`v <<= 6; v |= b & 0x3F`),
      followed by the `Character.toChars` check that the value is a single
      UTF-16 code unit. */
  function Continue(data: seq<byte>, pos: nat, v: int, n: nat): (r: ReadChar)
    requires 0 <= v && pos <= |data|
    ensures r.Decoded? ==> 0 <= r.unit < 0x10000 && r.end == pos + n && r.end <= |data|
    ensures r.Broken? ==> pos <= r.end <= |data| && r.end <= pos + n
    ensures !r.EndOfInput?
    decreases n
  {
    if n == 0 then
      if v > 0x10FFFF then Broken(Runtime("java.lang.IllegalArgumentException", ""), pos)
      else if v >= 0x10000 then Broken(CharacterError("InputCharacterMulti"), pos)
      else Decoded(v, pos)
    else if pos >= |data| then Broken(CharacterError("InputCharacterTruncated"), pos)
    else
      var b := data[pos] as int;
      if !(0x80 <= b < 0xC0) then Broken(CharacterError("InputCharacterCorrupted"), pos + 1)
      else Continue(data, pos + 1, v * 0x40 + b % 0x40, n - 1)
  }

  class MixedInputStream {
    const source: ByteSource

    constructor (source: ByteSource)
      ensures this.source == source
    {
      this.source := source;
    }

    /** `readChar`, proved against `DecodeChar`: the lead byte. */
    method ReadChar() returns (r: ReadChar)
      requires source.Valid()
      modifies source
      ensures source.Valid()
      ensures r == DecodeChar(source.data, old(source.pos))
      ensures source.pos == if r.EndOfInput? then old(source.pos) else r.end
    {
      var b := source.ReadByte();
      if b < 0 {
        return EndOfInput;
      }
      if b < 0x80 {
        r := ReadContinuation(b, 0);
      } else if 0xC0 <= b < 0xE0 {
        r := ReadContinuation(b % 0x20, 1);
      } else if 0xE0 <= b < 0xF0 {
        r := ReadContinuation(b % 0x10, 2);
      } else {
        r := Broken(StartError(b), source.pos);
      }
    }

    /** The rest of `readChar`: the loop over `n` continuation bytes and the
        `Character.toChars` check, proved against `Continue`. */
    method ReadContinuation(v0: int, n: nat) returns (r: ReadChar)
      requires source.Valid() && 0 <= v0
      modifies source
      ensures source.Valid()
      ensures r == Continue(source.data, old(source.pos), v0, n)
      ensures source.pos == r.end
    {
      var v := v0;
      var i := 0;
      while i < n
        invariant source.Valid() && 0 <= i <= n && 0 <= v
        invariant Continue(source.data, source.pos, v, n - i) == Continue(source.data, old(source.pos), v0, n)
      {
        var b := source.ReadByte();
        if b < 0 {
          return Broken(CharacterError("InputCharacterTruncated"), source.pos);
        }
        if !(0x80 <= b < 0xC0) {
          return Broken(CharacterError("InputCharacterCorrupted"), source.pos);
        }
        v := v * 0x40 + b % 0x40;
        i := i + 1;
      }
      if v > 0x10FFFF {
        return Broken(Runtime("java.lang.IllegalArgumentException", ""), source.pos);
      }
      if v >= 0x10000 {
        return Broken(CharacterError("InputCharacterMulti"), source.pos);
      }
      return Decoded(v, source.pos);
    }

    /** `read(buffer, 0, need)`, passed through to the underlying stream. */
    method Read(need: int) returns (chunk: seq<byte>, done: int)
      requires source.Valid() && need > 0
      modifies source
      ensures source.Valid()
      ensures old(source.pos) == |source.data| ==> done == -1 && chunk == [] && source.pos == old(source.pos)
      ensures old(source.pos) < |source.data| ==>
        done == |chunk| == Min(need, |source.data| - old(source.pos))
        && source.pos == old(source.pos) + done && chunk == source.data[old(source.pos)..source.pos]
    {
      chunk, done := source.Read(need);
    }
  }

  // ---------------------------------------------------------------------
  // Properties

  /** A byte below 0x80 is a character on its own. */
  lemma AsciiByte(data: seq<byte>, pos: nat)
    requires pos < |data| && data[pos] < 0x80
    ensures DecodeChar(data, pos) == Decoded(data[pos] as int, pos + 1)
  {
  }

  /** A continuation byte or a lead byte of four or more bytes cannot start
      a character; the exception carries the byte. */
  lemma BadLeadByte(data: seq<byte>, pos: nat)
    requires pos < |data| && (0x80 <= data[pos] < 0xC0 || 0xF0 <= data[pos])
    ensures DecodeChar(data, pos) == Broken(StartError(data[pos] as int), pos + 1)
    ensures StartError(data[pos] as int).exc.args == Some([Int(data[pos] as int)])
  {
  }

  /** Input that ends inside a sequence is truncated, a following byte that
      is not 10xxxxxx is corrupt. */
  lemma ContinuationErrors(data: seq<byte>, pos: nat)
    requires pos < |data| && 0xC0 <= data[pos] < 0xF0
    ensures pos + 1 == |data| ==> DecodeChar(data, pos) == Broken(CharacterError("InputCharacterTruncated"), pos + 1)
    ensures pos + 1 < |data| && !(0x80 <= data[pos + 1] < 0xC0) ==>
      DecodeChar(data, pos) == Broken(CharacterError("InputCharacterCorrupted"), pos + 2)
  {
  }

  /** The payload of `n` more continuation bytes on top of `v` stays below
      0x10000 when `v` has at most 16 - 6n bits. */
  lemma {:induction false} ContinueFits(data: seq<byte>, pos: nat, v: int, n: nat, bound: int)
    requires 0 <= v < bound && n <= 2
    requires n == 0 ==> bound == 0x10000
    requires n == 1 ==> bound == 0x400
    requires n == 2 ==> bound == 0x10
    requires pos <= |data|
    ensures Continue(data, pos, v, n).Decoded? || Continue(data, pos, v, n).Broken?
    ensures Continue(data, pos, v, n).Broken? ==>
      Continue(data, pos, v, n).error in {CharacterError("InputCharacterTruncated"), CharacterError("InputCharacterCorrupted")}
    decreases n
  {
    if n > 0 && pos < |data| && 0x80 <= data[pos] < 0xC0 {
      var b := data[pos] as int;
      ContinueFits(data, pos + 1, v * 0x40 + b % 0x40, n - 1, bound * 0x40);
    }
  }

  /** `InputCharacterMulti` (and the IllegalArgumentException of
      `Character.toChars`) can never be thrown: at most 16 payload bits are
      ever collected. The only failures are a bad lead byte, truncation and
      a corrupt continuation byte. */
  lemma NeverMulti(data: seq<byte>, pos: nat)
    ensures DecodeChar(data, pos).Broken? ==>
      DecodeChar(data, pos).error.IMu? &&
      DecodeChar(data, pos).error.exc.id in {"InputCharacterStart", "InputCharacterTruncated", "InputCharacterCorrupted"}
  {
    if pos < |data| {
      var b := data[pos] as int;
      if b < 0x80 {
        ContinueFits(data, pos + 1, b, 0, 0x10000);
      } else if 0xC0 <= b < 0xE0 {
        ContinueFits(data, pos + 1, b % 0x20, 1, 0x400);
      } else if 0xE0 <= b < 0xF0 {
        ContinueFits(data, pos + 1, b % 0x10, 2, 0x10);
      }
    }
  }

  /** Overlong forms are accepted: 0xC0 0x80 is a second spelling of 0. */
  lemma OverlongAccepted()
    ensures DecodeChar([0xC0, 0x80], 0) == Decoded(0, 2)
    ensures DecodeChar([0xE0, 0x80, 0x81], 0) == Decoded(1, 3)
  {
  }

  /** The standard UTF-8 coding of a character below 0x10000: the reference
      the decoder is checked against. */
  function EncodeChar(c: char): (bs: seq<byte>)
    requires c as int < 0x10000
    ensures 1 <= |bs| <= 3
  {
    var u := c as int;
    if u < 0x80 then [u as byte]
    else if u < 0x800 then [(0xC0 + u / 0x40) as byte, (0x80 + u % 0x40) as byte]
    else [(0xE0 + u / 0x1000) as byte, (0x80 + u / 0x40 % 0x40) as byte, (0x80 + u % 0x40) as byte]
  }

  /** `readChar` decodes what `EncodeChar` codes, consuming exactly its bytes,
      whatever follows. */
  lemma DecodeEncoded(data: seq<byte>, pos: nat, c: char)
    requires c as int < 0x10000
    requires pos + |EncodeChar(c)| <= |data| && data[pos..pos + |EncodeChar(c)|] == EncodeChar(c)
    ensures DecodeChar(data, pos) == Decoded(c as int, pos + |EncodeChar(c)|)
  {
    var e := EncodeChar(c);
    var u := c as int;
    assert data[pos] == e[0];
    if u < 0x80 {
    } else if u < 0x800 {
      assert data[pos + 1] == e[1];
      DecodeTwo(data, pos, u);
    } else {
      assert data[pos + 1] == e[1];
      assert data[pos + 2] == e[2];
      DecodeThree(data, pos, u);
    }
  }

  lemma DecodeTwo(data: seq<byte>, pos: nat, u: int)
    requires 0x80 <= u < 0x800 && pos + 2 <= |data|
    requires data[pos] as int == 0xC0 + u / 0x40 && data[pos + 1] as int == 0x80 + u % 0x40
    ensures DecodeChar(data, pos) == Decoded(u, pos + 2)
  {
    TwoBytes(u);
    assert Continue(data, pos + 2, u / 0x40 * 0x40 + u % 0x40, 0) == Decoded(u, pos + 2);
  }

  lemma DecodeThree(data: seq<byte>, pos: nat, u: int)
    requires 0x800 <= u < 0x10000 && pos + 3 <= |data|
    requires data[pos] as int == 0xE0 + u / 0x1000 && data[pos + 1] as int == 0x80 + u / 0x40 % 0x40
    requires data[pos + 2] as int == 0x80 + u % 0x40
    ensures DecodeChar(data, pos) == Decoded(u, pos + 3)
  {
    ThreeBytes(u);
    assert Continue(data, pos + 3, (u / 0x1000 * 0x40 + u / 0x40 % 0x40) * 0x40 + u % 0x40, 0) == Decoded(u, pos + 3);
  }

  lemma TwoBytes(u: int)
    requires 0x80 <= u < 0x800
    ensures 0xC0 <= 0xC0 + u / 0x40 < 0xE0 && (0xC0 + u / 0x40) % 0x20 == u / 0x40
    ensures 0x80 <= 0x80 + u % 0x40 < 0xC0 && (0x80 + u % 0x40) % 0x40 == u % 0x40
    ensures u / 0x40 * 0x40 + u % 0x40 == u
  {
  }

  lemma ThreeBytes(u: int)
    requires 0x800 <= u < 0x10000
    ensures 0xE0 <= 0xE0 + u / 0x1000 < 0xF0 && (0xE0 + u / 0x1000) % 0x10 == u / 0x1000
    ensures 0x80 <= 0x80 + u / 0x40 % 0x40 < 0xC0 && (0x80 + u / 0x40 % 0x40) % 0x40 == u / 0x40 % 0x40
    ensures 0x80 <= 0x80 + u % 0x40 < 0xC0 && (0x80 + u % 0x40) % 0x40 == u % 0x40
    ensures (u / 0x1000 * 0x40 + u / 0x40 % 0x40) * 0x40 + u % 0x40 == u
  {
  }
}
