# IMu client API (com.kesoftware.imu) in Dafny

This project models the client side of the IMu protocol in Dafny and proves what its code promises.

**Values.** The values that travel between client and server (`Value`, in `values.dfy`) are:
- null, Boolean, Integer, Long, Double (kept as its text) and String;
- `Map` (a HashMap of string keys, as an ordered list of entries);
- `Object[]`/`ArrayList`;
- File and InputStream;
- any other object, known only by its class name.

**Codec.** The wire codec has two parts:
- **Reader.** `wire_format.dfy` states it as functions over the received bytes:
  - `MixedInputStream.readChar`'s 1–3 byte character coding;
  - `Stream.getNext`, the tokenizer `getToken` and the recursive parser `getValue`.
- **Writer.** It is stated as functions producing output items (characters, and raw bytes for binary blocks).

The class `Streams.Stream` (`stream.dfy`) is the imperative reader and writer with the fields `_next`, `_token`, `_string` and `_file`. Each of its methods is proved to do exactly what the matching function says: every loop carries its invariants. `mixed_input.dfy` does the same for `MixedInputStream.readChar` over a byte source.

**Sessions and handlers.**
- `Session` and `Handler` are classes whose methods update their fields as the Java methods do.
- The socket is an abstract channel:
  - opening it succeeds or fails;
  - what `request` writes is recorded;
  - the value `Stream.get` returns is supplied as a parameter.
- The class properties `defaultHost` and `defaultPort` are parameters too.

**Modules.** `Module` and `Modules` build their request maps and reshape the answers. The server behind `Handler.call` is an oracle class `Server` that records every call and answers by a function of the call's position and arguments.

**Other classes.**
- `Terms` is a store of AND/OR lists addressed by index. A nested list is shared by reference, as `addTerms` shares the child object.
- `TempInputStream` runs over an explicit file system, with `finalize` as an explicit event.
- `IMuException` and the typed getters of `Map` are functions.

**Proofs.** Four modules of laws prove properties across operations:
- `codec_laws.dfy`, `round_trip.dfy`, `reader_laws.dfy` and `writer_laws.dfy`;
- most importantly, `get` reads back what `put` wrote, for strings, whole numbers, byte streams and files.

Integers are explicit: `int32`/`int64` are bounded subset types. `Long.intValue()` is the low 32 bits (`Maps.LowInt`), and `Long.parseLong` fails outside the 64-bit range.

## Model

All source paths are under `src/main/java/com/kesoftware/imu/`.

| member | source | states |
|---|---|---|
| Values.Put | src/main/java/com/kesoftware/imu/Map.java:66 | `HashMap.put`: afterwards the key maps to the new value; a new key is added at the end and a present key keeps its place |
| Values.PutOthers | src/main/java/com/kesoftware/imu/Map.java:66 | `put` leaves the value of every other key unchanged |
| Values.PutKeys | src/main/java/com/kesoftware/imu/Map.java:66 | the key list after `put` is the old list, with the key appended only when it was absent |
| Values.PutUnique | src/main/java/com/kesoftware/imu/Map.java:66 | `put` keeps the keys of a map distinct |
| Values.DecimalRoundTrip | src/main/java/com/kesoftware/imu/Map.java:210-227 | `Long.parseLong` of the decimal text `Long.toString` prints gives the number back, for every number in range |
| Values.LowerAll | src/main/java/com/kesoftware/imu/Stream.java:326 | `toLowerCase` keeps the length and lowers each ASCII capital, leaving every other character |
| Maps.LowInt | src/main/java/com/kesoftware/imu/Map.java:177-194 | `Long.intValue()`: a value congruent to the long modulo 2^32, and the long itself when it fits in 32 bits |
| Maps.GetBoolean | src/main/java/com/kesoftware/imu/Map.java:111-128 | `getBoolean` fails exactly for a Double, the branch left out |
| Maps.GettersReadPut | src/main/java/com/kesoftware/imu/Map.java:177-288 | after `put` of a Long, `getLong` returns it and `getInt` returns it when it fits; `getBoolean` is "non-zero"; `getString` of a stored String returns it |
| Maps.GetStringIsShow | src/main/java/com/kesoftware/imu/Map.java:278-288 | `getString` is null for null and otherwise the value's `toString` form |
| Maps.GetLongParsesText | src/main/java/com/kesoftware/imu/Map.java:210-227 | a number stored as its decimal text is read back as that number by `getLong` and, when it fits, by `getInt` |
| Maps.GetIntNarrowsGetLong | src/main/java/com/kesoftware/imu/Map.java:177-227 | whenever `getInt` succeeds, `getLong` succeeds and `getInt` is its low 32 bits |
| Maps.GetBooleanIsNonZero | src/main/java/com/kesoftware/imu/Map.java:111-128 | for null, Boolean, Integer and Long values, `getBoolean` is true exactly when `getLong` is non-zero |
| Maps.GetBooleanOfText | src/main/java/com/kesoftware/imu/Map.java:111-128 | a stored string gives true exactly when it spells "true" ignoring case |
| Maps.ParseBooleanExamples | src/main/java/com/kesoftware/imu/Map.java:127 | "TRUE" and "True" are true; "yes", "1" and " true" are false |
| Maps.GetArray | src/main/java/com/kesoftware/imu/Map.java:86-94 | `getArray` is null exactly for null, is the stored elements for an array, and otherwise fails with ClassCastException |
| Maps.CopyAs | src/main/java/com/kesoftware/imu/Map.java:86-94 | the typed copy succeeds exactly when every element fits the element type, keeps the elements, and otherwise fails with ArrayStoreException |
| Maps.GetArrayCopies | src/main/java/com/kesoftware/imu/Map.java:86-94 | an array stored by `put` is returned with the same length and the same elements in order |
| Maps.GetMapsTyped | src/main/java/com/kesoftware/imu/Map.java:259-307 | `getMaps` (`getStrings`) of a stored array succeeds exactly when every element is a Map (String) or null, and returns the elements |
| Maps.Map.Put | src/main/java/com/kesoftware/imu/Map.java:66 | the object's entries become those of `Values.Put` on the old entries |
| IMuErrors.BuildMessage | src/main/java/com/kesoftware/imu/IMuException.java:100-114 | the loop builds exactly `Describe`: the id, then " (" + the arguments joined by ", " + ")" when there are any |
| IMuErrors.DescribeBareIffNoArgs | src/main/java/com/kesoftware/imu/IMuException.java:83-114 | the text is exactly the id if and only if the arguments are null or empty; otherwise it starts with the id and " (" |
| IMuErrors.JoinArgsLength | src/main/java/com/kesoftware/imu/IMuException.java:104-111 | the joined text is as long as the shown arguments plus one ", " between each two of them |
| IMuErrors.ConstructedAgrees | src/main/java/com/kesoftware/imu/IMuException.java:55-98 | a new exception's message equals its `toString`; `getID` and `getArgs` return what it was built with; with no arguments both are the bare id |
| IMuErrors.SetArgsKeepsMessage | src/main/java/com/kesoftware/imu/IMuException.java:75-98 | `setArgs` changes what `toString` reports but neither the stored message nor the id |
| IMuErrors.CausedExcArgs | src/main/java/com/kesoftware/imu/IMuException.java:63-69 | a null cause leaves the arguments null (message "id (null)", `toString` the bare id); otherwise the cause's message is the single argument and message and `toString` agree |
| IMuErrors.IntOf | src/main/java/com/kesoftware/imu/Map.java:177-194 | `Integer.parseInt` fails only with the NumberFormatException naming the text |
| IMuErrors.LongOf | src/main/java/com/kesoftware/imu/Map.java:210-227 | `Long.parseLong` fails only with the NumberFormatException naming the text |
| MixedInput.DecodeChar | src/main/java/com/kesoftware/imu/MixedInputStream.java:61-103 | -1 exactly at the end of input; a decoded unit is below 0x10000 and consumes one to three bytes; an error consumes at least one byte |
| MixedInput.MixedInputStream.ReadChar | src/main/java/com/kesoftware/imu/MixedInputStream.java:61-103 | the method returns `DecodeChar` of the input and leaves the byte source just past what it consumed |
| MixedInput.MixedInputStream.ReadContinuation | src/main/java/com/kesoftware/imu/MixedInputStream.java:88-102 | the continuation loop returns `Continue` and consumes exactly the bytes it read |
| MixedInput.ByteSource.ReadByte | src/main/java/com/kesoftware/imu/MixedInputStream.java:65 | `read()` returns the next byte and advances by one, or returns -1 at the end without moving |
| MixedInput.AsciiByte | src/main/java/com/kesoftware/imu/MixedInputStream.java:69-73 | a byte below 0x80 is returned unchanged and consumes one byte |
| MixedInput.BadLeadByte | src/main/java/com/kesoftware/imu/MixedInputStream.java:85-86 | a continuation byte or a lead byte of 0xF0 or above fails with InputCharacterStart carrying the byte |
| MixedInput.ContinuationErrors | src/main/java/com/kesoftware/imu/MixedInputStream.java:90-94 | the end of input inside a sequence is InputCharacterTruncated; a following byte not of the form 10xxxxxx is InputCharacterCorrupted |
| MixedInput.ContinueFits | src/main/java/com/kesoftware/imu/MixedInputStream.java:88-97 | the continuation step never reports end of input, and fails only with InputCharacterTruncated or InputCharacterCorrupted |
| MixedInput.NeverMulti | src/main/java/com/kesoftware/imu/MixedInputStream.java:98-102 | InputCharacterMulti is never thrown: the only errors are Start, Truncated and Corrupted |
| MixedInput.OverlongAccepted | src/main/java/com/kesoftware/imu/MixedInputStream.java:74-97 | overlong forms are accepted: 0xC0 0x80 decodes to 0 and 0xE0 0x80 0x81 to 1 |
| MixedInput.DecodeEncoded | src/main/java/com/kesoftware/imu/MixedInputStream.java:61-103 | `readChar` decodes the standard UTF-8 coding of every character below 0x10000, consuming exactly its bytes |
| WireFormat.NextChar | src/main/java/com/kesoftware/imu/Stream.java:377-385 | `getNext` advances, and at the end of input fails with StreamEOF "character" |
| WireFormat.SkipSpace | src/main/java/com/kesoftware/imu/Stream.java:219-220 | the whitespace loop stops on a character that is not whitespace |
| WireFormat.LexHex | src/main/java/com/kesoftware/imu/Stream.java:244-260 | the `\u` loop collects at most four hex digits, in lower case |
| WireFormat.ReadRaw | src/main/java/com/kesoftware/imu/Stream.java:353-365 | the block read succeeds exactly when `size` bytes remain, returns exactly the next `size` bytes, and otherwise fails with StreamEOF "binary" |
| WireFormat.WordToken | src/main/java/com/kesoftware/imu/Stream.java:326-332 | an identifier's token is "true", "false", "null" or "identifier" |
| WireFormat.NumberValue | src/main/java/com/kesoftware/imu/Stream.java:156-161 | a number token's value is a Double exactly when its text holds '.', else a Long |
| WireFormat.ReadMessage | src/main/java/com/kesoftware/imu/Stream.java:97-116 | `get` lets no runtime exception escape: an unexpected one is wrapped as StreamGet |
| Streams.Stream.GetNext | src/main/java/com/kesoftware/imu/Stream.java:377-385 | the new lookahead and input position are `NextChar`'s; token, string, file and output are unchanged |
| Streams.Stream.SkipSpace | src/main/java/com/kesoftware/imu/Stream.java:219-220 | the loop ends where `WireFormat.SkipSpace` says |
| Streams.Stream.ReadDigits | src/main/java/com/kesoftware/imu/Stream.java:278-282 | the digit loop appends to `_string` what `LexDigits` collects and stops where it stops |
| Streams.Stream.ReadWord | src/main/java/com/kesoftware/imu/Stream.java:321-325 | the identifier loop agrees with `LexWord` |
| Streams.Stream.SkipLine | src/main/java/com/kesoftware/imu/Stream.java:347-348 | the header loop stops on the line feed, as `SkipLine` says |
| Streams.Stream.ReadHex | src/main/java/com/kesoftware/imu/Stream.java:244-260 | the hex loop returns `LexHex`'s digits and lookahead |
| Streams.Stream.Unescape | src/main/java/com/kesoftware/imu/Stream.java:229-266 | the backslash handling rewrites `_next` as `WireFormat.Unescape` says |
| Streams.Stream.ReadString | src/main/java/com/kesoftware/imu/Stream.java:227-270 | the string loop leaves in `_string` what `LexString` collects |
| Streams.Stream.ReadNumber | src/main/java/com/kesoftware/imu/Stream.java:273-316 | the number branch builds `LexNumber`'s text |
| Streams.Stream.ReadFraction | src/main/java/com/kesoftware/imu/Stream.java:283-292 | the fraction part agrees with `LexFraction` |
| Streams.Stream.ReadExponent | src/main/java/com/kesoftware/imu/Stream.java:293-316 | the exponent part agrees with `LexExponent` |
| Streams.Stream.ReadBlock | src/main/java/com/kesoftware/imu/Stream.java:353-365 | the chunked read returns `ReadRaw`'s bytes (exactly the next `size`, or StreamEOF "binary") and advances the input by their number |
| Streams.Stream.ReadBinary | src/main/java/com/kesoftware/imu/Stream.java:334-369 | the binary branch leaves the reader as `BinaryToken` says |
| Streams.Stream.ReadStringToken | src/main/java/com/kesoftware/imu/Stream.java:223-272 | the string branch leaves the reader as `StringToken` says |
| Streams.Stream.GetToken | src/main/java/com/kesoftware/imu/Stream.java:216-375 | `getToken` leaves lookahead, token, string and file as `WireFormat.GetToken` says, writing nothing |
| Streams.Stream.GetValue | src/main/java/com/kesoftware/imu/Stream.java:149-214 | `getValue` returns `ParseValue`'s value and reader state, or throws its error |
| Streams.Stream.GetEntries | src/main/java/com/kesoftware/imu/Stream.java:162-189 | the map loop agrees with `ParseEntries` |
| Streams.Stream.GetItems | src/main/java/com/kesoftware/imu/Stream.java:190-203 | the array loop agrees with `ParseItems` |
| Streams.Stream.Get | src/main/java/com/kesoftware/imu/Stream.java:97-116 | `get` returns `ReadMessage`'s value or failure |
| Streams.Stream.PutData | src/main/java/com/kesoftware/imu/Stream.java:553-557 | one character is appended to the output and nothing else changes |
| Streams.Stream.PutText | src/main/java/com/kesoftware/imu/Stream.java:559-563 | the string's characters are appended in order |
| Streams.Stream.PutLine | src/main/java/com/kesoftware/imu/Stream.java:546-551 | CR LF is appended |
| Streams.Stream.PutIndent | src/main/java/com/kesoftware/imu/Stream.java:539-544 | exactly `indent` tabs are appended |
| Streams.Stream.PutString | src/main/java/com/kesoftware/imu/Stream.java:417-429 | the string is appended quoted, with '"' and '\' escaped |
| Streams.Stream.PutBytes | src/main/java/com/kesoftware/imu/Stream.java:502-537 | appends `*`, the decimal size, CR LF and the frame: the source's next `size` bytes, zero-padded when it runs short |
| Streams.Stream.CopyBytes | src/main/java/com/kesoftware/imu/Stream.java:509-521 | the copy loop writes the bytes it read, at most `size`; it stops short only at the end of the source |
| Streams.Stream.PadBytes | src/main/java/com/kesoftware/imu/Stream.java:522-536 | the padding loop writes exactly `left` zero bytes |
| Streams.FrameOfCopy | src/main/java/com/kesoftware/imu/Stream.java:509-536 | the bytes copied followed by the padding are the frame of length `size` |
| Streams.Stream.PutFile | src/main/java/com/kesoftware/imu/Stream.java:470-477 | a file is written as a block of its length and contents, or fails if it cannot be opened |
| Streams.Stream.PutStream | src/main/java/com/kesoftware/imu/Stream.java:479-500 | the stream is drained and written as a block whose length is the number of bytes it had left |
| Streams.Stream.PutValue | src/main/java/com/kesoftware/imu/Stream.java:388-415 | the output is extended by what `Emit` writes, up to the failure when there is one |
| Streams.Stream.PutObject | src/main/java/com/kesoftware/imu/Stream.java:431-451 | a map is written as `Enclose('{', entries at indent + 1, indent, '}')` |
| Streams.Stream.PutEntries | src/main/java/com/kesoftware/imu/Stream.java:438-448 | the entry loop writes `EmitEntries`, stopping at the first failure |
| Streams.Stream.PutArray | src/main/java/com/kesoftware/imu/Stream.java:453-468 | an array is written as `Enclose('[', items at indent + 1, indent, ']')` |
| Streams.Stream.PutItems | src/main/java/com/kesoftware/imu/Stream.java:458-465 | the element loop writes `EmitItems`, stopping at the first failure |
| Streams.Stream.Put | src/main/java/com/kesoftware/imu/Stream.java:118-135 | `put` appends `WriteMessage`: the value and a final line end |
| WriterLaws.FrameShape | src/main/java/com/kesoftware/imu/Stream.java:502-537 | a block of length n carries exactly n bytes: the source's first, zeros once it runs short, nothing beyond n |
| WriterLaws.BlockHeader | src/main/java/com/kesoftware/imu/Stream.java:505-507 | a block starts with '*', the decimal length and CR LF, followed by the frame |
| WriterLaws.EncloseLayout | src/main/java/com/kesoftware/imu/Stream.java:431-468 | a container begins with its bracket and CR LF and, when fully written, ends with the closing bracket after `indent` tabs |
| WriterLaws.ContainerLayout | src/main/java/com/kesoftware/imu/Stream.java:431-468 | a map is enclosed in '{' '}' and an array in '[' ']' |
| WriterLaws.ItemLines | src/main/java/com/kesoftware/imu/Stream.java:458-465 | each element sits on its own line after its tabs, with a comma unless it is the last |
| WriterLaws.EntryLines | src/main/java/com/kesoftware/imu/Stream.java:438-448 | each entry is tabs, the quoted key, " : ", the value and the same separator |
| WriterLaws.MessageEnds | src/main/java/com/kesoftware/imu/Stream.java:118-126 | a message written in full ends with CR LF after the value |
| WriterLaws.UnknownTypeFails | src/main/java/com/kesoftware/imu/Stream.java:413-414 | an object of an unknown class fails with StreamType and its class name, and nothing is written |
| WriterLaws.EscapedLength | src/main/java/com/kesoftware/imu/Stream.java:422-427 | escaping lengthens the text by exactly one character per '"' or '\' in it, and dropping the backslash in front of each escaped character gives the text back |
| ReaderLaws.TokenKinds | src/main/java/com/kesoftware/imu/Stream.java:216-375 | every token is a string, number, keyword, identifier, binary or single-character token, and never "end" |
| ReaderLaws.BinaryTokenKind | src/main/java/com/kesoftware/imu/Stream.java:334-369 | a binary header that reads succeeds with the token "binary" |
| ReaderLaws.NumberTextShape | src/main/java/com/kesoftware/imu/Stream.java:273-316 | a number token starts with its lead character and holds only digits, '-', '+', '.' and 'e'; it never holds 'E', and has a '.' whenever it has an 'e' |
| ReaderLaws.DigitsExtend | src/main/java/com/kesoftware/imu/Stream.java:278-282 | the digit loop only appends digits to what it had |
| ReaderLaws.ExponentDigits | src/main/java/com/kesoftware/imu/Stream.java:293-316 | the exponent branch keeps the number's characters and its first character, and the text always ends up with a '.', inserted when it was missing |
| ReaderLaws.NumberKinds | src/main/java/com/kesoftware/imu/Stream.java:156-161 | a text without '.' is a Long, or the NumberFormatException of `Long.parseLong` when it is out of range |
| ReaderLaws.KeywordsIgnoreCase | src/main/java/com/kesoftware/imu/Stream.java:326-332 | the keyword test sees only the lower-case form of a word |
| ReaderLaws.KeywordExamples | src/main/java/com/kesoftware/imu/Stream.java:326-332 | "TRUE" is true, "Null" is null and "truth" is an identifier |
| ReaderLaws.IdentifierNotAValue | src/main/java/com/kesoftware/imu/Stream.java:171-173 | an identifier may name a map entry, but as a value it is StreamSyntaxToken |
| ReaderLaws.UnknownToken | src/main/java/com/kesoftware/imu/Stream.java:213 | any token that is not a value token fails with StreamSyntaxToken carrying it |
| ReaderLaws.EntryNameError | src/main/java/com/kesoftware/imu/Stream.java:168-175 | an entry name that is neither a string nor an identifier fails with StreamSyntaxName |
| ReaderLaws.EntryColonError | src/main/java/com/kesoftware/imu/Stream.java:177-179 | a name not followed by ':' fails with StreamSyntaxColon carrying the token |
| ReaderLaws.CommaOptional | src/main/java/com/kesoftware/imu/Stream.java:184-186 | a ',' between elements is skipped, and its absence is accepted |
| ReaderLaws.UnescapeRules | src/main/java/com/kesoftware/imu/Stream.java:229-241 | b, f, n, r and t stand for control characters; any other character but u stands for itself |
| ReaderLaws.UnicodeRules | src/main/java/com/kesoftware/imu/Stream.java:242-264 | for every input, the digits after `\u` are empty exactly when the next character is not a hex digit; then the escape fails with StreamSyntaxUnicode; otherwise there are at most four, and the escape yields the character of their value, with the reader where the digits stopped |
| ReaderLaws.UnicodeDropsNext | src/main/java/com/kesoftware/imu/Stream.java:242-268 | for every input, the string loop appends the decoded character and goes on from the character after the lookahead that ended the digits, so that lookahead (even a closing quote after four digits) is lost |
| ReaderLaws.UnicodeNeedsDigit | src/main/java/com/kesoftware/imu/Stream.java:261-262 | for every input, `\u` followed by a character that is not a hex digit fails with StreamSyntaxUnicode |
| ReaderLaws.UnicodeExample | src/main/java/com/kesoftware/imu/Stream.java:242-268 | in `"\u41x"` the digits make 'A' and the 'x' after them is lost from the string |
| ReaderLaws.BinaryNeedsDigit | src/main/java/com/kesoftware/imu/Stream.java:344-345 | '*' not followed by a digit fails with StreamSyntaxBinary |
| ReaderLaws.BinaryTooShort | src/main/java/com/kesoftware/imu/Stream.java:360-362 | a block whose bytes run past the end of the input fails with StreamEOF "binary" |
| CodecLaws.EncodedAppend | src/main/java/com/kesoftware/imu/Stream.java:553-563 | the bytes of two outputs written one after the other are the two codings concatenated |
| CodecLaws.ReadsCoding | src/main/java/com/kesoftware/imu/Stream.java:377-385 | `getNext` reads back, one by one, the characters whose coding is in the input |
| CodecLaws.ReadsSplit | src/main/java/com/kesoftware/imu/Stream.java:377-385 | reading a + b is reading a, then b from where a ended |
| CodecLaws.ClosedSplit | src/main/java/com/kesoftware/imu/Stream.java:417-429 | an escaped body and its closing quote are the characters the string loop reads |
| CodecLaws.LexEscaped | src/main/java/com/kesoftware/imu/Stream.java:227-270 | the string loop reads back exactly the string `putString` escaped, ending on the closing quote |
| RoundTrip.StringTokenReads | src/main/java/com/kesoftware/imu/Stream.java:223-272 | a quoted string written by `putString` is read back as the token "string" with the same text |
| RoundTrip.PutGetString | src/main/java/com/kesoftware/imu/Stream.java:417-429 | `get` after `put` of any string below U+10000 gives back the same string |
| RoundTrip.LongOfDecimal | src/main/java/com/kesoftware/imu/Stream.java:160 | `Long.parseLong` reads back what `Long.toString` printed |
| RoundTrip.NumberTokenReads | src/main/java/com/kesoftware/imu/Stream.java:273-282 | a lead character and digits are read back as one number token holding them |
| RoundTrip.PutGetLong | src/main/java/com/kesoftware/imu/Stream.java:397-398 | `get` after `put` of a Long gives back the same Long |
| RoundTrip.PutGetInt | src/main/java/com/kesoftware/imu/Stream.java:395-396 | `get` after `put` of an Integer gives back a Long with the same value |
| RoundTrip.GetBlock | src/main/java/com/kesoftware/imu/Stream.java:334-369 | a header `*n` CR LF followed by n bytes is read as a byte stream of exactly those bytes |
| RoundTrip.PutGetBlock | src/main/java/com/kesoftware/imu/Stream.java:502-537 | `get` after `putBytes(n, src)` gives back a byte stream of the n-byte frame |
| RoundTrip.PutGetStream | src/main/java/com/kesoftware/imu/Stream.java:479-500 | `get` after `put` of an InputStream gives back a stream of the same bytes |
| RoundTrip.PutGetFile | src/main/java/com/kesoftware/imu/Stream.java:470-477 | `get` after `put` of a readable File gives back a stream of its length, holding its contents zero-padded |
| Sessions.ClassDefaults | src/main/java/com/kesoftware/imu/Session.java:500-501 | the default host is 127.0.0.1 and the default port 40000 |
| Sessions.Session.WithHostAndPort | src/main/java/com/kesoftware/imu/Session.java:112-127 | a new session has the given host and port and every other field as `initialise` leaves it |
| Sessions.Session.WithHost | src/main/java/com/kesoftware/imu/Session.java:129-143 | the port is the default |
| Sessions.Session.WithPort | src/main/java/com/kesoftware/imu/Session.java:145-159 | the host is the default |
| Sessions.Session.constructor | src/main/java/com/kesoftware/imu/Session.java:161-165 | host and port are the defaults |
| Sessions.Session.Initialise | src/main/java/com/kesoftware/imu/Session.java:512-522 | close, context and suspend are cleared, the session is not connected, and host and port are the class defaults |
| Sessions.Session.GetClose | src/main/java/com/kesoftware/imu/Session.java:176-182 | true exactly when close is set to true; false while unset |
| Sessions.Session.GetSuspend | src/main/java/com/kesoftware/imu/Session.java:257-263 | true exactly when suspend is set to true; false while unset |
| Sessions.Session.Connect | src/main/java/com/kesoftware/imu/Session.java:278-300 | the new state is `Connected`'s; on failure nothing changes |
| Sessions.ConnectRules | src/main/java/com/kesoftware/imu/Session.java:278-294 | a connected session is left alone; otherwise the connection opens, or fails with SessionConnect carrying host, port and message; connecting twice is connecting once |
| Sessions.Session.Disconnect | src/main/java/com/kesoftware/imu/Session.java:305-321 | the new state is `Disconnected` of the old |
| Sessions.DisconnectRules | src/main/java/com/kesoftware/imu/Session.java:305-321 | a disconnected session is unchanged; a connected one loses close, context and suspend and goes back to the default host and port; disconnect is idempotent |
| Sessions.Session.Request | src/main/java/com/kesoftware/imu/Session.java:434-498 | the caller's map, the new state, the bytes written and the result are those of `Exchanged` |
| Sessions.Session.AddSessionFields | src/main/java/com/kesoftware/imu/Session.java:439-444 | the map becomes `WithSessionFields` of the old map |
| Sessions.SessionFieldsExactly | src/main/java/com/kesoftware/imu/Session.java:439-444 | close, context and suspend are added exactly when set, with their values; no other key is added or changed |
| Sessions.ExchangeSends | src/main/java/com/kesoftware/imu/Session.java:434-455 | once connected, exactly the caller's map with the session fields is written; a failed connection writes nothing and leaves the map |
| Sessions.NonMapResponse | src/main/java/com/kesoftware/imu/Session.java:457-462 | a reply that is not a Map fails with SessionResponse and its class name, leaving the state |
| Sessions.ResponseUpdates | src/main/java/com/kesoftware/imu/Session.java:465-468 | a reply's context replaces the stored context and its reconnect replaces the port |
| Sessions.CloseDisconnects | src/main/java/com/kesoftware/imu/Session.java:470-474 | with close set, the session ends disconnected with the defaults, even after an error reply, and what was just learned is wiped |
| Sessions.StatusRules | src/main/java/com/kesoftware/imu/Session.java:476-497 | a missing status is a NullPointerException, exactly "error" fails with the server error, and any other status (even "ERROR") returns the reply |
| Sessions.ServerErrorId | src/main/java/com/kesoftware/imu/Session.java:478-495 | the id is the reply's error, else its id, else SessionServerError; args are attached when present, null stays null, and a non-array fails the cast |
| Sessions.Session.CheckStatus | src/main/java/com/kesoftware/imu/Session.java:476-497 | the method follows `Checked` |
| Handlers.Handler.constructor | src/main/java/com/kesoftware/imu/Handler.java:68-83 | a handler on the given session with every field unset |
| Handlers.Handler.WithNewSession | src/main/java/com/kesoftware/imu/Handler.java:85-88 | a handler on a fresh default session |
| Handlers.Handler.GetDestroy | src/main/java/com/kesoftware/imu/Handler.java:117-123 | true exactly when destroy is set to true |
| Handlers.Handler.Request | src/main/java/com/kesoftware/imu/Handler.java:252-274 | the session exchanges the map with the handler fields added; the handler then keeps the id the reply carries |
| Handlers.Handler.AddHandlerFields | src/main/java/com/kesoftware/imu/Handler.java:255-266 | the map becomes `WithHandlerFields` of the old map |
| Handlers.IdAddressing | src/main/java/com/kesoftware/imu/Handler.java:255-256 | with an id known, the request carries it, and name and create are not added |
| Handlers.NameAddressing | src/main/java/com/kesoftware/imu/Handler.java:257-262 | without an id, the request carries the name, and create only when set |
| Handlers.OptionalFields | src/main/java/com/kesoftware/imu/Handler.java:263-266 | destroy is sent as a Boolean only when set, and language only when set |
| Handlers.OtherKeysUntouched | src/main/java/com/kesoftware/imu/Handler.java:255-266 | no key besides id, name, create, destroy and language changes |
| Handlers.AddressedByLearnedId | src/main/java/com/kesoftware/imu/Handler.java:270-271 | a reply carrying an id replaces the stored id, and the next request is addressed by it |
| Handlers.KeepsIdOtherwise | src/main/java/com/kesoftware/imu/Handler.java:268-273 | a failed request, or a reply without an id, keeps the stored id |
| Handlers.CallSends | src/main/java/com/kesoftware/imu/Handler.java:210-219 | `call` sends the method and, only when not null, params |
| Handlers.Handler.Call | src/main/java/com/kesoftware/imu/Handler.java:210-219 | the request is `CallRequest` with the handler fields; the result is the reply's `result` |
| TermsLists.Heap.NewAnd | src/main/java/com/kesoftware/imu/Terms.java:90-94 | `new Terms()` is a new empty AND list |
| TermsLists.Heap.New | src/main/java/com/kesoftware/imu/Terms.java:76-88 | `new Terms(kind)` is a new empty list of that kind, all others unchanged |
| TermsLists.Heap.Add | src/main/java/com/kesoftware/imu/Terms.java:141-158 | `add` appends one term to that list and changes nothing else |
| TermsLists.Heap.AddWithoutOp | src/main/java/com/kesoftware/imu/Terms.java:160-164 | the two-argument `add` appends a term with a null operator |
| TermsLists.Heap.AddTerms | src/main/java/com/kesoftware/imu/Terms.java:204-211 | `addTerms` creates an empty child of the kind, appends it to the parent and returns it |
| TermsLists.Heap.AddAnd | src/main/java/com/kesoftware/imu/Terms.java:176-180 | `addAnd` is `addTerms` with AND |
| TermsLists.Heap.AddOr | src/main/java/com/kesoftware/imu/Terms.java:192-196 | `addOr` is `addTerms` with OR |
| TermsLists.Heap.ToArray | src/main/java/com/kesoftware/imu/Terms.java:213-232 | the loop returns `Render` of the list |
| TermsLists.AddKeepsOrder | src/main/java/com/kesoftware/imu/Terms.java:121-164 | after several `add`s, `getList` is the old list followed by the terms in the order added; other lists are unchanged |
| TermsLists.RenderShape | src/main/java/com/kesoftware/imu/Terms.java:213-232 | `toArray` is [kind name, list]; the list is as long as the terms, each plain term unchanged and each nested list converted |
| TermsLists.ChildAdditionsVisible | src/main/java/com/kesoftware/imu/Terms.java:204-232 | a term added to a child after `addTerms` returned it shows up in the parent's `toArray` |
| TermsLists.RenderAgrees | src/main/java/com/kesoftware/imu/Terms.java:213-232 | the conversion depends only on the list and the lists created after it |
| TempFiles.TempInputStream.constructor | src/main/java/com/kesoftware/imu/TempInputStream.java:82-87 | the stream records the file it reads |
| TempFiles.Open | src/main/java/com/kesoftware/imu/TempInputStream.java:82-87 | opening succeeds exactly when the file exists, and fails with FileNotFoundException otherwise |
| TempFiles.TempInputStream.Close | src/main/java/com/kesoftware/imu/TempInputStream.java:98-104 | the stream and disk become `OnClose` of the old ones |
| TempFiles.TempInputStream.Finalize | src/main/java/com/kesoftware/imu/TempInputStream.java:115-121 | the stream and disk become `OnFinalize` of the old ones |
| TempFiles.CloseNotIdempotent | src/main/java/com/kesoftware/imu/TempInputStream.java:98-104 | the first `close` deletes the file and clears the reference; a second one fails with NullPointerException |
| TempFiles.NothingAfterClose | src/main/java/com/kesoftware/imu/TempInputStream.java:98-121 | once the reference is cleared, no later call deletes anything |
| TempFiles.CloseDeletesOnce | src/main/java/com/kesoftware/imu/TempInputStream.java:98-121 | close and then any calls (finalize included) delete the file exactly once |
| TempFiles.FinalizeDeletesUnclosed | src/main/java/com/kesoftware/imu/TempInputStream.java:115-121 | finalizing an unclosed stream deletes its file |
| ModuleApi.Server.Call | src/main/java/com/kesoftware/imu/Handler.java:210-219 | each call is recorded, and its answer is the oracle's for that position |
| ModuleApi.Module.constructor | src/main/java/com/kesoftware/imu/Module.java:1193-1200 | `initialise` names the handler "Module" and sets create and table to the table name |
| ModuleApi.ModuleAddressing | src/main/java/com/kesoftware/imu/Module.java:1193-1200 | until an id is learned, requests carry name "Module" and create = the table |
| ModuleApi.Module.DoAddFetchSet | src/main/java/com/kesoftware/imu/Module.java:1105-1113 | sends exactly {name, columns}; the count is the answer's long narrowed to an int |
| ModuleApi.Module.DoAddSearchAlias | src/main/java/com/kesoftware/imu/Module.java:1115-1123 | sends exactly {name, columns}; the count is the answer narrowed |
| ModuleApi.Module.DoAddSortSet | src/main/java/com/kesoftware/imu/Module.java:1125-1133 | the keys go under "columns" |
| ModuleApi.Optional | src/main/java/com/kesoftware/imu/Module.java:1135-1191 | an optional argument adds no entry exactly when it is null |
| ModuleApi.Module.DoFetch | src/main/java/com/kesoftware/imu/Module.java:1135-1146 | sends flag, offset and count, plus columns when not null; the result is `FetchResultOf` the answer |
| ModuleApi.FetchResultOf | src/main/java/com/kesoftware/imu/Module.java:1202-1212 | on success the rows are the answer's rows, their count is their number, and each is a Map or null |
| ModuleApi.FetchNeedsRows | src/main/java/com/kesoftware/imu/Module.java:1202-1212 | a null answer, or a map with a readable hits but no rows, is a NullPointerException |
| ModuleApi.Module.DoInsert | src/main/java/com/kesoftware/imu/Module.java:1148-1156 | sends values, plus columns when not null; the answer is cast to a Map |
| ModuleApi.Module.DoRemove | src/main/java/com/kesoftware/imu/Module.java:1158-1167 | sends flag and offset, plus count when not null; the answer is cast to a Long |
| ModuleApi.Module.DoSort | src/main/java/com/kesoftware/imu/Module.java:1169-1177 | sends columns, plus flags when not null; the result is `SortResultOf` the answer |
| ModuleApi.Module.DoUpdate | src/main/java/com/kesoftware/imu/Module.java:1179-1191 | sends flag, offset, count and values, plus columns when not null |
| ModuleApi.SortResultOf | src/main/java/com/kesoftware/imu/Module.java:1214-1237 | null gives null; otherwise the count is the list's length, with one term per element; a nested result exists only where the element has "list" |
| ModuleApi.MakeSortResult | src/main/java/com/kesoftware/imu/Module.java:1214-1237 | the loop with its recursion returns `SortResultOf` |
| ModuleApi.AsCount | src/main/java/com/kesoftware/imu/Module.java:1105-1113 | `(Long)` then `intValue()`: a Long gives its low 32 bits, and null is a NullPointerException |
| ModuleApi.FoundCountRules | src/main/java/com/kesoftware/imu/Module.java:601-692 | a Long or Integer answer gives its value; a failed call propagates; a Double answer is left out; any other non-Number answer fails with "<second answer> cannot be converted to a Number" |
| ModuleApi.Module.FindCount | src/main/java/com/kesoftware/imu/Module.java:601-608 | calls once, or twice when the answer is not a Number; the result follows `FoundCount` |
| ModuleApi.Module.FindKey | src/main/java/com/kesoftware/imu/Module.java:601-608 | `findKey` sends the key and counts as `FoundCount` |
| ModuleApi.Module.FindKeysArray | src/main/java/com/kesoftware/imu/Module.java:622-629 | as written: the parameter is the primitive `long[]` itself |
| ModuleApi.Module.FindKeys | src/main/java/com/kesoftware/imu/Module.java:643-650 | the keys go as an Object array of Longs |
| ModuleApi.Module.FindTerms | src/main/java/com/kesoftware/imu/Module.java:664-671 | sends the terms' `toArray()` |
| ModuleApi.Module.FindWhere | src/main/java/com/kesoftware/imu/Module.java:685-692 | sends the where clause |
| ModuleApi.PrimitiveKeysNeverSent | src/main/java/com/kesoftware/imu/Module.java:622-629 | whatever the state, once connected, `findKeys(long[])` fails with StreamType "[J" while writing the request |
| ModuleApi.ListKeysSent | src/main/java/com/kesoftware/imu/Module.java:643-650 | a request of an Object array of Longs is always written in full |
| ModuleApi.PlainCallWritten | src/main/java/com/kesoftware/imu/Handler.java:210-219 | a call whose parameter and fields are strings, numbers and such arrays is written without failing |
| ModulesApi.Modules.constructor | src/main/java/com/kesoftware/imu/Modules.java:54-58 | `initialise` names the handler "Modules" and nothing else |
| ModulesApi.ModulesAddressing | src/main/java/com/kesoftware/imu/Modules.java:372-376 | until an id is learned, requests carry name "Modules" and no create of their own |
| ModulesApi.Modules.AddFetchSet | src/main/java/com/kesoftware/imu/Modules.java:67-75 | sends exactly {name, set}; the count is the answer narrowed |
| ModulesApi.Modules.AddSearchAlias | src/main/java/com/kesoftware/imu/Modules.java:84-92 | sends exactly {name, set} |
| ModulesApi.Modules.AddSortSet | src/main/java/com/kesoftware/imu/Modules.java:101-109 | sends exactly {name, set} |
| ModulesApi.Modules.DoFetch | src/main/java/com/kesoftware/imu/Modules.java:292-329 | sends flag, offset and count, plus columns when not null; the result is `ModulesFetchOf` the answer |
| ModulesApi.ModulesFetchOf | src/main/java/com/kesoftware/imu/Modules.java:292-329 | the count is the answer's; module j is the module read from element j of "modules"; current/prev/next are set exactly when present, each the position read from that entry |
| ModulesApi.Modules.MakeFetch | src/main/java/com/kesoftware/imu/Modules.java:303-326 | the reshaping loop returns `ModulesFetchOf` |
| ModulesApi.Collect | src/main/java/com/kesoftware/imu/Modules.java:308-319 | the loop over the modules returns `Collected`: every element read, or the first failure |
| ModulesApi.Collected | src/main/java/com/kesoftware/imu/Modules.java:308-319 | on success there is one result per element, and result j is what reading element j gives |
| ModulesApi.FetchModuleFields | src/main/java/com/kesoftware/imu/Modules.java:310-317 | a module is read as hits, index, name and rows |
| ModulesApi.FirstBadModuleStops | src/main/java/com/kesoftware/imu/Modules.java:308-319 | the first module that cannot be read ends the fetch with its failure |
| ModulesApi.NullModule | src/main/java/com/kesoftware/imu/Modules.java:310-312 | a null module is a NullPointerException |
| ModulesApi.Modules.DoFindKeys | src/main/java/com/kesoftware/imu/Modules.java:331-349 | the loop sends one [module, key] pair per key in order, plus include when not null; the answer must be an array of strings |
| ModulesApi.KeyPairsRoundTrip | src/main/java/com/kesoftware/imu/Modules.java:336-341 | each pair stands for its key, in order |
| ModulesApi.StringsOf | src/main/java/com/kesoftware/imu/Modules.java:347-348 | the copy succeeds exactly when the answer is an array of strings or nulls, and returns its elements |
| ModulesApi.Modules.DoFindTerms | src/main/java/com/kesoftware/imu/Modules.java:351-360 | sends the terms' `toArray()`, plus include when not null |
| ModulesApi.Modules.DoSort | src/main/java/com/kesoftware/imu/Modules.java:362-370 | sends set, plus flags when not null; the answer is returned as it is |
| ModulesApi.PositionOf | src/main/java/com/kesoftware/imu/Modules.java:378-385 | a position is read only from a Map whose offset reads as a long; its flag is the map's `getString("flag")` and its offset the map's `getLong("offset")` |
| ModulesApi.PositionIf | src/main/java/com/kesoftware/imu/Modules.java:321-326 | a position is present exactly when the answer has the key, and is then the position read from that entry |

## Left out

- Trace.java and LoggingSocket.java are not part of this model. They are logging sinks (clock, process id, file locks), and the logging socket is unused.
- Socket creation and the stream setup in the Stream constructor are not modelled. A connection's input is the sequence of bytes it will deliver and its output the sequence of items written; `flush` is not modelled.
- MixedOutputStream and TempFile are not part of this model. Output characters are taken to be coded as standard UTF-8 for characters below U+10000 (`CodecLaws.Encoded`). A temporary store is the byte sequence it holds.
- Lone surrogates (U+D800–U+DFFF) cannot be Dafny characters. A `\u` escape or a coded character in that range is reported as an unmodelled failure, and the round trips require every character to be below U+10000 and outside that range.
- Floating point is not modelled:
  - `Double.parseDouble` and `Double.toString` are not modelled; a Double is kept as its text;
  - `Map.getDouble` and the Double branches of the other getters are left out;
  - `DoubleSyntax` only says when `Double.parseDouble` would accept the token.
- ModuleApi.FoundCountRules: a Double answer to `findKey`, `findKeys`, `findTerms` or `findWhere` is returned by `longValue()` in Java, a floating-point conversion; the model reports it as an unmodelled failure.
- `Character.isWhitespace`, `isLetter`, `isLetterOrDigit`, `isDigit` and `toLowerCase` are modelled on ASCII only. Non-ASCII letters, digits and spaces do not take part in the token rules.
- The order of a HashMap's keys when `putObject` writes them is modelled as insertion order.
- The static block size and the static default host and port are parameters, not shared mutable state.
- The garbage collector's timing is not modelled; `finalize` is an explicit event.
- Module and Modules public overloads are not modelled. They only convert their arguments and forward to the `do*` methods, or make one `call` whose answer is cast (`findAttachments`, `getHits`, `restoreFromFile`, `restoreFromTemp`, `setModules`, `addFetchSets`, `addSearchAliases`, `addSortSets`).
- Session `login`/`logout` and the other forwarding methods are not modelled.
- `Map.getMap` (a bare cast) is not modelled.
- ModuleApi.Module.constructor: the table name is a string, never null. Java accepts `new Module(null, session)`, and then `create` is null and is not sent.
- Values.Show: Java's `toString` of an array, a stream or another object ends with an identity hash after "@", which the model leaves out. That text reaches `getString`, the NumberFormatException message of `getInt`/`getLong`, IMuException messages with such arguments, and the "cannot be converted to a Number" message of `Module`'s find methods, so in those places the model's text lacks the hash.
- Maps.GetArray: `Arr` stands for both `Object[]` and `ArrayList`. `getArray` casts to `Object[]`, so an `ArrayList` a caller stored fails with ClassCastException in Java, while the model returns its elements. Its `toString` is also "[a, b]" in Java, not the array form. Values read from the wire are always `Object[]`, and the writer treats the two alike, so only caller-built maps are affected.
- TempFiles.OnFinalize: `finalize` begins with `super.finalize()`. On JDKs where `FileInputStream.finalize` calls the overridden `close()`, that call deletes the file and clears the reference before the class's own body runs, or throws NullPointerException when `close` already ran. The model runs the body alone. The file is deleted the same number of times either way.
- Streams.Stream.PutValue: a `Stream` value is a snapshot of the bytes left in the caller's InputStream. `putStream` drains that stream in place, so in Java a second occurrence of the same stream in a request, or a later `put` of it, is written as the empty block `*0` CR LF. The model writes all the bytes at every occurrence and never changes the caller's value. `ClassName` and `Show` of a `Stream` give "com.kesoftware.imu.TempInputStream", which is right for streams read from the wire but not for a caller's own stream of another class.
- TempFiles.Open: the FileNotFoundException message is modelled as the bare path. `FileInputStream` adds a platform-specific reason such as " (No such file or directory)", and that text also reaches the StreamPut message of `Streams.Stream.PutFile`.
- `Handler.call` is the recording oracle `Server` in Module and Modules. The request map it builds and the session exchange behind it are modelled in Handler and Session.
- An array of 2^31 elements or more cannot exist in Java. The model reports such an array in an answer as an unmodelled failure.
- A null element of `ModulesKey[]` is not modelled.
- IMuErrors.SetArgs: `setArgs` is modelled on exception values, not as an update in place of a shared exception object.
- RoundTrip.PutGetBlock: the round trips cover strings, whole numbers, byte streams and files, but not floats or nested maps and arrays. A block length must be below 2^63, the range of the `long` size.
- Where the documented behaviour and the code differ, the model follows the code:
  - `disconnect` puts host and port back to the class defaults;
  - only the exact status "error" takes the error path;
  - a missing status dereferences null.

## Findings

| source | as written | input that shows it | evidently intended | confidence | as-written member | corrected member |
|---|---|---|---|---|---|---|
| src/main/java/com/kesoftware/imu/Module.java:622-629 | `findKeys(long[] keys)` passes the primitive `long[]` to `call`. `Stream.putValue` accepts only `Object[]` and `ArrayList` as arrays, so writing the request throws StreamType "[J" | any keys, e.g. `findKeys(new long[] {1})`, on a session whose connection opens | send the keys as an Object array of Longs, as `findKeys(ArrayList<Long>)` does | not executed | ModuleApi.PrimitiveKeysNeverSent | ModuleApi.ListKeysSent |
