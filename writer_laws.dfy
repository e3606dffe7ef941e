/** What `put` writes: the frame of a binary block, the layout of maps and
    arrays, the final line end, and the failure for an unknown type. */
module WriterLaws {
  import opened Values
  import opened IMuErrors
  import opened WireFormat

  /** A block of length `n` carries exactly `n` bytes: the source's bytes
      first, zeros when the source runs short, and nothing beyond `n`. */
  lemma FrameShape(src: seq<byte>, n: nat)
    ensures |Frame(src, n)| == n
    ensures forall i :: 0 <= i < n && i < |src| ==> Frame(src, n)[i] == src[i]
    ensures forall i :: |src| <= i < n ==> Frame(src, n)[i] == 0
  {
    if n > |src| {
      var z := Zeros(n - |src|);
      assert forall i :: |src| <= i < n ==> Frame(src, n)[i] == z[i - |src|];
    }
  }

  /** The header of a block: '*', the decimal length and a line end. */
  lemma BlockHeader(src: seq<byte>, n: nat)
    ensures var b := Block(src, n); var h := |DecimalText(n)| + 3;
      && |b| == h + n
      && b[0] == Text('*')
      && (forall i :: 1 <= i < h - 2 ==> b[i] == Text(DecimalText(n)[i - 1]))
      && b[h - 2] == Text('\r') && b[h - 1] == Text('\n')
      && b[h..] == Raws(Frame(src, n))
  {
    var d := DecimalText(n);
    var head := Chars("*" + d);
    CharsAt("*" + d);
    FrameShape(src, n);
    var b := Block(src, n);
    assert b == head + Line() + Raws(Frame(src, n));
    assert forall i :: 1 <= i < |d| + 1 ==> b[i] == head[i] == Text(("*" + d)[i]);
  }

  /** The characters of a text are written one per item. */
  lemma {:induction false} CharsAt(s: string)
    ensures forall i :: 0 <= i < |s| ==> Chars(s)[i] == Text(s[i])
    decreases |s|
  {
    if s != [] {
      CharsAt(s[1..]);
      assert Chars(s) == [Text(s[0])] + Chars(s[1..]);
    }
  }

  /** A container: the opening bracket and a line end first and, when all
      of it was written, the closing bracket at the parent's indentation
      last. */
  lemma EncloseLayout(open: char, body: Written, indent: nat, close: char)
    ensures var w := Enclose(open, body, indent, close);
      |w.items| >= 3 && w.items[..3] == [Text(open), Text('\r'), Text('\n')]
    ensures var w := Enclose(open, body, indent, close);
      w.outcome.Pass? ==> |w.items| >= 4 + indent && w.items[|w.items| - indent - 1..] == Tabs(indent) + [Text(close)]
  {
    var head := [Text(open)] + Line();
    assert (head + body.items)[..3] == head;
    if body.outcome.Pass? {
      var w := head + body.items + Tabs(indent) + [Text(close)];
      assert w[|w| - indent - 1..] == Tabs(indent) + [Text(close)];
    }
  }

  /** A map is written between '{' and '}', an array between '[' and ']'. */
  lemma ContainerLayout(v: Value, indent: nat)
    requires v.Obj? || v.Arr?
    ensures var w := Emit(v, indent); var open := if v.Obj? then '{' else '[';
      |w.items| >= 3 && w.items[..3] == [Text(open), Text('\r'), Text('\n')]
    ensures var w := Emit(v, indent); var close := if v.Obj? then '}' else ']';
      w.outcome.Pass? ==> |w.items| >= 4 + indent && w.items[|w.items| - indent - 1..] == Tabs(indent) + [Text(close)]
  {
    if v.Obj? {
      EncloseLayout('{', EmitEntries(v.entries, indent + 1), indent, '}');
    } else {
      EncloseLayout('[', EmitItems(v.items, indent + 1), indent, ']');
    }
  }

  /** Each element of an array on its own line at `indent` tabs, followed
      by a comma unless it is the last, then a line end. */
  lemma ItemLines(x: Value, xs: seq<Value>, indent: nat)
    requires Emit(x, indent).outcome.Pass?
    ensures var w := EmitItems([x] + xs, indent); var e := Emit(x, indent).items;
      w.items == Tabs(indent) + e + (if xs == [] then Line() else [Text(',')] + Line()) + EmitItems(xs, indent).items
  {
    assert ([x] + xs)[0] == x && ([x] + xs)[1..] == xs;
  }

  /** Each map entry: its tabs, the key quoted, " : ", the value, then the
      same separator as an array element. */
  lemma EntryLines(e: Entry, es: seq<Entry>, indent: nat)
    requires Emit(e.value, indent).outcome.Pass?
    ensures var w := EmitEntries([e] + es, indent); var v := Emit(e.value, indent).items;
      w.items == Tabs(indent) + Quoted(e.key) + Chars(" : ") + v + (if es == [] then Line() else [Text(',')] + Line()) + EmitEntries(es, indent).items
  {
    assert ([e] + es)[0] == e && ([e] + es)[1..] == es;
  }

  /** A message that was written in full ends with a line end after the
      value. */
  lemma MessageEnds(v: Value)
    requires WriteMessage(v).outcome.Pass?
    ensures var m := WriteMessage(v).items; |m| >= 2 && m[|m| - 2..] == Line()
    ensures WriteMessage(v).items == Emit(v, 0).items + Line()
  {
  }

  /** An object of a class the writer does not know fails with StreamType
      and its class name, before anything is written. */
  lemma UnknownTypeFails(name: string)
    ensures WriteMessage(Other(name)) == Written([], Fail(StreamError("StreamType", [Str(name)])))
  {
  }

  /** Escaping lengthens the text by one character per '"' or '\' in it,
      and dropping the backslash in front of each escaped character gives
      the text back. */
  lemma {:induction false} EscapedLength(s: string)
    ensures |Escaped(s)| == |s| + multiset(s)['"'] + multiset(s)['\\']
    ensures Unescaped(Escaped(s)) == Chars(s)
    decreases |s|
  {
    if s != [] {
      EscapedLength(s[1..]);
      EscapedHead(s);
      HeadSplit(s);
      if s[0] == '"' || s[0] == '\\' {
        assert Escaped(s)[2..] == Escaped(s[1..]);
      } else {
        assert Escaped(s)[1..] == Escaped(s[1..]);
      }
    }
  }

  /** The first character's share of the escaped text. */
  lemma EscapedHead(s: string)
    requires s != []
    ensures s[0] == '"' || s[0] == '\\' ==> Escaped(s) == [Text('\\'), Text(s[0])] + Escaped(s[1..])
    ensures !(s[0] == '"' || s[0] == '\\') ==> Escaped(s) == [Text(s[0])] + Escaped(s[1..])
  {
  }

  /** A text is its first character followed by the rest. */
  lemma HeadSplit(s: string)
    requires s != []
    ensures multiset(s) == multiset{s[0]} + multiset(s[1..])
    ensures Chars(s) == [Text(s[0])] + Chars(s[1..])
  {
    assert s == [s[0]] + s[1..];
  }

  /** The output items with each backslash dropped and the item after it
      kept as it is. */
  function Unescaped(r: seq<OutItem>): seq<OutItem>
  {
    if r == [] then []
    else if r[0] == Text('\\') && |r| >= 2 then [r[1]] + Unescaped(r[2..])
    else [r[0]] + Unescaped(r[1..])
  }
}
