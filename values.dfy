/** The generic values that travel over an IMu connection: what the Java
    client holds as an `Object` (null, Boolean, Integer, Long, Double, String,
    com.kesoftware.imu.Map, Object[], File, InputStream) and the few Java
    library behaviours the rest of the model needs (HashMap put/get,
    decimal printing and parsing, `toString`, `getClass().getName()`). */
module Values {

  newtype byte = x: int | 0 <= x < 256

  type int32 = x: int | -0x8000_0000 <= x < 0x8000_0000
  type int64 = x: int | -0x8000_0000_0000_0000 <= x < 0x8000_0000_0000_0000

  datatype Option<+T> = None | Some(value: T)

  /** One Java object as the client sees it. A `Map` (a HashMap<String,Object>)
      is kept as an association list in insertion order; `File` records the
      length the file system reports and the bytes a reader would get;
      `Stream` is an InputStream by the bytes it still has to deliver;
      `Arr` is the Object[] the reader builds, and also stands for an
      ArrayList a caller passes, which the writer treats the same way;
      `Other` is any object of a class the codec does not know. */
  datatype Value =
    | Null
    | Bool(b: bool)
    | Int(i: int32)
    | Long(l: int64)
    | Float(text: string)
    | Str(s: string)
    | Obj(entries: seq<Entry>)
    | Arr(items: seq<Value>)
    | File(path: string, readable: bool, length: nat, contents: seq<byte>)
    | Stream(data: seq<byte>)
    | Other(className: string)

  datatype Entry = Entry(key: string, value: Value)

  /** A Java String that may be null. */
  function StrOrNull(s: Option<string>): Value
  {
    if s.Some? then Str(s.value) else Null
  }

  // ---------------------------------------------------------------------
  // HashMap<String,Object> as an association list

  function Find(m: seq<Entry>, key: string): (r: Option<Value>)
    ensures r.Some? <==> key in Keys(m)
  {
    if m == [] then None
    else if m[0].key == key then Some(m[0].value)
    else Find(m[1..], key)
  }

  function Keys(m: seq<Entry>): (ks: seq<string>)
    ensures |ks| == |m|
    ensures forall i :: 0 <= i < |m| ==> ks[i] == m[i].key
  {
    if m == [] then [] else [m[0].key] + Keys(m[1..])
  }

  predicate ContainsKey(m: seq<Entry>, key: string)
  {
    key in Keys(m)
  }

  /** `HashMap.get`: null both for a missing key and for a key mapped to null. */
  function Get(m: seq<Entry>, key: string): Value
  {
    match Find(m, key)
    case Some(v) => v
    case None => Null
  }

  predicate UniqueKeys(m: seq<Entry>)
  {
    forall i, j :: 0 <= i < j < |m| ==> m[i].key != m[j].key
  }

  /** `HashMap.put`: an existing key keeps its place and takes the new value,
      a new key goes at the end. */
  function Put(m: seq<Entry>, key: string, v: Value): (r: seq<Entry>)
    ensures Find(r, key) == Some(v)
    ensures key !in Keys(m) ==> r == m + [Entry(key, v)]
  {
    if m == [] then [Entry(key, v)]
    else if m[0].key == key then [Entry(key, v)] + m[1..]
    else [m[0]] + Put(m[1..], key, v)
  }

  /** `put` leaves every other key's value as it was. */
  lemma {:induction false} PutOthers(m: seq<Entry>, key: string, v: Value, k: string)
    requires k != key
    ensures Find(Put(m, key, v), k) == Find(m, k)
  {
    if m != [] && m[0].key != key {
      PutOthers(m[1..], key, v, k);
    }
  }

  /** `put` of a key already present keeps the key list, a new key is appended. */
  lemma {:induction false} PutKeys(m: seq<Entry>, key: string, v: Value)
    ensures Keys(Put(m, key, v)) == if key in Keys(m) then Keys(m) else Keys(m) + [key]
  {
    var r := Put(m, key, v);
    if key in Keys(m) {
      PutPresentKeys(m, key, v);
    } else {
      assert |Keys(r)| == |Keys(m) + [key]|;
      forall i | 0 <= i < |r| ensures Keys(r)[i] == (Keys(m) + [key])[i] {
        if i < |m| {
          assert r[i] == m[i];
        }
      }
    }
  }

  /** `put` of a present key keeps every key where it was. */
  lemma {:induction false} PutPresentKeys(m: seq<Entry>, key: string, v: Value)
    requires key in Keys(m)
    ensures Keys(Put(m, key, v)) == Keys(m)
  {
    if m[0].key != key {
      assert Keys(m)[0] == m[0].key && Keys(m)[1..] == Keys(m[1..]);
      PutPresentKeys(m[1..], key, v);
      assert Keys(Put(m, key, v))[1..] == Keys(Put(m[1..], key, v));
    }
  }

  /** `put` keeps the keys of a map distinct. */
  lemma PutUnique(m: seq<Entry>, key: string, v: Value)
    requires UniqueKeys(m)
    ensures UniqueKeys(Put(m, key, v))
  {
    var r := Put(m, key, v);
    PutKeys(m, key, v);
    forall i, j | 0 <= i < j < |r| ensures r[i].key != r[j].key {
      assert Keys(r)[i] == r[i].key && Keys(r)[j] == r[j].key;
      if j < |m| {
        assert Keys(m)[i] == m[i].key && Keys(m)[j] == m[j].key;
      } else {
        assert Keys(m)[i] == m[i].key;
      }
    }
  }

  // ---------------------------------------------------------------------
  // Decimal text: Integer/Long.toString and String.format("%d")

  predicate IsDigit(c: char) { '0' <= c <= '9' }

  predicate AllDigits(s: string) { forall i :: 0 <= i < |s| ==> IsDigit(s[i]) }

  function DigitChar(d: nat): (c: char)
    requires d < 10
    ensures IsDigit(c) && c as int - '0' as int == d
  {
    (d + '0' as int) as char
  }

  function NatText(n: nat): (s: string)
    ensures 1 <= |s| && AllDigits(s)
    ensures s[0] == '0' ==> n == 0
  {
    if n < 10 then [DigitChar(n)] else NatText(n / 10) + [DigitChar(n % 10)]
  }

  function DecimalText(n: int): (s: string)
    ensures 1 <= |s|
    ensures s[0] == '-' <==> n < 0
  {
    if n < 0 then "-" + NatText(-n) else NatText(n)
  }

  /** The number a string of decimal digits denotes. */
  function DigitsValue(s: string): nat
    requires AllDigits(s)
  {
    if s == [] then 0 else DigitsValue(s[..|s| - 1]) * 10 + (s[|s| - 1] as int - '0' as int)
  }

  lemma {:induction false} NatTextValue(n: nat)
    ensures DigitsValue(NatText(n)) == n
  {
    if n >= 10 {
      var s := NatText(n);
      assert s[..|s| - 1] == NatText(n / 10);
      NatTextValue(n / 10);
    }
  }

  /** Integer.parseInt / Long.parseLong in radix 10 over ASCII digits: an
      optional sign, at least one digit, and a value in [lo, hi]. */
  function ParseDecimal(s: string, lo: int, hi: int): (r: Option<int>)
    ensures r.Some? ==> lo <= r.value <= hi
  {
    var neg := |s| > 0 && s[0] == '-';
    var body := if |s| > 0 && (s[0] == '-' || s[0] == '+') then s[1..] else s;
    if |body| == 0 || !AllDigits(body) then None
    else
      var n: int := if neg then 0 - DigitsValue(body) else DigitsValue(body);
      if lo <= n <= hi then Some(n) else None
  }

  function ParseInt(s: string): (r: Option<int32>)
  {
    match ParseDecimal(s, -0x8000_0000, 0x7FFF_FFFF)
    case Some(n) => Some(n as int32)
    case None => None
  }

  function ParseLong(s: string): (r: Option<int64>)
  {
    match ParseDecimal(s, -0x8000_0000_0000_0000, 0x7FFF_FFFF_FFFF_FFFF)
    case Some(n) => Some(n as int64)
    case None => None
  }

  /** Printing a number and parsing the text back gives the number. */
  lemma DecimalRoundTrip(n: int, lo: int, hi: int)
    requires lo <= n <= hi
    ensures ParseDecimal(DecimalText(n), lo, hi) == Some(n)
  {
    var s := DecimalText(n);
    if n < 0 {
      assert s[1..] == NatText(-n);
      NatTextValue(-n);
    } else {
      NatTextValue(n);
    }
  }

  /** The message of a NumberFormatException thrown for `s`. */
  function NumberFormatMessage(s: string): string
  {
    "For input string: \"" + s + "\""
  }

  // ---------------------------------------------------------------------
  // Object.toString / String.valueOf and getClass().getName()

  /** `String.valueOf(v)`. Exact for null, Boolean, Integer, Long, String and
      File (its path) and for a Map (AbstractMap's "{k=v, ...}" in the
      association list's order). A Double is shown by its own text; an array,
      a stream or another object by its class name and "@", without the
      identity hash Java appends. */
  function Show(v: Value): string
  {
    match v
    case Null => "null"
    case Bool(b) => if b then "true" else "false"
    case Int(i) => DecimalText(i)
    case Long(l) => DecimalText(l)
    case Float(t) => t
    case Str(s) => s
    case Obj(es) => "{" + ShowEntries(es) + "}"
    case Arr(_) => "[Ljava.lang.Object;@"
    case File(p, _, _, _) => p
    case Stream(_) => "com.kesoftware.imu.TempInputStream@"
    case Other(n) => n + "@"
  }

  function ShowEntries(es: seq<Entry>): string
    decreases es
  {
    if es == [] then ""
    else
      var first := es[0].key + "=" + Show(es[0].value);
      if |es| == 1 then first else first + ", " + ShowEntries(es[1..])
  }

  /** `getClass().getName()` of a non-null value. */
  function ClassName(v: Value): string
    requires !v.Null?
  {
    match v
    case Bool(_) => "java.lang.Boolean"
    case Int(_) => "java.lang.Integer"
    case Long(_) => "java.lang.Long"
    case Float(_) => "java.lang.Double"
    case Str(_) => "java.lang.String"
    case Obj(_) => "com.kesoftware.imu.Map"
    case Arr(_) => "[Ljava.lang.Object;"
    case File(_, _, _, _) => "java.io.File"
    case Stream(_) => "com.kesoftware.imu.TempInputStream"
    case Other(n) => n
  }

  // ---------------------------------------------------------------------
  // ASCII letter case

  /** `Character.toLowerCase` restricted to ASCII letters. */
  function Lower(c: char): (d: char)
    ensures 'A' <= c <= 'Z' ==> d as int == c as int + 32
    ensures !('A' <= c <= 'Z') ==> d == c
  {
    if 'A' <= c <= 'Z' then (c as int + 32) as char else c
  }

  /** `String.toLowerCase` restricted to ASCII letters. */
  function LowerAll(s: string): (r: string)
    ensures |r| == |s| && forall i :: 0 <= i < |s| ==> r[i] == Lower(s[i])
  {
    if s == [] then [] else [Lower(s[0])] + LowerAll(s[1..])
  }

  /** A Java `Number` (Integer, Long or Double). */
  predicate IsNumber(v: Value)
  {
    v.Int? || v.Long? || v.Float?
  }
}
