/** The typed getters of com.kesoftware.imu.Map: each looks the key up and
    converts whatever object is stored there to the requested type. They
    change nothing, so they are functions over the association list. The
    Double branches are not modelled and report `Unmodelled`. */
module Maps {
  import opened Values
  import opened IMuErrors

  /** `Long.intValue()`: the low 32 bits of a long, read as a signed int. */
  function LowInt(l: int64): (r: int32)
    ensures (l - r) % 0x1_0000_0000 == 0
    ensures -0x8000_0000 <= l < 0x8000_0000 ==> r == l
  {
    var low := l % 0x1_0000_0000;
    if low < 0x8000_0000 then low else low - 0x1_0000_0000
  }

  /** `Boolean.valueOf(s)`: true exactly for "true" in any letter case. */
  predicate ParseBoolean(s: string)
  {
    LowerAll(s) == "true"
  }

  function GetBoolean(m: seq<Entry>, name: string): (r: Result<bool>)
    ensures r.Err? <==> Get(m, name).Float?
  {
    match Get(m, name)
    case Null => Ok(false)
    case Bool(b) => Ok(b)
    case Int(i) => Ok(i != 0)
    case Long(l) => Ok(l != 0)
    case Float(_) => Err(Unmodelled("Double"))
    case v => Ok(ParseBoolean(Show(v)))
  }

  function GetInt(m: seq<Entry>, name: string): (r: Result<int32>)
  {
    match Get(m, name)
    case Null => Ok(0)
    case Int(i) => Ok(i)
    case Bool(b) => Ok(if b then 1 else 0)
    case Long(l) => Ok(LowInt(l))
    case Float(_) => Err(Unmodelled("Double"))
    case v => IntOf(Show(v))
  }

  function GetLong(m: seq<Entry>, name: string): (r: Result<int64>)
  {
    match Get(m, name)
    case Null => Ok(0)
    case Long(l) => Ok(l)
    case Bool(b) => Ok(if b then 1 else 0)
    case Int(i) => Ok(i as int64)
    case Float(_) => Err(Unmodelled("Double"))
    case v => LongOf(Show(v))
  }

  /** `getString`: null stays null, anything else by its `toString`. */
  function GetString(m: seq<Entry>, name: string): (r: Option<string>)
  {
    match Get(m, name)
    case Null => None
    case Str(s) => Some(s)
    case v => Some(Show(v))
  }

  /** `getArray(name, Object[].class)`: null stays null; an array is copied;
      anything else fails the cast to Object[]. */
  function GetArray(m: seq<Entry>, name: string): (r: Result<Option<seq<Value>>>)
    ensures r == Ok(None) <==> Get(m, name).Null?
    ensures r.Ok? && r.value.Some? ==> Get(m, name) == Arr(r.value.value)
    ensures r.Err? ==> r.error == ClassCast()
  {
    match Get(m, name)
    case Null => Ok(None)
    case Arr(items) => Ok(Some(items))
    case _ => Err(ClassCast())
  }

  /** The copy into a typed array stores each element or fails with an
      ArrayStoreException at the first element of the wrong class. */
  function CopyAs(items: seq<Value>, fits: Value -> bool): (r: Result<seq<Value>>)
    ensures r.Ok? <==> forall i :: 0 <= i < |items| ==> fits(items[i])
    ensures r.Ok? ==> r.value == items
    ensures r.Err? ==> r.error == ArrayStore()
  {
    if forall i :: 0 <= i < |items| ==> fits(items[i]) then Ok(items) else Err(ArrayStore())
  }

  predicate IsMapOrNull(v: Value) { v.Null? || v.Obj? }
  predicate IsStringOrNull(v: Value) { v.Null? || v.Str? }

  function GetTypedArray(m: seq<Entry>, name: string, fits: Value -> bool): (r: Result<Option<seq<Value>>>)
  {
    var a :- GetArray(m, name);
    if a.None? then Ok(None)
    else
      var items :- CopyAs(a.value, fits);
      Ok(Some(items))
  }

  /** `getMaps`: `getArray(name, Map[].class)`. */
  function GetMaps(m: seq<Entry>, name: string): (r: Result<Option<seq<Value>>>)
    ensures r.Ok? && r.value.Some? ==> forall i :: 0 <= i < |r.value.value| ==> IsMapOrNull(r.value.value[i])
  {
    GetTypedArray(m, name, IsMapOrNull)
  }

  /** `getStrings`: `getArray(name, String[].class)`. */
  function GetStrings(m: seq<Entry>, name: string): (r: Result<Option<seq<Value>>>)
    ensures r.Ok? && r.value.Some? ==> forall i :: 0 <= i < |r.value.value| ==> IsStringOrNull(r.value.value[i])
  {
    GetTypedArray(m, name, IsStringOrNull)
  }

  /** A com.kesoftware.imu.Map object: requests are built by `put` on one
      shared object, which the session and handler then extend in place. */
  class Map {
    var entries: seq<Entry>

    constructor ()
      ensures entries == []
    {
      entries := [];
    }

    /** `HashMap.put`. */
    method Put(key: string, v: Value)
      modifies this
      ensures entries == Values.Put(old(entries), key, v)
    {
      entries := Values.Put(entries, key, v);
    }
  }

  // ---------------------------------------------------------------------
  // Properties

  /** A getter reads what `put` stored: the numeric getters give back a
      stored Long (getInt only when it fits in an int) and getString a
      stored String. */
  lemma GettersReadPut(m: seq<Entry>, name: string, l: int64, s: string)
    ensures GetLong(Put(m, name, Long(l)), name) == Ok(l)
    ensures -0x8000_0000 <= l < 0x8000_0000 ==> GetInt(Put(m, name, Long(l)), name) == Ok(l as int32)
    ensures GetString(Put(m, name, Str(s)), name) == Some(s)
    ensures GetBoolean(Put(m, name, Long(l)), name) == Ok(l != 0)
  {
    assert Get(Put(m, name, Long(l)), name) == Long(l);
    assert Get(Put(m, name, Str(s)), name) == Str(s);
  }

  /** `getString` is `toString` of whatever is stored, null aside. */
  lemma GetStringIsShow(m: seq<Entry>, name: string)
    ensures GetString(m, name) == if Get(m, name).Null? then None else Some(Show(Get(m, name)))
  {
  }

  /** A number stored as its decimal text reads back as that number. */
  lemma GetLongParsesText(m: seq<Entry>, name: string, l: int64)
    ensures GetLong(Put(m, name, Str(DecimalText(l))), name) == Ok(l)
    ensures -0x8000_0000 <= l < 0x8000_0000 ==> GetInt(Put(m, name, Str(DecimalText(l))), name) == Ok(l as int32)
  {
    var t := DecimalText(l);
    assert Get(Put(m, name, Str(t)), name) == Str(t);
    DecimalRoundTrip(l, -0x8000_0000_0000_0000, 0x7FFF_FFFF_FFFF_FFFF);
    assert LongOf(t) == Ok(l);
    if -0x8000_0000 <= l < 0x8000_0000 {
      DecimalRoundTrip(l, -0x8000_0000, 0x7FFF_FFFF);
      assert IntOf(t) == Ok(l as int32);
    }
  }

  /** getInt is getLong narrowed to 32 bits: whenever getInt succeeds,
      getLong succeeds too and agrees with it modulo 2^32. */
  lemma GetIntNarrowsGetLong(m: seq<Entry>, name: string)
    requires GetInt(m, name).Ok?
    ensures GetLong(m, name).Ok?
    ensures GetInt(m, name).value == LowInt(GetLong(m, name).value)
  {
    var v := Get(m, name);
    if !(v.Null? || v.Int? || v.Bool? || v.Long? || v.Float?) {
      var s := Show(v);
      var n := ParseDecimal(s, -0x8000_0000, 0x7FFF_FFFF);
      assert n.Some?;
      assert ParseDecimal(s, -0x8000_0000_0000_0000, 0x7FFF_FFFF_FFFF_FFFF) == n;
    }
  }

  /** For null, Boolean and integer values getBoolean is "getLong is
      nonzero". */
  lemma GetBooleanIsNonZero(m: seq<Entry>, name: string)
    requires Get(m, name).Null? || Get(m, name).Bool? || Get(m, name).Int? || Get(m, name).Long?
    ensures GetBoolean(m, name).Ok? && GetLong(m, name).Ok?
    ensures GetBoolean(m, name).value <==> GetLong(m, name).value != 0
  {
  }

  /** Strings are true exactly when they spell "true" in any case. */
  lemma GetBooleanOfText(m: seq<Entry>, name: string, s: string)
    ensures GetBoolean(Put(m, name, Str(s)), name) == Ok(ParseBoolean(s))
  {
    assert Get(Put(m, name, Str(s)), name) == Str(s);
  }

  /** `Boolean.valueOf` ignores case and accepts nothing but "true". */
  lemma ParseBooleanExamples()
    ensures ParseBoolean("TRUE") && ParseBoolean("True")
    ensures !ParseBoolean("yes") && !ParseBoolean("1") && !ParseBoolean(" true")
  {
    assert LowerAll("TRUE") == "true";
    assert LowerAll("True") == "true";
    assert LowerAll("yes")[0] == 'y';
    assert LowerAll("1")[0] == '1';
    assert LowerAll(" true")[0] == ' ';
  }

  /** getArray copies: same length and the same elements, in order. */
  lemma GetArrayCopies(m: seq<Entry>, name: string, items: seq<Value>)
    ensures GetArray(Put(m, name, Arr(items)), name) == Ok(Some(items))
  {
  }

  /** getMaps succeeds on an array exactly when every element is a Map or
      null, and then returns the array's elements. */
  lemma GetMapsTyped(m: seq<Entry>, name: string, items: seq<Value>)
    ensures GetMaps(Put(m, name, Arr(items)), name).Ok?
      <==> forall i :: 0 <= i < |items| ==> IsMapOrNull(items[i])
    ensures GetMaps(Put(m, name, Arr(items)), name).Ok? ==>
      GetMaps(Put(m, name, Arr(items)), name) == Ok(Some(items))
    ensures GetStrings(Put(m, name, Arr(items)), name).Ok?
      <==> forall i :: 0 <= i < |items| ==> IsStringOrNull(items[i])
  {
  }
}
