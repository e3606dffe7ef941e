/** com.kesoftware.imu.Module: a handler on one table. Its `do*` methods
    build an argument map, `call` the server and reshape the answer. `call`
    is Handler.call (modelled in Handlers); here it is an oracle that
    records each call and answers from the call's position and contents. */
module ModuleApi {
  import opened Values
  import opened IMuErrors
  import opened Maps
  import opened WireFormat
  import opened Sessions
  import opened Handlers
  import opened TermsLists

  /** One `call(method, params)`. */
  datatype Invocation = Invocation(name: string, params: Value)

  /** The server behind `call`. */
  class Server {
    var calls: seq<Invocation>
    const answer: (nat, Invocation) -> Result<Value>

    constructor (answer: (nat, Invocation) -> Result<Value>)
      ensures calls == [] && this.answer == answer
    {
      calls := [];
      this.answer := answer;
    }

    /** What the next call with these arguments is answered with. */
    function Next(name: string, params: Value): Result<Value>
      reads this
    {
      answer(|calls|, Invocation(name, params))
    }

    method Call(name: string, params: Value) returns (r: Value, o: Outcome)
      modifies this
      ensures calls == old(calls) + [Invocation(name, params)]
      ensures Follows(o, old(Next(name, params)), r)
    {
      var a := answer(|calls|, Invocation(name, params));
      calls := calls + [Invocation(name, params)];
      if a.Err? {
        return Null, Fail(a.error);
      }
      r, o := a.value, Pass;
    }
  }

  // ---------------------------------------------------------------------
  // Casts of the answer

  /** `(Long) answer` followed by `intValue()`. */
  function AsCount(r: Result<Value>): (c: Result<int32>)
    ensures r.Ok? && r.value.Long? ==> c == Ok(LowInt(r.value.l))
    ensures r.Ok? && r.value.Null? ==> c == Err(NullPointer())
    ensures c.Ok? ==> r.Ok? && r.value.Long?
  {
    var v :- r;
    if v.Null? then Err(NullPointer())
    else if v.Long? then Ok(LowInt(v.l))
    else Err(ClassCast())
  }

  /** `(Long) answer` unboxed to a long. */
  function AsLong(r: Result<Value>): (c: Result<int64>)
    ensures c.Ok? <==> r.Ok? && r.value.Long?
    ensures c.Ok? ==> c.value == r.value.l
  {
    var v :- r;
    if v.Null? then Err(NullPointer())
    else if v.Long? then Ok(v.l)
    else Err(ClassCast())
  }

  /** `(Map) answer`: null passes the cast. */
  function AsMap(r: Result<Value>): (c: Result<Option<seq<Entry>>>)
    ensures c == Ok(None) <==> r == Ok(Null)
    ensures c.Ok? && c.value.Some? <==> r.Ok? && r.value.Obj?
  {
    var v :- r;
    if v.Null? then Ok(None)
    else if v.Obj? then Ok(Some(v.entries))
    else Err(ClassCast())
  }

  // ---------------------------------------------------------------------
  // Argument maps

  /** `value` under `key` when it is not null: the optional `put`s. */
  function Optional(key: string, value: Value): (r: seq<Entry>)
    ensures value.Null? <==> r == []
  {
    if value.Null? then [] else [Entry(key, value)]
  }

  /** `doAddFetchSet`, `doAddSearchAlias`, `doAddSortSet`: the set's name
      and its columns (the sort keys for a sort set) under "columns". */
  function NamedColumnsArgs(name: Option<string>, columns: Value): seq<Entry>
  {
    [Entry("name", StrOrNull(name)), Entry("columns", columns)]
  }

  /** `doFetch`: flag, offset and count always, columns when not null. */
  function FetchArgs(flag: Option<string>, offset: int64, count: int32, columns: Value): seq<Entry>
  {
    [Entry("flag", StrOrNull(flag)), Entry("offset", Long(offset)), Entry("count", Int(count))]
      + Optional("columns", columns)
  }

  /** `doInsert`: the values, and columns when not null. */
  function InsertArgs(values: Value, columns: Value): seq<Entry>
  {
    [Entry("values", values)] + Optional("columns", columns)
  }

  /** `doRemove`: flag and offset always, count when not null. */
  function RemoveArgs(flag: Option<string>, offset: int64, count: Value): seq<Entry>
  {
    [Entry("flag", StrOrNull(flag)), Entry("offset", Long(offset))] + Optional("count", count)
  }

  /** `doSort`: the columns always, flags when not null. */
  function SortArgs(columns: Value, flags: Value): seq<Entry>
  {
    [Entry("columns", columns)] + Optional("flags", flags)
  }

  /** `doUpdate`: flag, offset, count and values, columns when not null. */
  function UpdateArgs(flag: Option<string>, offset: int64, count: int32, values: Value, columns: Value): seq<Entry>
  {
    [Entry("flag", StrOrNull(flag)), Entry("offset", Long(offset)), Entry("count", Int(count)), Entry("values", values)]
      + Optional("columns", columns)
  }

  // ---------------------------------------------------------------------
  // Results

  /** ModuleFetchResult: the hit count, the rows and their number. */
  datatype FetchResult = FetchResult(hits: int64, rows: seq<Value>, count: int32)

  /** `makeFetchResult`: a null or missing rows array is dereferenced for
      its length. */
  function FetchResultOf(r: Result<Value>): (f: Result<FetchResult>)
    ensures f.Ok? ==> r.Ok? && r.value.Obj? && Get(r.value.entries, "rows") == Arr(f.value.rows)
    ensures f.Ok? ==> f.value.count as int == |f.value.rows|
    ensures f.Ok? ==> forall i :: 0 <= i < |f.value.rows| ==> IsMapOrNull(f.value.rows[i])
  {
    var v :- r;
    if v.Null? then Err(NullPointer())
    else if !v.Obj? then Err(ClassCast())
    else
      var hits :- GetLong(v.entries, "hits");
      var rows :- GetMaps(v.entries, "rows");
      if rows.None? then Err(NullPointer())
      else if |rows.value| >= 0x8000_0000 then Err(Unmodelled("array longer than an int"))
      else Ok(FetchResult(hits, rows.value, |rows.value| as int32))
  }

  /** ModuleSortResult and ModuleSortTerm. */
  datatype SortResult = SortResult(count: nat, terms: seq<SortTerm>)
  datatype SortTerm = SortTerm(value: Option<string>, count: int64, nested: Option<SortResult>)

  /** `makeSortResult`: null stays null; otherwise the answer must be an
      array of maps, each giving a value, a count and, when it has a list,
      that list's result. */
  function SortResultOf(raw: Value): (r: Result<Option<SortResult>>)
    ensures raw.Null? ==> r == Ok(None)
    ensures r.Ok? && r.value.Some? ==> raw.Arr? && r.value.value.count == |raw.items|
    ensures r.Ok? && r.value.Some? ==> |r.value.value.terms| == |raw.items|
    ensures r.Ok? && r.value.Some? ==>
      forall j :: 0 <= j < |raw.items| && r.value.value.terms[j].nested.Some? ==>
        raw.items[j].Obj? && ContainsKey(raw.items[j].entries, "list")
    decreases raw, 1
  {
    if raw.Null? then Ok(None)
    else if !raw.Arr? then Err(ClassCast())
    else
      var terms :- SortTermsOf(raw, 0);
      NestedFromStart(raw, terms);
      Ok(Some(SortResult(|raw.items|, terms)))
  }

  /** The terms for the elements of `raw` from `i` on. */
  function SortTermsOf(raw: Value, i: nat): (r: Result<seq<SortTerm>>)
    requires raw.Arr? && i <= |raw.items|
    ensures r.Ok? ==> |r.value| == |raw.items| - i
    ensures r.Ok? ==> NestedWithList(raw, i, r.value)
    decreases raw, 0, |raw.items| - i
  {
    if i == |raw.items| then Ok([])
    else
      var term :- SortTermOf(raw, i);
      var rest :- SortTermsOf(raw, i + 1);
      NestedStep(raw, i, term, rest);
      Ok([term] + rest)
  }

  /** The term for element `i` of `raw`. */
  function SortTermOf(raw: Value, i: nat): (r: Result<SortTerm>)
    requires raw.Arr? && i < |raw.items|
    ensures r.Ok? && r.value.nested.Some? ==> raw.items[i].Obj? && ContainsKey(raw.items[i].entries, "list")
    decreases raw, 0, 0
  {
    var x := raw.items[i];
    if x.Null? then Err(NullPointer())
    else if !x.Obj? then Err(ClassCast())
    else
      var m := x.entries;
      var count :- GetLong(m, "count");
      if !ContainsKey(m, "list") then Ok(SortTerm(GetString(m, "value"), count, None))
      else
        var j := EntryIndex(m, "list");
        var nested :- SortResultOf(m[j].value);
        Ok(SortTerm(GetString(m, "value"), count, nested))
  }

  /** Term `j` of `ts`, made from element `i + j` of `raw`, has a nested
      result only when that element's map has a list. */
  ghost predicate NestedWithList(raw: Value, i: nat, ts: seq<SortTerm>)
    requires raw.Arr? && i + |ts| <= |raw.items|
  {
    forall j :: 0 <= j < |ts| && ts[j].nested.Some? ==>
      raw.items[i + j].Obj? && ContainsKey(raw.items[i + j].entries, "list")
  }

  lemma NestedStep(raw: Value, i: nat, term: SortTerm, rest: seq<SortTerm>)
    requires raw.Arr? && i < |raw.items| && |rest| == |raw.items| - i - 1
    requires term.nested.Some? ==> raw.items[i].Obj? && ContainsKey(raw.items[i].entries, "list")
    requires NestedWithList(raw, i + 1, rest)
    ensures NestedWithList(raw, i, [term] + rest)
  {
    var ts := [term] + rest;
    forall j | 0 <= j < |ts| && ts[j].nested.Some?
      ensures raw.items[i + j].Obj? && ContainsKey(raw.items[i + j].entries, "list")
    {
      if j > 0 {
        assert ts[j] == rest[j - 1];
        assert (i + 1) + (j - 1) == i + j;
      }
    }
  }

  lemma NestedFromStart(raw: Value, ts: seq<SortTerm>)
    requires raw.Arr? && |ts| == |raw.items| && NestedWithList(raw, 0, ts)
    ensures forall j :: 0 <= j < |raw.items| && ts[j].nested.Some? ==>
      raw.items[j].Obj? && ContainsKey(raw.items[j].entries, "list")
  {
    forall j | 0 <= j < |raw.items| && ts[j].nested.Some?
      ensures raw.items[j].Obj? && ContainsKey(raw.items[j].entries, "list")
    {
      assert 0 + j == j;
    }
  }

  /** Where `get` finds a present key. */
  function EntryIndex(m: seq<Entry>, key: string): (j: nat)
    requires ContainsKey(m, key)
    ensures j < |m| && m[j].key == key && Get(m, key) == m[j].value
  {
    if m[0].key == key then 0 else 1 + EntryIndex(m[1..], key)
  }

  /** `Number.longValue()`. */
  function LongValue(v: Value): Result<int64>
    requires IsNumber(v)
  {
    match v
    case Int(i) => Ok(i as int64)
    case Long(l) => Ok(l)
    case Float(_) => Err(Unmodelled("Double"))
  }

  /** The `find*` methods: a Number answer gives its long value; anything
      else calls the server again and throws an IMuException whose id is
      the second answer's text followed by " cannot be converted to a
      Number". `first` and `second` are the two answers. */
  function FoundCount(first: Result<Value>, second: Result<Value>): Result<int64>
  {
    var v :- first;
    if IsNumber(v) then LongValue(v)
    else
      var again :- second;
      Err(IMu(NewExc(Show(again) + " cannot be converted to a Number", [])))
  }

  /** The handler fields `initialise(table)` leaves. */
  function ModuleFields(table: string): HandlerState
  {
    HandlerState(Str(table), None, None, None, Some("Module"))
  }

  class Module {
    const server: Server
    const handler: Handler
    var table: string

    /** `Module(table, session)`: `initialise` names the handler "Module"
      and has it created for the table. */
    constructor (server: Server, session: Session, table: string)
      ensures this.server == server && fresh(handler) && handler.session == session
      ensures handler.Fields() == ModuleFields(table)
      ensures this.table == table
    {
      this.server := server;
      handler := new Handler(session);
      this.table := table;
      new;
      handler.name := Some("Module");
      handler.create := Str(table);
    }

    method AddSet(kind: string, name: Option<string>, columns: Value) returns (n: int32, o: Outcome)
      modifies server
      ensures server.calls == old(server.calls) + [Invocation(kind, Obj(NamedColumnsArgs(name, columns)))]
      ensures Follows(o, AsCount(old(server.Next(kind, Obj(NamedColumnsArgs(name, columns))))), n)
    {
      var r;
      r, o := server.Call(kind, Obj(NamedColumnsArgs(name, columns)));
      if o.Fail? {
        return 0, o;
      }
      if r.Null? {
        return 0, Fail(NullPointer());
      }
      if !r.Long? {
        return 0, Fail(ClassCast());
      }
      n := LowInt(r.l);
    }

    /** `doAddFetchSet`. */
    method DoAddFetchSet(name: Option<string>, columns: Value) returns (n: int32, o: Outcome)
      modifies server
      ensures server.calls == old(server.calls) + [Invocation("addFetchSet", Obj(NamedColumnsArgs(name, columns)))]
      ensures Follows(o, AsCount(old(server.Next("addFetchSet", Obj(NamedColumnsArgs(name, columns))))), n)
    {
      n, o := AddSet("addFetchSet", name, columns);
    }

    /** `doAddSearchAlias`. */
    method DoAddSearchAlias(name: Option<string>, columns: Value) returns (n: int32, o: Outcome)
      modifies server
      ensures server.calls == old(server.calls) + [Invocation("addSearchAlias", Obj(NamedColumnsArgs(name, columns)))]
      ensures Follows(o, AsCount(old(server.Next("addSearchAlias", Obj(NamedColumnsArgs(name, columns))))), n)
    {
      n, o := AddSet("addSearchAlias", name, columns);
    }

    /** `doAddSortSet`: the keys go under "columns". */
    method DoAddSortSet(name: Option<string>, keys: Value) returns (n: int32, o: Outcome)
      modifies server
      ensures server.calls == old(server.calls) + [Invocation("addSortSet", Obj(NamedColumnsArgs(name, keys)))]
      ensures Follows(o, AsCount(old(server.Next("addSortSet", Obj(NamedColumnsArgs(name, keys))))), n)
    {
      n, o := AddSet("addSortSet", name, keys);
    }

    /** `doFetch`. */
    method DoFetch(flag: Option<string>, offset: int64, count: int32, columns: Value) returns (f: FetchResult, o: Outcome)
      modifies server
      ensures var args := Obj(FetchArgs(flag, offset, count, columns));
        && server.calls == old(server.calls) + [Invocation("fetch", args)]
        && Follows(o, FetchResultOf(old(server.Next("fetch", args))), f)
    {
      var args := Obj(FetchArgs(flag, offset, count, columns));
      ghost var a := server.Next("fetch", args);
      var r;
      r, o := server.Call("fetch", args);
      if o.Fail? {
        return FetchResult(0, [], 0), o;
      }
      assert a == Ok(r);
      match FetchResultOf(Ok(r))
      case Ok(result) => f := result;
      case Err(e) => f, o := FetchResult(0, [], 0), Fail(e);
    }

    /** `doInsert`. */
    method DoInsert(values: Value, columns: Value) returns (m: Option<seq<Entry>>, o: Outcome)
      modifies server
      ensures server.calls == old(server.calls) + [Invocation("insert", Obj(InsertArgs(values, columns)))]
      ensures Follows(o, AsMap(old(server.Next("insert", Obj(InsertArgs(values, columns))))), m)
    {
      var r;
      r, o := server.Call("insert", Obj(InsertArgs(values, columns)));
      if o.Fail? {
        return None, o;
      }
      if r.Null? {
        return None, Pass;
      }
      if !r.Obj? {
        return None, Fail(ClassCast());
      }
      m := Some(r.entries);
    }

    /** `doRemove`. */
    method DoRemove(flag: Option<string>, offset: int64, count: Value) returns (n: int64, o: Outcome)
      modifies server
      ensures server.calls == old(server.calls) + [Invocation("remove", Obj(RemoveArgs(flag, offset, count)))]
      ensures Follows(o, AsLong(old(server.Next("remove", Obj(RemoveArgs(flag, offset, count))))), n)
    {
      var r;
      r, o := server.Call("remove", Obj(RemoveArgs(flag, offset, count)));
      if o.Fail? {
        return 0, o;
      }
      if r.Null? {
        return 0, Fail(NullPointer());
      }
      if !r.Long? {
        return 0, Fail(ClassCast());
      }
      n := r.l;
    }

    /** `doSort`. */
    method DoSort(columns: Value, flags: Value) returns (s: Option<SortResult>, o: Outcome)
      modifies server
      ensures var args := Obj(SortArgs(columns, flags));
        && server.calls == old(server.calls) + [Invocation("sort", args)]
        && var a := old(server.Next("sort", args));
        if a.Err? then o == Fail(a.error) else Follows(o, SortResultOf(a.value), s)
    {
      var r;
      r, o := server.Call("sort", Obj(SortArgs(columns, flags)));
      if o.Fail? {
        return None, o;
      }
      s, o := MakeSortResult(r);
    }

    /** `doUpdate`. */
    method DoUpdate(flag: Option<string>, offset: int64, count: int32, values: Value, columns: Value)
      returns (f: FetchResult, o: Outcome)
      modifies server
      ensures var args := Obj(UpdateArgs(flag, offset, count, values, columns));
        && server.calls == old(server.calls) + [Invocation("update", args)]
        && Follows(o, FetchResultOf(old(server.Next("update", args))), f)
    {
      var args := Obj(UpdateArgs(flag, offset, count, values, columns));
      ghost var a := server.Next("update", args);
      var r;
      r, o := server.Call("update", args);
      if o.Fail? {
        return FetchResult(0, [], 0), o;
      }
      assert a == Ok(r);
      match FetchResultOf(Ok(r))
      case Ok(result) => f := result;
      case Err(e) => f, o := FetchResult(0, [], 0), Fail(e);
    }

    /** The `find*` methods' shared body. */
    method FindCount(name: string, params: Value) returns (n: int64, o: Outcome)
      modifies server
      ensures var c := Invocation(name, params);
        var first := server.answer(|old(server.calls)|, c);
        var second := server.answer(|old(server.calls)| + 1, c);
        && server.calls == old(server.calls) + (if first.Ok? && !IsNumber(first.value) then [c, c] else [c])
        && Follows(o, FoundCount(first, second), n)
    {
      ghost var c := Invocation(name, params);
      ghost var first := server.answer(|server.calls|, c);
      ghost var second := server.answer(|server.calls| + 1, c);
      var r;
      r, o := server.Call(name, params);
      if o.Fail? {
        return 0, o;
      }
      assert first == Ok(r);
      if IsNumber(r) {
        match LongValue(r) {
          case Ok(l) => n := l;
          case Err(e) => n, o := 0, Fail(e);
        }
        return;
      }
      var again;
      again, o := server.Call(name, params);
      if o.Fail? {
        assert old(server.calls) + [c] + [c] == old(server.calls) + [c, c];
        return 0, o;
      }
      assert second == Ok(again);
      assert old(server.calls) + [c] + [c] == old(server.calls) + [c, c];
      n, o := 0, Fail(IMu(NewExc(Show(again) + " cannot be converted to a Number", [])));
    }

    /** `findKey(key)`. */
    method FindKey(key: int64) returns (n: int64, o: Outcome)
      modifies server
      ensures var c := Invocation("findKey", Long(key));
        var first := server.answer(|old(server.calls)|, c);
        && server.calls == old(server.calls) + (if first.Ok? && !IsNumber(first.value) then [c, c] else [c])
        && Follows(o, FoundCount(first, server.answer(|old(server.calls)| + 1, c)), n)
    {
      n, o := FindCount("findKey", Long(key));
    }

    /** `findKeys(long[] keys)` as written: the primitive array is passed
      as the parameter object itself, a `long[]`. */
    method FindKeysArray(keys: seq<int64>) returns (n: int64, o: Outcome)
      modifies server
      ensures var c := Invocation("findKeys", PrimitiveLongs(keys));
        var first := server.answer(|old(server.calls)|, c);
        && server.calls == old(server.calls) + (if first.Ok? && !IsNumber(first.value) then [c, c] else [c])
        && Follows(o, FoundCount(first, server.answer(|old(server.calls)| + 1, c)), n)
    {
      n, o := FindCount("findKeys", PrimitiveLongs(keys));
    }

    /** `findKeys(ArrayList<Long> keys)`: the keys go as an Object array of
      Longs. This is also what `findKeys(long[])` evidently means to send. */
    method FindKeys(keys: seq<int64>) returns (n: int64, o: Outcome)
      modifies server
      ensures var c := Invocation("findKeys", Arr(Longs(keys)));
        var first := server.answer(|old(server.calls)|, c);
        && server.calls == old(server.calls) + (if first.Ok? && !IsNumber(first.value) then [c, c] else [c])
        && Follows(o, FoundCount(first, server.answer(|old(server.calls)| + 1, c)), n)
    {
      n, o := FindCount("findKeys", Arr(Longs(keys)));
    }

    /** `findTerms(terms)`: the terms' `toArray()`. */
    method FindTerms(heap: Heap, t: nat) returns (n: int64, o: Outcome)
      requires heap.Valid() && t < |heap.kinds|
      modifies server
      ensures var c := Invocation("findTerms", Render(heap.Contents(), t));
        var first := server.answer(|old(server.calls)|, c);
        && server.calls == old(server.calls) + (if first.Ok? && !IsNumber(first.value) then [c, c] else [c])
        && Follows(o, FoundCount(first, server.answer(|old(server.calls)| + 1, c)), n)
    {
      var terms := heap.ToArray(t);
      n, o := FindCount("findTerms", terms);
    }

    /** `findWhere(where)`. */
    method FindWhere(where: Option<string>) returns (n: int64, o: Outcome)
      modifies server
      ensures var c := Invocation("findWhere", StrOrNull(where));
        var first := server.answer(|old(server.calls)|, c);
        && server.calls == old(server.calls) + (if first.Ok? && !IsNumber(first.value) then [c, c] else [c])
        && Follows(o, FoundCount(first, server.answer(|old(server.calls)| + 1, c)), n)
    {
      n, o := FindCount("findWhere", StrOrNull(where));
    }
  }

  /** `makeSortResult`: fills the term array element by element, building
      nested results recursively. */
  method MakeSortResult(raw: Value) returns (s: Option<SortResult>, o: Outcome)
    ensures Follows(o, SortResultOf(raw), s)
    decreases raw, 1
  {
    if raw.Null? {
      return None, Pass;
    }
    if !raw.Arr? {
      return None, Fail(ClassCast());
    }
    var list := raw.items;
    var terms: seq<SortTerm> := [];
    var i := 0;
    if SortTermsOf(raw, 0).Ok? {
      assert [] + SortTermsOf(raw, 0).value == SortTermsOf(raw, 0).value;
    }
    while i < |list|
      invariant 0 <= i <= |list|
      invariant SortTermsOf(raw, 0) == Prefixed(terms, SortTermsOf(raw, i))
    {
      var term;
      term, o := MakeSortTerm(raw, i);
      if o.Fail? {
        return None, o;
      }
      PrefixedStep(raw, i, terms, term);
      terms := terms + [term];
      i := i + 1;
    }
    assert SortTermsOf(raw, i) == Ok([]);
    assert terms + [] == terms;
    return Some(SortResult(|list|, terms)), Pass;
  }

  /** `terms` followed by the rest, or the rest's failure. */
  function Prefixed<T>(done: seq<T>, rest: Result<seq<T>>): (r: Result<seq<T>>)
    ensures rest.Ok? <==> r.Ok?
    ensures rest.Ok? ==> r.value == done + rest.value
  {
    if rest.Ok? then Ok(done + rest.value) else Err(rest.error)
  }

  lemma PrefixedStep(raw: Value, i: nat, terms: seq<SortTerm>, term: SortTerm)
    requires raw.Arr? && i < |raw.items| && SortTermOf(raw, i) == Ok(term)
    ensures Prefixed(terms, SortTermsOf(raw, i)) == Prefixed(terms + [term], SortTermsOf(raw, i + 1))
  {
    var rest := SortTermsOf(raw, i + 1);
    if rest.Ok? {
      assert terms + ([term] + rest.value) == terms + [term] + rest.value;
    }
  }

  /** One turn of `makeSortResult`'s loop. */
  method MakeSortTerm(raw: Value, i: nat) returns (term: SortTerm, o: Outcome)
    requires raw.Arr? && i < |raw.items|
    ensures Follows(o, SortTermOf(raw, i), term)
    decreases raw, 0, 0
  {
    var x := raw.items[i];
    term := SortTerm(None, 0, None);
    if x.Null? {
      return term, Fail(NullPointer());
    }
    if !x.Obj? {
      return term, Fail(ClassCast());
    }
    var m := x.entries;
    var value := GetString(m, "value");
    var count := GetLong(m, "count");
    if count.Err? {
      return term, Fail(count.error);
    }
    var nested := None;
    if ContainsKey(m, "list") {
      var j := EntryIndex(m, "list");
      nested, o := MakeSortResult(m[j].value);
      if o.Fail? {
        return term, o;
      }
    }
    return SortTerm(value, count.value, nested), Pass;
  }

  /** A `long[]`: not an Object[], so the codec knows it only by its class
      name. */
  function PrimitiveLongs(keys: seq<int64>): Value
  {
    Other("[J")
  }

  function Longs(keys: seq<int64>): (r: seq<Value>)
    ensures |r| == |keys| && forall i :: 0 <= i < |keys| ==> r[i] == Long(keys[i])
  {
    seq(|keys|, i requires 0 <= i < |keys| => Long(keys[i]))
  }

  // ---------------------------------------------------------------------
  // Properties

  /** Until the server assigns an id, every request of a new module names
      the class "Module" and carries the table as its creation argument. */
  lemma ModuleAddressing(table: string, req: seq<Entry>)
    ensures Find(WithHandlerFields(ModuleFields(table), req), "name") == Some(Str("Module"))
    ensures Find(WithHandlerFields(ModuleFields(table), req), "create") == Some(Str(table))
    ensures Find(WithHandlerFields(ModuleFields(table), req), "id") == Find(req, "id")
  {
    NameAddressing(ModuleFields(table), req);
  }

  /** `find*`: the count is the answer's long value exactly when the first
      answer is an Integer or a Long; any other answer is an IMuException
      naming the second answer. */
  lemma FoundCountRules(first: Result<Value>, second: Result<Value>)
    ensures FoundCount(first, second).Ok? <==> first.Ok? && (first.value.Int? || first.value.Long?)
    ensures first.Ok? && first.value.Long? ==> FoundCount(first, second) == Ok(first.value.l)
    ensures first.Ok? && first.value.Int? ==> FoundCount(first, second) == Ok(first.value.i as int64)
    ensures first.Ok? && !IsNumber(first.value) && second.Ok? ==>
      FoundCount(first, second) == Err(IMu(NewExc(Show(second.value) + " cannot be converted to a Number", [])))
    ensures first.Err? ==> FoundCount(first, second) == Err(first.error)
  {
  }

  /** A fetch answer without rows, or a null answer, is a
      NullPointerException. */
  lemma FetchNeedsRows(r: Result<Value>)
    requires r == Ok(Null) || (r.Ok? && r.value.Obj? && !ContainsKey(r.value.entries, "rows")
      && GetLong(r.value.entries, "hits").Ok?)
    ensures FetchResultOf(r) == Err(NullPointer())
  {
  }

  // ---------------------------------------------------------------------
  // `findKeys(long[])`

  /** The map starts with these two entries. */
  predicate Headed(m: seq<Entry>, a: Entry, b: Entry)
  {
    |m| >= 2 && m[0] == a && m[1] == b
  }

  lemma PutHeaded(m: seq<Entry>, k: string, v: Value, a: Entry, b: Entry)
    requires Headed(m, a, b) && k != a.key && k != b.key
    ensures Headed(Put(m, k, v), a, b)
  {
    assert Put(m, k, v) == [m[0]] + Put(m[1..], k, v);
    assert Put(m[1..], k, v) == [m[1]] + Put(m[2..], k, v);
  }

  /** The keys a handler adds are neither "method" nor "params", so the
      request's first two entries stay in place. */
  lemma AddressedKeepsHead(h: HandlerState, req: seq<Entry>, a: Entry, b: Entry)
    requires Headed(req, a, b) && a.key == "method" && b.key == "params"
    ensures Headed(Addressed(h, req), a, b)
  {
    if h.id.Some? {
      PutHeaded(req, "id", Str(h.id.value), a, b);
    } else if h.name.Some? {
      PutHeaded(req, "name", Str(h.name.value), a, b);
      if !h.create.Null? {
        PutHeaded(Put(req, "name", Str(h.name.value)), "create", h.create, a, b);
      }
    }
  }

  lemma OptionsKeepHead(h: HandlerState, r1: seq<Entry>, a: Entry, b: Entry)
    requires Headed(r1, a, b) && a.key == "method" && b.key == "params"
    ensures Headed(WithOptions(h, r1), a, b)
  {
    var r2 := if h.destroy.Some? then Put(r1, "destroy", Bool(h.destroy.value)) else r1;
    if h.destroy.Some? {
      PutHeaded(r1, "destroy", Bool(h.destroy.value), a, b);
    }
    if h.language.Some? {
      PutHeaded(r2, "language", Str(h.language.value), a, b);
    }
  }

  lemma SessionKeepsHead(s: SessionState, req: seq<Entry>, a: Entry, b: Entry)
    requires Headed(req, a, b) && a.key == "method" && b.key == "params"
    ensures Headed(WithSessionFields(s, req), a, b)
  {
    var r1 := if s.close.Some? then Put(req, "close", Bool(s.close.value)) else req;
    var r2 := if s.context.Some? then Put(r1, "context", Str(s.context.value)) else r1;
    if s.close.Some? {
      PutHeaded(req, "close", Bool(s.close.value), a, b);
    }
    if s.context.Some? {
      PutHeaded(r1, "context", Str(s.context.value), a, b);
    }
    if s.suspend.Some? {
      PutHeaded(r2, "suspend", Bool(s.suspend.value), a, b);
    }
  }

  /** A map whose second entry cannot be written fails with that entry's
      error, whatever follows. */
  lemma SecondEntryStops(es: seq<Entry>, indent: nat, name: string)
    requires Headed(es, Entry("method", Str(name)), Entry("params", Other("[J")))
    ensures EmitEntries(es, indent).outcome == Fail(StreamError("StreamType", [Str("[J")]))
  {
    assert Emit(es[0].value, indent).outcome == Pass;
    var tail := es[1..];
    assert tail[0] == es[1];
    assert Emit(tail[0].value, indent).outcome == Fail(StreamError("StreamType", [Str("[J")]));
    assert EmitEntries(tail, indent).outcome == Fail(StreamError("StreamType", [Str("[J")]));
  }

  lemma StoppedMessage(m: seq<Entry>, name: string)
    requires Headed(m, Entry("method", Str(name)), Entry("params", Other("[J")))
    ensures WriteMessage(Obj(m)).outcome == Fail(IMu(NewExc("StreamType", [Str("[J")])))
  {
    SecondEntryStops(m, 1, name);
    FailedMessage(m, StreamError("StreamType", [Str("[J")]));
  }

  /** A message whose entries fail with an IMuException fails with it. */
  lemma FailedMessage(m: seq<Entry>, e: Failure)
    requires EmitEntries(m, 1).outcome == Fail(e) && e.IMu?
    ensures WriteMessage(Obj(m)).outcome == Fail(e)
  {
  }

  /** An exchange whose request cannot be written ends with the writer's
      failure. */
  lemma WriteFailureEndsExchange(s: SessionState, req: seq<Entry>, env: Env)
    requires Connected(s, env.connect).Ok?
    requires WriteMessage(Obj(WithSessionFields(Connected(s, env.connect).value, req))).outcome.Fail?
    ensures Exchanged(s, req, env).result
      == Err(WriteMessage(Obj(WithSessionFields(Connected(s, env.connect).value, req))).outcome.error)
  {
  }

  /** `call`'s map with a parameter: the method, then the parameter. */
  lemma CallHead(name: string, params: Value)
    requires !params.Null?
    ensures CallRequest(name, params) == [Entry("method", Str(name)), Entry("params", params)]
  {
  }

  /** What the handler and the session add leaves the first two entries. */
  lemma FieldsKeepHead(s: SessionState, h: HandlerState, req: seq<Entry>, a: Entry, b: Entry)
    requires Headed(req, a, b) && a.key == "method" && b.key == "params"
    ensures Headed(WithSessionFields(s, WithHandlerFields(h, req)), a, b)
  {
    AddressedKeepsHead(h, req, a, b);
    OptionsKeepHead(h, Addressed(h, req), a, b);
    SessionKeepsHead(s, WithHandlerFields(h, req), a, b);
  }

  /** As written, `findKeys(long[])` is never sent: whatever the handler
      and session state, once connected, writing the request stops at the
      `long[]` parameter with the StreamType error naming its class "[J". */
  lemma PrimitiveKeysNeverSent(s: SessionState, h: HandlerState, keys: seq<int64>, env: Env)
    requires Connected(s, env.connect).Ok?
    ensures Exchanged(s, WithHandlerFields(h, CallRequest("findKeys", PrimitiveLongs(keys))), env).result
      == Err(IMu(NewExc("StreamType", [Str("[J")])))
  {
    var req := CallRequest("findKeys", PrimitiveLongs(keys));
    CallHead("findKeys", PrimitiveLongs(keys));
    var s1 := Connected(s, env.connect).value;
    FieldsKeepHead(s1, h, req, req[0], req[1]);
    var sent := WithSessionFields(s1, WithHandlerFields(h, req));
    StoppedMessage(sent, "findKeys");
    WriteFailureEndsExchange(s, WithHandlerFields(h, req), env);
  }

  /** Values the writer handles without failing: scalars, strings and
      arrays of longs. */
  predicate Plain(v: Value)
  {
    v.Null? || v.Bool? || v.Str? || v.Int? || v.Long?
    || (v.Arr? && forall i :: 0 <= i < |v.items| ==> v.items[i].Long?)
  }

  predicate AllPlain(m: seq<Entry>)
  {
    forall i :: 0 <= i < |m| ==> Plain(m[i].value)
  }

  lemma {:induction false} PutPlain(m: seq<Entry>, k: string, v: Value)
    requires AllPlain(m) && Plain(v)
    ensures AllPlain(Put(m, k, v))
    decreases |m|
  {
    if m != [] && m[0].key != k {
      PutPlain(m[1..], k, v);
      var r := Put(m, k, v);
      assert r == [m[0]] + Put(m[1..], k, v);
      forall i | 0 <= i < |r| ensures Plain(r[i].value) {
        if i > 0 {
          assert r[i] == Put(m[1..], k, v)[i - 1];
        }
      }
    }
  }

  lemma {:induction false} LongsWritten(xs: seq<Value>, indent: nat)
    requires forall i :: 0 <= i < |xs| ==> xs[i].Long?
    ensures EmitItems(xs, indent).outcome == Pass
    decreases |xs|
  {
    if xs != [] {
      LongsWritten(xs[1..], indent);
    }
  }

  lemma PlainValueWritten(v: Value, indent: nat)
    requires Plain(v)
    ensures Emit(v, indent).outcome == Pass
  {
    if v.Arr? {
      LongsWritten(v.items, indent + 1);
    }
  }

  lemma {:induction false} PlainWritten(es: seq<Entry>, indent: nat)
    requires AllPlain(es)
    ensures EmitEntries(es, indent).outcome == Pass
    decreases |es|
  {
    if es != [] {
      PlainValueWritten(es[0].value, indent);
      PlainWritten(es[1..], indent);
    }
  }

  lemma AddressedPlain(h: HandlerState, req: seq<Entry>)
    requires AllPlain(req) && (h.create.Null? || h.create.Str?)
    ensures AllPlain(Addressed(h, req))
  {
    if h.id.Some? {
      PutPlain(req, "id", Str(h.id.value));
    } else if h.name.Some? {
      PutPlain(req, "name", Str(h.name.value));
      if !h.create.Null? {
        PutPlain(Put(req, "name", Str(h.name.value)), "create", h.create);
      }
    }
  }

  lemma OptionsPlain(h: HandlerState, r1: seq<Entry>)
    requires AllPlain(r1)
    ensures AllPlain(WithOptions(h, r1))
  {
    var r2 := if h.destroy.Some? then Put(r1, "destroy", Bool(h.destroy.value)) else r1;
    if h.destroy.Some? {
      PutPlain(r1, "destroy", Bool(h.destroy.value));
    }
    if h.language.Some? {
      PutPlain(r2, "language", Str(h.language.value));
    }
  }

  lemma SessionPlain(s: SessionState, req: seq<Entry>)
    requires AllPlain(req)
    ensures AllPlain(WithSessionFields(s, req))
  {
    var r1 := if s.close.Some? then Put(req, "close", Bool(s.close.value)) else req;
    var r2 := if s.context.Some? then Put(r1, "context", Str(s.context.value)) else r1;
    if s.close.Some? {
      PutPlain(req, "close", Bool(s.close.value));
    }
    if s.context.Some? {
      PutPlain(r1, "context", Str(s.context.value));
    }
    if s.suspend.Some? {
      PutPlain(r2, "suspend", Bool(s.suspend.value));
    }
  }

  /** The keys as an Object[] of Longs, as `findKeys(ArrayList)` sends
      them, are written in full: with the handler's creation argument a
      string (as a module's table is), the whole request is written and
      the call reaches the server. */
  lemma ListKeysSent(s: SessionState, h: HandlerState, keys: seq<int64>)
    requires h.create.Null? || h.create.Str?
    ensures WriteMessage(Obj(WithSessionFields(s, WithHandlerFields(h, CallRequest("findKeys", Arr(Longs(keys))))))).outcome == Pass
  {
    PlainCallWritten(s, h, "findKeys", Arr(Longs(keys)));
  }

  /** A call whose parameter and fields are all plain is written in full. */
  lemma PlainCallWritten(s: SessionState, h: HandlerState, name: string, params: Value)
    requires Plain(params) && !params.Null? && (h.create.Null? || h.create.Str?)
    ensures WriteMessage(Obj(WithSessionFields(s, WithHandlerFields(h, CallRequest(name, params))))).outcome == Pass
  {
    var req := CallRequest(name, params);
    CallHead(name, params);
    assert AllPlain(req);
    FieldsPlain(s, h, req);
    PlainMessage(WithSessionFields(s, WithHandlerFields(h, req)));
  }

  lemma PlainMessage(m: seq<Entry>)
    requires AllPlain(m)
    ensures WriteMessage(Obj(m)).outcome == Pass
  {
    PlainWritten(m, 1);
  }

  lemma FieldsPlain(s: SessionState, h: HandlerState, req: seq<Entry>)
    requires AllPlain(req) && (h.create.Null? || h.create.Str?)
    ensures AllPlain(WithSessionFields(s, WithHandlerFields(h, req)))
  {
    AddressedPlain(h, req);
    OptionsPlain(h, Addressed(h, req));
    SessionPlain(s, WithHandlerFields(h, req));
  }
}
