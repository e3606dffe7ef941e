/** com.kesoftware.imu.Modules: a handler on the server's multi-module
    search object. As for Module, `call` is the recording oracle Server. */
module ModulesApi {
  import opened Values
  import opened IMuErrors
  import opened Maps
  import opened Sessions
  import opened Handlers
  import opened TermsLists
  import opened ModuleApi

  /** The handler fields `initialise` leaves: only the class name. */
  function ModulesFields(): HandlerState
  {
    HandlerState(Null, None, None, None, Some("Modules"))
  }

  /** `addFetchSet`, `addSearchAlias`, `addSortSet`: the name and the set. */
  function NamedSetArgs(name: Option<string>, setMap: Value): seq<Entry>
  {
    [Entry("name", StrOrNull(name)), Entry("set", setMap)]
  }

  /** ModulesKey: a module name and a key in it. */
  datatype Key = Key(moduleName: Option<string>, key: int64)

  /** The `[module, key]` pair `doFindKeys` sends for one key. */
  function KeyPair(k: Key): Value
  {
    Arr([StrOrNull(k.moduleName), Long(k.key)])
  }

  /** The list `doFindKeys` sends: one pair per key, in order. */
  function KeyPairs(keys: seq<Key>): (r: seq<Value>)
    ensures |r| == |keys|
  {
    seq(|keys|, i requires 0 <= i < |keys| => KeyPair(keys[i]))
  }

  /** The key a pair stands for, as the server reads it back. */
  function PairKey(v: Value): Option<Key>
  {
    if v.Arr? && |v.items| == 2 && (v.items[0].Null? || v.items[0].Str?) && v.items[1].Long? then
      Some(Key(if v.items[0].Str? then Some(v.items[0].s) else None, v.items[1].l))
    else None
  }

  function FindKeysArgs(pairs: seq<Value>, included: Value): seq<Entry>
  {
    [Entry("keys", Arr(pairs))] + Optional("include", included)
  }

  function FindTermsArgs(terms: Value, included: Value): seq<Entry>
  {
    [Entry("terms", terms)] + Optional("include", included)
  }

  function SortSetArgs(setMap: Value, flags: Value): seq<Entry>
  {
    [Entry("set", setMap)] + Optional("flags", flags)
  }

  /** `(Object[]) answer` copied into a String[]: a null answer is
      dereferenced for its length, and an element that is not a string
      fails the copy. */
  function StringsOf(r: Result<Value>): (c: Result<seq<Value>>)
    ensures c.Ok? <==> r.Ok? && r.value.Arr? && forall i :: 0 <= i < |r.value.items| ==> IsStringOrNull(r.value.items[i])
    ensures c.Ok? ==> c.value == r.value.items
  {
    var v :- r;
    if v.Null? then Err(NullPointer())
    else if !v.Arr? then Err(ClassCast())
    else CopyAs(v.items, IsStringOrNull)
  }

  /** ModulesFetchPosition. */
  datatype Position = Position(flag: Option<string>, offset: int64)

  /** `makePosition`. */
  function PositionOf(raw: Value): (r: Result<Position>)
    ensures r.Ok? ==> raw.Obj? && r.value.flag == GetString(raw.entries, "flag")
    ensures r.Ok? ==> GetLong(raw.entries, "offset") == Ok(r.value.offset)
    ensures r.Ok? <==> raw.Obj? && GetLong(raw.entries, "offset").Ok?
  {
    if raw.Null? then Err(NullPointer())
    else if !raw.Obj? then Err(ClassCast())
    else
      var offset :- GetLong(raw.entries, "offset");
      Ok(Position(GetString(raw.entries, "flag"), offset))
  }

  /** ModulesFetchModule. */
  datatype FetchModule = FetchModule(hits: int64, index: int32, name: Option<string>, rows: Option<seq<Value>>)

  /** One module of the answer. */
  function FetchModuleOf(v: Value): Result<FetchModule>
  {
    if v.Null? then Err(NullPointer())
    else if !v.Obj? then Err(ClassCast())
    else
      var hits :- GetLong(v.entries, "hits");
      var index :- GetInt(v.entries, "index");
      var rows :- GetMaps(v.entries, "rows");
      Ok(FetchModule(hits, index, GetString(v.entries, "name"), rows))
  }

  /** `read` applied to the elements from `i` on, in order, stopping at
      the first that fails: the shape of a loop that fills an array and
      lets the first exception out. */
  function Collected<T>(read: Value -> Result<T>, list: seq<Value>, i: nat): (r: Result<seq<T>>)
    requires i <= |list|
    ensures r.Ok? ==> |r.value| == |list| - i
    ensures r.Ok? ==> forall j :: i <= j < |list| ==> read(list[j]) == Ok(r.value[j - i])
    decreases |list| - i
  {
    if i == |list| then Ok([])
    else
      var m :- read(list[i]);
      var rest :- Collected(read, list, i + 1);
      Ok([m] + rest)
  }

  /** ModulesFetchResult. */
  datatype ModulesFetch = ModulesFetch(
    count: int32,
    modules: seq<FetchModule>,
    current: Option<Position>,
    prev: Option<Position>,
    next: Option<Position>)

  /** A position when the answer has the key. */
  function PositionIf(d: seq<Entry>, key: string): (r: Result<Option<Position>>)
    ensures r.Ok? ==> (r.value.Some? <==> ContainsKey(d, key))
    ensures r.Ok? && r.value.Some? ==> PositionOf(Get(d, key)) == Ok(r.value.value)
  {
    if !ContainsKey(d, key) then Ok(None)
    else
      var p :- PositionOf(Get(d, key));
      Ok(Some(p))
  }

  /** `doFetch`'s reshaping of the answer. */
  function ModulesFetchOf(r: Result<Value>): (f: Result<ModulesFetch>)
    ensures f.Ok? ==> r.Ok? && r.value.Obj?
    ensures f.Ok? ==> var d := r.value.entries;
      && GetInt(d, "count") == Ok(f.value.count)
      && GetMaps(d, "modules").Ok? && GetMaps(d, "modules").value.Some?
      && |f.value.modules| == |GetMaps(d, "modules").value.value|
      && (forall j :: 0 <= j < |f.value.modules| ==>
            FetchModuleOf(GetMaps(d, "modules").value.value[j]) == Ok(f.value.modules[j]))
      && (f.value.current.Some? <==> ContainsKey(d, "current"))
      && (f.value.prev.Some? <==> ContainsKey(d, "prev"))
      && (f.value.next.Some? <==> ContainsKey(d, "next"))
      && (f.value.current.Some? ==> PositionOf(Get(d, "current")) == Ok(f.value.current.value))
      && (f.value.prev.Some? ==> PositionOf(Get(d, "prev")) == Ok(f.value.prev.value))
      && (f.value.next.Some? ==> PositionOf(Get(d, "next")) == Ok(f.value.next.value))
  {
    var v :- r;
    if v.Null? then Err(NullPointer())
    else if !v.Obj? then Err(ClassCast())
    else
      var d := v.entries;
      var count :- GetInt(d, "count");
      var list :- GetMaps(d, "modules");
      if list.None? then Err(NullPointer())
      else
        var modules :- Collected(FetchModuleOf, list.value, 0);
        var current :- PositionIf(d, "current");
        var prev :- PositionIf(d, "prev");
        var next :- PositionIf(d, "next");
        Ok(ModulesFetch(count, modules, current, prev, next))
  }

  class Modules {
    const server: Server
    const handler: Handler

    /** `Modules(session)`: `initialise` names the handler "Modules". */
    constructor (server: Server, session: Session)
      ensures this.server == server && fresh(handler) && handler.session == session
      ensures handler.Fields() == ModulesFields()
    {
      this.server := server;
      handler := new Handler(session);
      new;
      handler.name := Some("Modules");
    }

    method AddSet(kind: string, name: Option<string>, setMap: Value) returns (n: int32, o: Outcome)
      modifies server
      ensures server.calls == old(server.calls) + [Invocation(kind, Obj(NamedSetArgs(name, setMap)))]
      ensures Follows(o, AsCount(old(server.Next(kind, Obj(NamedSetArgs(name, setMap))))), n)
    {
      var r;
      r, o := server.Call(kind, Obj(NamedSetArgs(name, setMap)));
      if o.Fail? {
        return 0, o;
      }
      if r.Null? {
        return 0, Fail(NullPointer());
      }
      if !r.Long? {
        return 0, Fail(ClassCast());
      }
      n := LowInt(r.l);
    }

    /** `addFetchSet`. */
    method AddFetchSet(name: Option<string>, setMap: Value) returns (n: int32, o: Outcome)
      modifies server
      ensures server.calls == old(server.calls) + [Invocation("addFetchSet", Obj(NamedSetArgs(name, setMap)))]
      ensures Follows(o, AsCount(old(server.Next("addFetchSet", Obj(NamedSetArgs(name, setMap))))), n)
    {
      n, o := AddSet("addFetchSet", name, setMap);
    }

    /** `addSearchAlias`. */
    method AddSearchAlias(name: Option<string>, setMap: Value) returns (n: int32, o: Outcome)
      modifies server
      ensures server.calls == old(server.calls) + [Invocation("addSearchAlias", Obj(NamedSetArgs(name, setMap)))]
      ensures Follows(o, AsCount(old(server.Next("addSearchAlias", Obj(NamedSetArgs(name, setMap))))), n)
    {
      n, o := AddSet("addSearchAlias", name, setMap);
    }

    /** `addSortSet`. */
    method AddSortSet(name: Option<string>, setMap: Value) returns (n: int32, o: Outcome)
      modifies server
      ensures server.calls == old(server.calls) + [Invocation("addSortSet", Obj(NamedSetArgs(name, setMap)))]
      ensures Follows(o, AsCount(old(server.Next("addSortSet", Obj(NamedSetArgs(name, setMap))))), n)
    {
      n, o := AddSet("addSortSet", name, setMap);
    }

    /** `doFetch`: the same arguments as Module's, with the columns as a
      string. */
    method DoFetch(flag: Option<string>, offset: int64, count: int32, columns: Option<string>)
      returns (f: ModulesFetch, o: Outcome)
      modifies server
      ensures var args := Obj(FetchArgs(flag, offset, count, StrOrNull(columns)));
        && server.calls == old(server.calls) + [Invocation("fetch", args)]
        && Follows(o, ModulesFetchOf(old(server.Next("fetch", args))), f)
    {
      var args := Obj(FetchArgs(flag, offset, count, StrOrNull(columns)));
      ghost var a := server.Next("fetch", args);
      var r;
      r, o := server.Call("fetch", args);
      f := ModulesFetch(0, [], None, None, None);
      if o.Fail? {
        return;
      }
      assert a == Ok(r);
      f, o := MakeFetch(r);
    }

    /** `fetch`'s answer turned into its result, module by module. */
    static method MakeFetch(data: Value) returns (f: ModulesFetch, o: Outcome)
      ensures Follows(o, ModulesFetchOf(Ok(data)), f)
    {
      f := ModulesFetch(0, [], None, None, None);
      if data.Null? {
        return f, Fail(NullPointer());
      }
      if !data.Obj? {
        return f, Fail(ClassCast());
      }
      var d := data.entries;
      var count := GetInt(d, "count");
      if count.Err? {
        return f, Fail(count.error);
      }
      var list := GetMaps(d, "modules");
      if list.Err? {
        return f, Fail(list.error);
      }
      if list.value.None? {
        return f, Fail(NullPointer());
      }
      var modules;
      modules, o := Collect(FetchModuleOf, list.value.value);
      if o.Fail? {
        return;
      }
      var current := PositionIf(d, "current");
      var prev := PositionIf(d, "prev");
      var next := PositionIf(d, "next");
      if current.Err? {
        return f, Fail(current.error);
      }
      if prev.Err? {
        return f, Fail(prev.error);
      }
      if next.Err? {
        return f, Fail(next.error);
      }
      f := ModulesFetch(count.value, modules, current.value, prev.value, next.value);
    }

    /** `doFindKeys`: the pairs are built in a loop; the answer must be an
      array of strings. */
    method DoFindKeys(keys: seq<Key>, included: Value) returns (names: seq<Value>, o: Outcome)
      modifies server
      ensures var args := Obj(FindKeysArgs(KeyPairs(keys), included));
        && server.calls == old(server.calls) + [Invocation("findKeys", args)]
        && Follows(o, StringsOf(old(server.Next("findKeys", args))), names)
    {
      var list: seq<Value> := [];
      var i := 0;
      while i < |keys|
        invariant 0 <= i <= |keys|
        invariant list == KeyPairs(keys[..i])
      {
        assert keys[..i + 1] == keys[..i] + [keys[i]];
        list := list + [KeyPair(keys[i])];
        i := i + 1;
      }
      assert keys[..|keys|] == keys;
      names, o := FindStrings("findKeys", Obj(FindKeysArgs(list, included)));
    }

    /** `doFindTerms`: the terms' `toArray()`. */
    method DoFindTerms(heap: Heap, t: nat, included: Value) returns (names: seq<Value>, o: Outcome)
      requires heap.Valid() && t < |heap.kinds|
      modifies server
      ensures var args := Obj(FindTermsArgs(Render(heap.Contents(), t), included));
        && server.calls == old(server.calls) + [Invocation("findTerms", args)]
        && Follows(o, StringsOf(old(server.Next("findTerms", args))), names)
    {
      var terms := heap.ToArray(t);
      names, o := FindStrings("findTerms", Obj(FindTermsArgs(terms, included)));
    }

    method FindStrings(name: string, args: Value) returns (names: seq<Value>, o: Outcome)
      modifies server
      ensures server.calls == old(server.calls) + [Invocation(name, args)]
      ensures Follows(o, StringsOf(old(server.Next(name, args))), names)
    {
      var r;
      r, o := server.Call(name, args);
      names := [];
      if o.Fail? {
        return;
      }
      if r.Null? {
        return [], Fail(NullPointer());
      }
      if !r.Arr? {
        return [], Fail(ClassCast());
      }
      match CopyAs(r.items, IsStringOrNull) {
        case Ok(copy) => names := copy;
        case Err(e) => o := Fail(e);
      }
    }

    /** `doSort`: the answer is returned as it is. */
    method DoSort(setMap: Value, flags: Value) returns (answer: Value, o: Outcome)
      modifies server
      ensures server.calls == old(server.calls) + [Invocation("sort", Obj(SortSetArgs(setMap, flags)))]
      ensures Follows(o, old(server.Next("sort", Obj(SortSetArgs(setMap, flags)))), answer)
    {
      answer, o := server.Call("sort", Obj(SortSetArgs(setMap, flags)));
    }
  }

  /** The loop over the answer's modules: fills the array element by
      element, letting the first failure out. */
  method Collect<T>(read: Value -> Result<T>, list: seq<Value>) returns (done: seq<T>, o: Outcome)
    ensures Follows(o, Collected(read, list, 0), done)
  {
    done := [];
    var i := 0;
    ghost var all := Collected(read, list, 0);
    if all.Ok? {
      assert [] + all.value == all.value;
    }
    while i < |list|
      invariant 0 <= i <= |list|
      invariant all == Prefixed(done, Collected(read, list, i))
    {
      var m := read(list[i]);
      if m.Err? {
        return done, Fail(m.error);
      }
      CollectedStep(read, list, i, done, m.value);
      done := done + [m.value];
      i := i + 1;
    }
    assert done + [] == done;
    o := Pass;
  }

  lemma CollectedStep<T>(read: Value -> Result<T>, list: seq<Value>, i: nat, done: seq<T>, m: T)
    requires i < |list| && read(list[i]) == Ok(m)
    ensures Prefixed(done, Collected(read, list, i)) == Prefixed(done + [m], Collected(read, list, i + 1))
  {
    var rest := Collected(read, list, i + 1);
    if rest.Ok? {
      assert done + ([m] + rest.value) == done + [m] + rest.value;
    }
  }

  // ---------------------------------------------------------------------
  // Properties

  /** Until the server assigns an id, every request names the class
      "Modules" and carries no creation argument of its own. */
  lemma ModulesAddressing(req: seq<Entry>)
    ensures Find(WithHandlerFields(ModulesFields(), req), "name") == Some(Str("Modules"))
    ensures Find(WithHandlerFields(ModulesFields(), req), "create") == Find(req, "create")
    ensures Find(WithHandlerFields(ModulesFields(), req), "id") == Find(req, "id")
  {
    NameAddressing(ModulesFields(), req);
  }

  /** The pairs sent by `doFindKeys` give back the keys, one per pair, in
      order. */
  lemma KeyPairsRoundTrip(keys: seq<Key>)
    ensures forall i :: 0 <= i < |keys| ==> PairKey(KeyPairs(keys)[i]) == Some(keys[i])
  {
  }

  /** A module whose map has everything is read field by field. */
  lemma FetchModuleFields(m: seq<Entry>)
    requires GetLong(m, "hits").Ok? && GetInt(m, "index").Ok? && GetMaps(m, "rows").Ok?
    ensures FetchModuleOf(Obj(m)) == Ok(FetchModule(GetLong(m, "hits").value, GetInt(m, "index").value,
      GetString(m, "name"), GetMaps(m, "rows").value))
  {
  }

  /** The first module that cannot be read stops the fetch with its
      failure. */
  lemma FirstBadModuleStops(list: seq<Value>, i: nat)
    requires i < |list| && FetchModuleOf(list[i]).Err?
    requires forall j :: 0 <= j < i ==> FetchModuleOf(list[j]).Ok?
    ensures Collected(FetchModuleOf, list, 0) == Err(FetchModuleOf(list[i]).error)
  {
    FirstFailureStops(FetchModuleOf, list, 0, i);
  }

  /** A null module is dereferenced: a NullPointerException. */
  lemma NullModule()
    ensures FetchModuleOf(Null) == Err(NullPointer())
  {
  }

  lemma {:induction false} FirstFailureStops<T>(read: Value -> Result<T>, list: seq<Value>, k: nat, i: nat)
    requires k <= i < |list| && read(list[i]).Err?
    requires forall j :: k <= j < i ==> read(list[j]).Ok?
    ensures Collected(read, list, k) == Err(read(list[i]).error)
    decreases i - k
  {
    if k < i {
      FirstFailureStops(read, list, k + 1, i);
    }
  }
}
