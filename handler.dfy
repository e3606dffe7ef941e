/** com.kesoftware.imu.Handler: a server-side object reached through a
    Session. Each request names the object by its id once the server has
    assigned one, and by its class name (with creation arguments) before. */
module Handlers {
  import opened Values
  import opened IMuErrors
  import opened Maps
  import opened WireFormat
  import opened Sessions

  /** The handler's own fields: `create` is any object (Null when unset). */
  datatype HandlerState = HandlerState(
    create: Value,
    destroy: Option<bool>,
    id: Option<string>,
    language: Option<string>,
    name: Option<string>)

  /** The keys `request` adds to the caller's map before handing it on. */
  function WithHandlerFields(h: HandlerState, req: seq<Entry>): seq<Entry>
  {
    WithOptions(h, Addressed(h, req))
  }

  /** The object is addressed by id when one is known, else by name (with
      the creation arguments when set). */
  function Addressed(h: HandlerState, req: seq<Entry>): seq<Entry>
  {
    if h.id.Some? then Put(req, "id", Str(h.id.value))
    else if h.name.Some? then
      var r := Put(req, "name", Str(h.name.value));
      if !h.create.Null? then Put(r, "create", h.create) else r
    else req
  }

  /** destroy and language, each when set. */
  function WithOptions(h: HandlerState, r1: seq<Entry>): seq<Entry>
  {
    var r2 := if h.destroy.Some? then Put(r1, "destroy", Bool(h.destroy.value)) else r1;
    if h.language.Some? then Put(r2, "language", Str(h.language.value)) else r2
  }

  /** The id the handler keeps after a request answered with `result`. */
  function Learned(h: HandlerState, result: Result<seq<Entry>>): HandlerState
  {
    if result.Ok? && ContainsKey(result.value, "id") then h.(id := GetString(result.value, "id"))
    else h
  }

  /** The map `call` builds before `request` extends it. */
  function CallRequest(name: string, params: Value): seq<Entry>
  {
    var r := Put([], "method", Str(name));
    if params.Null? then r else Put(r, "params", params)
  }

  class Handler {
    const session: Session
    var create: Value
    var destroy: Option<bool>
    var id: Option<string>
    var language: Option<string>
    var name: Option<string>

    function Fields(): HandlerState
      reads this
    {
      HandlerState(create, destroy, id, language, name)
    }

    /** `Handler(session)`: every field unset. */
    constructor (session: Session)
      ensures this.session == session
      ensures Fields() == HandlerState(Null, None, None, None, None)
    {
      this.session := session;
      create, destroy, id, language, name := Null, None, None, None, None;
    }

    /** `Handler()`: a handler on a new default session. */
    constructor WithNewSession(d: Defaults)
      ensures fresh(session) && session.State() == Initial(d) && session.sent == []
      ensures Fields() == HandlerState(Null, None, None, None, None)
    {
      session := new Session(d);
      create, destroy, id, language, name := Null, None, None, None, None;
    }

    /** `getDestroy`: false while unset. */
    function GetDestroy(): (b: bool)
      reads this
      ensures b <==> destroy == Some(true)
    {
      if destroy.None? then false else destroy.value
    }

    /** `request`: adds the addressing keys, hands the map to the session
      and keeps any id the server answers with. */
    method Request(request: Map, env: Env) returns (response: seq<Entry>, o: Outcome)
      modifies this, session, request
      ensures var x := Exchanged(old(session.State()), WithHandlerFields(old(Fields()), old(request.entries)), env);
        && session.State() == x.state
        && session.sent == old(session.sent) + x.written
        && request.entries == x.request
        && Fields() == Learned(old(Fields()), x.result)
        && Follows(o, x.result, response)
    {
      AddHandlerFields(request);
      response, o := session.Request(request, env);
      if o.Pass? && ContainsKey(response, "id") {
        id := GetString(response, "id");
      }
    }

    /** The optional `put`s at the start of `request`. */
    method AddHandlerFields(request: Map)
      modifies request
      ensures request.entries == WithHandlerFields(Fields(), old(request.entries))
    {
      if id.Some? {
        request.Put("id", Str(id.value));
      } else if name.Some? {
        request.Put("name", Str(name.value));
        if !create.Null? {
          request.Put("create", create);
        }
      }
      if destroy.Some? {
        request.Put("destroy", Bool(destroy.value));
      }
      if language.Some? {
        request.Put("language", Str(language.value));
      }
    }

    /** `call(method, params)`; `call(method)` is this with a null params. */
    method Call(name: string, params: Value, env: Env) returns (result: Value, o: Outcome)
      modifies this, session
      ensures var x := Exchanged(old(session.State()), WithHandlerFields(old(Fields()), CallRequest(name, params)), env);
        && session.State() == x.state
        && session.sent == old(session.sent) + x.written
        && Fields() == Learned(old(Fields()), x.result)
        && (if x.result.Ok? then o.Pass? && result == Get(x.result.value, "result") else o == Fail(x.result.error))
    {
      var request := new Map();
      request.Put("method", Str(name));
      if !params.Null? {
        request.Put("params", params);
      }
      var response;
      response, o := Request(request, env);
      if o.Fail? {
        return Null, o;
      }
      result := Get(response, "result");
    }
  }

  // ---------------------------------------------------------------------
  // Properties

  /** Once an id is known the request carries it and neither name nor
      create is added. */
  lemma {:induction false} IdAddressing(h: HandlerState, req: seq<Entry>)
    requires h.id.Some?
    ensures Find(WithHandlerFields(h, req), "id") == Some(Str(h.id.value))
    ensures Find(WithHandlerFields(h, req), "name") == Find(req, "name")
    ensures Find(WithHandlerFields(h, req), "create") == Find(req, "create")
  {
    var r1 := Addressed(h, req);
    OptionsKeepOthers(h, r1, "id");
    OptionsKeepOthers(h, r1, "name");
    OptionsKeepOthers(h, r1, "create");
    PutOthers(req, "id", Str(h.id.value), "name");
    PutOthers(req, "id", Str(h.id.value), "create");
  }

  /** Without an id the request names the class, and carries create only
      when create is set. */
  lemma {:induction false} NameAddressing(h: HandlerState, req: seq<Entry>)
    requires h.id.None? && h.name.Some?
    ensures Find(WithHandlerFields(h, req), "name") == Some(Str(h.name.value))
    ensures Find(WithHandlerFields(h, req), "create") ==
      if h.create.Null? then Find(req, "create") else Some(h.create)
    ensures Find(WithHandlerFields(h, req), "id") == Find(req, "id")
  {
    var r1 := Addressed(h, req);
    OptionsKeepOthers(h, r1, "name");
    OptionsKeepOthers(h, r1, "create");
    OptionsKeepOthers(h, r1, "id");
    NamedKeys(h, req);
  }

  lemma {:induction false} NamedKeys(h: HandlerState, req: seq<Entry>)
    requires h.id.None? && h.name.Some?
    ensures Find(Addressed(h, req), "name") == Some(Str(h.name.value))
    ensures Find(Addressed(h, req), "create") ==
      if h.create.Null? then Find(req, "create") else Some(h.create)
    ensures Find(Addressed(h, req), "id") == Find(req, "id")
  {
    var r := Put(req, "name", Str(h.name.value));
    PutOthers(req, "name", Str(h.name.value), "id");
    PutOthers(req, "name", Str(h.name.value), "create");
    if !h.create.Null? {
      PutOthers(r, "create", h.create, "name");
      PutOthers(r, "create", h.create, "id");
    }
  }

  /** destroy is sent as a boolean only when set, and language only when
      set. */
  lemma {:induction false} OptionalFields(h: HandlerState, req: seq<Entry>)
    ensures Find(WithHandlerFields(h, req), "destroy") ==
      if h.destroy.Some? then Some(Bool(h.destroy.value)) else Find(req, "destroy")
    ensures Find(WithHandlerFields(h, req), "language") ==
      if h.language.Some? then Some(Str(h.language.value)) else Find(req, "language")
  {
    var r1 := Addressed(h, req);
    OptionsKeepOthers(h, r1, "destroy");
    OptionsKeepOthers(h, r1, "language");
    AddressedKeepsOthers(h, req, "destroy");
    AddressedKeepsOthers(h, req, "language");
  }

  /** No key outside id, name, create, destroy and language changes. */
  lemma {:induction false} OtherKeysUntouched(h: HandlerState, req: seq<Entry>, k: string)
    requires k != "id" && k != "name" && k != "create" && k != "destroy" && k != "language"
    ensures Find(WithHandlerFields(h, req), k) == Find(req, k)
  {
    OptionsKeepOthers(h, Addressed(h, req), k);
    AddressedKeepsOthers(h, req, k);
  }

  /** Addressing touches only id, name and create. */
  lemma {:induction false} AddressedKeepsOthers(h: HandlerState, req: seq<Entry>, k: string)
    requires k != "id" && k != "name" && k != "create"
    ensures Find(Addressed(h, req), k) == Find(req, k)
  {
    if h.id.Some? {
      PutOthers(req, "id", Str(h.id.value), k);
    } else if h.name.Some? {
      var r := Put(req, "name", Str(h.name.value));
      PutOthers(req, "name", Str(h.name.value), k);
      if !h.create.Null? {
        PutOthers(r, "create", h.create, k);
      }
    }
  }

  /** The destroy and language `put`s set those two keys and leave every
      other key alone. */
  lemma {:induction false} OptionsKeepOthers(h: HandlerState, r1: seq<Entry>, k: string)
    ensures Find(WithOptions(h, r1), k) ==
      if k == "language" && h.language.Some? then Some(Str(h.language.value))
      else if k == "destroy" && h.destroy.Some? then Some(Bool(h.destroy.value))
      else Find(r1, k)
  {
    var r2 := if h.destroy.Some? then Put(r1, "destroy", Bool(h.destroy.value)) else r1;
    if h.destroy.Some? && k != "destroy" {
      PutOthers(r1, "destroy", Bool(h.destroy.value), k);
    }
    if h.language.Some? && k != "language" {
      PutOthers(r2, "language", Str(h.language.value), k);
    }
  }

  /** A reply carrying an id replaces the stored id, so the next request
      addresses the object by that id and no longer by name. */
  lemma AddressedByLearnedId(h: HandlerState, m: seq<Entry>, id: string, req: seq<Entry>)
    requires ContainsKey(m, "id") && GetString(m, "id") == Some(id)
    ensures Learned(h, Ok(m)).id == Some(id)
    ensures Find(WithHandlerFields(Learned(h, Ok(m)), req), "id") == Some(Str(id))
    ensures Find(WithHandlerFields(Learned(h, Ok(m)), req), "name") == Find(req, "name")
  {
    IdAddressing(Learned(h, Ok(m)), req);
  }

  /** A failed request or a reply without id keeps the stored id. */
  lemma KeepsIdOtherwise(h: HandlerState, result: Result<seq<Entry>>)
    requires result.Err? || !ContainsKey(result.value, "id")
    ensures Learned(h, result) == h
  {
  }

  /** `call` sends the method name, and params only when it is not null. */
  lemma CallSends(name: string, params: Value)
    ensures Find(CallRequest(name, params), "method") == Some(Str(name))
    ensures Find(CallRequest(name, params), "params") == if params.Null? then None else Some(params)
    ensures Keys(CallRequest(name, params)) == if params.Null? then ["method"] else ["method", "params"]
  {
    var r := Put([], "method", Str(name));
    assert r == [Entry("method", Str(name))];
    if !params.Null? {
      assert Keys(Put(r, "params", params)) == ["method", "params"];
    }
  }
}
