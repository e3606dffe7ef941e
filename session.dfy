/** com.kesoftware.imu.Session: one client connection to an IMu server.
    The socket and its Stream are an abstract channel: opening the socket
    either succeeds or fails with a message (`Connect`), everything `request`
    writes is recorded, and the value `Stream.get` returns (or the failure it
    throws) is supplied. The class properties defaultHost and defaultPort are
    passed in as `Defaults`, because `initialise` reads them again on every
    disconnect. */
module Sessions {
  import opened Values
  import opened IMuErrors
  import opened Maps
  import opened WireFormat

  /** The class properties defaultHost and defaultPort. */
  datatype Defaults = Defaults(host: string, port: int32)

  /** The values those properties start with. */
  function ClassDefaults(): (d: Defaults)
    ensures d.host == "127.0.0.1" && d.port == 40000
  {
    Defaults("127.0.0.1", 40000)
  }

  /** What `new Socket(host, port)` does: succeed, or throw with a message
      (None for a null message). */
  datatype Connect = Accept | Refuse(message: Option<string>)

  /** The outside world of one `request`: the socket's answer, what
      `Stream.get` returns or throws, and the class properties at the time. */
  datatype Env = Env(connect: Connect, reply: Result<Value>, defaults: Defaults)

  /** The fields of a Session; `connected` stands for `_socket != null`
      (the socket and its stream are set and cleared together). */
  datatype SessionState = SessionState(
    close: Option<bool>,
    context: Option<string>,
    host: string,
    port: int32,
    connected: bool,
    suspend: Option<bool>)

  /** The state `initialise` leaves. */
  function Initial(d: Defaults): SessionState
  {
    SessionState(None, None, d.host, d.port, false, None)
  }

  /** `connect`. */
  function Connected(s: SessionState, c: Connect): Result<SessionState>
  {
    if s.connected then Ok(s)
    else
      match c
      case Accept => Ok(s.(connected := true))
      case Refuse(m) =>
        Err(IMu(NewExc("SessionConnect", [Str(s.host), Int(s.port), StrOrNull(m)])))
  }

  /** `disconnect`. */
  function Disconnected(s: SessionState, d: Defaults): SessionState
  {
    if !s.connected then s else Initial(d)
  }

  /** The keys `request` adds to the caller's map before sending it. */
  function WithSessionFields(s: SessionState, req: seq<Entry>): seq<Entry>
  {
    var r1 := if s.close.Some? then Put(req, "close", Bool(s.close.value)) else req;
    var r2 := if s.context.Some? then Put(r1, "context", Str(s.context.value)) else r1;
    if s.suspend.Some? then Put(r2, "suspend", Bool(s.suspend.value)) else r2
  }

  /** The exception a response with status "error" turns into. */
  function ServerError(m: seq<Entry>): Failure
  {
    var id :=
      if ContainsKey(m, "error") then GetString(m, "error")
      else if ContainsKey(m, "id") then GetString(m, "id")
      else Some("SessionServerError");
    if id.None? then NullPointer()
    else if !ContainsKey(m, "args") then IMu(NewExc(id.value, []))
    else
      match GetArray(m, "args")
      case Err(f) => f
      case Ok(args) => IMu(SetArgs(NewExc(id.value, []), args))
  }

  /** The status check that ends `request`. */
  function Checked(m: seq<Entry>): Result<seq<Entry>>
  {
    match GetString(m, "status")
    case None => Err(NullPointer())
    case Some(status) => if status == "error" then Err(ServerError(m)) else Ok(m)
  }

  datatype After = After(state: SessionState, result: Result<seq<Entry>>)

  /** What `request` does with the value `Stream.get` returned. */
  function Responded(s: SessionState, raw: Value, d: Defaults): After
  {
    if raw.Null? then After(s, Err(NullPointer()))
    else if !raw.Obj? then After(s, Err(IMu(NewExc("SessionResponse", [Str(ClassName(raw))]))))
    else
      var m := raw.entries;
      var s1 := if ContainsKey(m, "context") then s.(context := GetString(m, "context")) else s;
      var port := if ContainsKey(m, "reconnect") then GetInt(m, "reconnect") else Ok(s1.port);
      if port.Err? then After(s1, Err(port.error))
      else
        var s2 := s1.(port := port.value);
        var s3 := if s2.close == Some(true) then Disconnected(s2, d) else s2;
        After(s3, Checked(m))
  }

  /** One `request`: the new session state, the request map as the caller
      sees it afterwards, what went onto the wire and the result. */
  datatype Exchange = Exchange(
    state: SessionState,
    request: seq<Entry>,
    written: seq<OutItem>,
    result: Result<seq<Entry>>)

  function Exchanged(s: SessionState, req: seq<Entry>, env: Env): Exchange
  {
    match Connected(s, env.connect)
    case Err(e) => Exchange(s, req, [], Err(e))
    case Ok(s1) =>
      var sent := WithSessionFields(s1, req);
      var w := WriteMessage(Obj(sent));
      if w.outcome.Fail? then Exchange(s1, sent, w.items, Err(w.outcome.error))
      else if env.reply.Err? then Exchange(s1, sent, w.items, Err(env.reply.error))
      else
        var a := Responded(s1, env.reply.value, env.defaults);
        Exchange(a.state, sent, w.items, a.result)
  }

  class Session {
    var close: Option<bool>
    var context: Option<string>
    var host: string
    var port: int32
    var connected: bool
    var suspend: Option<bool>
    /** Everything written to the connection's stream so far. */
    var sent: seq<OutItem>

    function State(): SessionState
      reads this
    {
      SessionState(close, context, host, port, connected, suspend)
    }

    /** `Session(host, port)`. */
    constructor WithHostAndPort(d: Defaults, host: string, port: int32)
      ensures State() == Initial(d).(host := host, port := port) && sent == []
    {
      this.close, this.context, this.connected, this.suspend := None, None, false, None;
      this.host, this.port := host, port;
      sent := [];
    }

    /** `Session(host)`: the port is the default. */
    constructor WithHost(d: Defaults, host: string)
      ensures State() == Initial(d).(host := host) && sent == []
    {
      close, context, connected, suspend := None, None, false, None;
      this.host, port := host, d.port;
      sent := [];
    }

    /** `Session(port)`: the host is the default. */
    constructor WithPort(d: Defaults, port: int32)
      ensures State() == Initial(d).(port := port) && sent == []
    {
      close, context, connected, suspend := None, None, false, None;
      host, this.port := d.host, port;
      sent := [];
    }

    /** `Session()`. */
    constructor (d: Defaults)
      ensures State() == Initial(d) && sent == []
    {
      close, context, connected, suspend := None, None, false, None;
      host, port := d.host, d.port;
      sent := [];
    }

    method Initialise(d: Defaults)
      modifies this
      ensures State() == Initial(d) && sent == old(sent)
    {
      close := None;
      context := None;
      host := d.host;
      port := d.port;
      connected := false;
      suspend := None;
    }

    /** `getClose`: false while unset. */
    function GetClose(): (b: bool)
      reads this
      ensures b <==> close == Some(true)
    {
      if close.None? then false else close.value
    }

    /** `getSuspend`: false while unset. */
    function GetSuspend(): (b: bool)
      reads this
      ensures b <==> suspend == Some(true)
    {
      if suspend.None? then false else suspend.value
    }

    method Connect(c: Connect) returns (o: Outcome)
      modifies this
      ensures Follows(o, Connected(old(State()), c), State())
      ensures o.Fail? ==> State() == old(State())
      ensures sent == old(sent)
    {
      if connected {
        return Pass;
      }
      match c
      case Accept =>
        connected := true;
        o := Pass;
      case Refuse(m) =>
        o := Fail(IMu(NewExc("SessionConnect", [Str(host), Int(port), StrOrNull(m)])));
    }

    method Disconnect(d: Defaults)
      modifies this
      ensures State() == Disconnected(old(State()), d) && sent == old(sent)
    {
      if !connected {
        return;
      }
      Initialise(d);
    }

    /** `request`: the caller's map is extended in place before it is sent. */
    method Request(request: Map, env: Env) returns (response: seq<Entry>, o: Outcome)
      modifies this, request
      ensures var x := Exchanged(old(State()), old(request.entries), env);
        && State() == x.state
        && request.entries == x.request
        && sent == old(sent) + x.written
        && Follows(o, x.result, response)
    {
      o := Connect(env.connect);
      if o.Fail? {
        return [], o;
      }
      AddSessionFields(request);
      var w := WriteMessage(Obj(request.entries));
      sent := sent + w.items;
      if w.outcome.Fail? {
        return [], w.outcome;
      }
      if env.reply.Err? {
        return [], Fail(env.reply.error);
      }
      response, o := Respond(env.reply.value, env.defaults);
    }

    /** The three optional `put`s at the start of `request`. */
    method AddSessionFields(request: Map)
      modifies request
      ensures request.entries == WithSessionFields(State(), old(request.entries))
    {
      if close.Some? {
        request.Put("close", Bool(close.value));
      }
      if context.Some? {
        request.Put("context", Str(context.value));
      }
      if suspend.Some? {
        request.Put("suspend", Bool(suspend.value));
      }
    }

    /** The part of `request` after `Stream.get` has returned `raw`. */
    method Respond(raw: Value, d: Defaults) returns (response: seq<Entry>, o: Outcome)
      modifies this
      ensures var a := Responded(old(State()), raw, d);
        State() == a.state && Follows(o, a.result, response)
      ensures sent == old(sent)
    {
      if raw.Null? {
        return [], Fail(NullPointer());
      }
      if !raw.Obj? {
        return [], Fail(IMu(NewExc("SessionResponse", [Str(ClassName(raw))])));
      }
      response := raw.entries;
      if ContainsKey(response, "context") {
        context := GetString(response, "context");
      }
      if ContainsKey(response, "reconnect") {
        var p := GetInt(response, "reconnect");
        if p.Err? {
          return [], Fail(p.error);
        }
        port := p.value;
      }
      var disconnect := false;
      if close.Some? {
        disconnect := close.value;
      }
      if disconnect {
        Disconnect(d);
      }
      o := CheckStatus(response);
    }

    /** The status check that ends `request`. */
    method CheckStatus(response: seq<Entry>) returns (o: Outcome)
      ensures Follows(o, Checked(response), response)
    {
      var status := GetString(response, "status");
      if status.None? {
        return Fail(NullPointer());
      }
      if status.value == "error" {
        var e := RaiseServerError(response);
        return Fail(e);
      }
      o := Pass;
    }

    /** The exception built when the status is "error". */
    method RaiseServerError(response: seq<Entry>) returns (f: Failure)
      ensures f == ServerError(response)
    {
      var id := Some("SessionServerError");
      if ContainsKey(response, "error") {
        id := GetString(response, "error");
      } else if ContainsKey(response, "id") {
        id := GetString(response, "id");
      }
      if id.None? {
        return NullPointer();
      }
      var e := NewExc(id.value, []);
      if ContainsKey(response, "args") {
        var args := GetArray(response, "args");
        if args.Err? {
          return args.error;
        }
        e := SetArgs(e, args.value);
      }
      f := IMu(e);
    }
  }

  // ---------------------------------------------------------------------
  // Properties

  /** `connect` does nothing on an open connection; otherwise it opens one
      to the current host and port, or fails with SessionConnect naming
      them and leaves the session as it was. */
  lemma ConnectRules(s: SessionState, c: Connect)
    ensures s.connected ==> Connected(s, c) == Ok(s)
    ensures !s.connected && c.Accept? ==> Connected(s, c) == Ok(s.(connected := true))
    ensures !s.connected && c.Refuse? ==>
      Connected(s, c).Err? && Connected(s, c).error.IMu?
      && Connected(s, c).error.exc.id == "SessionConnect"
      && Connected(s, c).error.exc.args == Some([Str(s.host), Int(s.port), StrOrNull(c.message)])
    ensures Connected(s, c).Ok? ==> Connected(Connected(s, c).value, c) == Connected(s, c)
  {
  }

  /** `disconnect` does nothing when not connected; otherwise it clears
      close, context and suspend and puts host and port back to the class
      defaults, whatever the constructor or a reconnect had set. */
  lemma DisconnectRules(s: SessionState, d: Defaults)
    ensures !s.connected ==> Disconnected(s, d) == s
    ensures s.connected ==>
      var r := Disconnected(s, d);
      !r.connected && r.close.None? && r.context.None? && r.suspend.None?
      && r.host == d.host && r.port == d.port
    ensures Disconnected(Disconnected(s, d), d) == Disconnected(s, d)
  {
  }

  /** `request` adds close, context and suspend exactly when each is set,
      with its value, and leaves every other key of the caller's map as it
      was; no key is added besides those three. */
  lemma {:induction false} SessionFieldsExactly(s: SessionState, req: seq<Entry>, k: string)
    ensures Find(WithSessionFields(s, req), k) ==
      if k == "close" && s.close.Some? then Some(Bool(s.close.value))
      else if k == "context" && s.context.Some? then Some(Str(s.context.value))
      else if k == "suspend" && s.suspend.Some? then Some(Bool(s.suspend.value))
      else Find(req, k)
    ensures k in Keys(WithSessionFields(s, req)) <==>
      k in Keys(req)
      || (k == "close" && s.close.Some?)
      || (k == "context" && s.context.Some?)
      || (k == "suspend" && s.suspend.Some?)
  {
    var r1 := if s.close.Some? then Put(req, "close", Bool(s.close.value)) else req;
    var r2 := if s.context.Some? then Put(r1, "context", Str(s.context.value)) else r1;
    if s.close.Some? && k != "close" {
      PutOthers(req, "close", Bool(s.close.value), k);
    }
    if s.context.Some? && k != "context" {
      PutOthers(r1, "context", Str(s.context.value), k);
    }
    if s.suspend.Some? && k != "suspend" {
      PutOthers(r2, "suspend", Bool(s.suspend.value), k);
    }
  }

  /** A reply that is not a Map fails with SessionResponse carrying its class
      name (and a null reply with a NullPointerException); the session state
      is left as it was. */
  lemma NonMapResponse(s: SessionState, raw: Value, d: Defaults)
    requires !raw.Obj?
    ensures Responded(s, raw, d).state == s
    ensures raw.Null? ==> Responded(s, raw, d).result == Err(NullPointer())
    ensures !raw.Null? ==>
      Responded(s, raw, d).result == Err(IMu(NewExc("SessionResponse", [Str(ClassName(raw))])))
  {
  }

  /** A reply's context replaces the stored context and its reconnect
      replaces the stored port; a session without close set keeps them. */
  lemma ResponseUpdates(s: SessionState, m: seq<Entry>, d: Defaults)
    requires s.close != Some(true)
    requires ContainsKey(m, "reconnect") ==> GetInt(m, "reconnect").Ok?
    ensures Responded(s, Obj(m), d).state == s.(
      context := if ContainsKey(m, "context") then GetString(m, "context") else s.context,
      port := if ContainsKey(m, "reconnect") then GetInt(m, "reconnect").value else s.port)
    ensures Responded(s, Obj(m), d).result == Checked(m)
  {
  }

  /** With close set true the session disconnects after the reply is read
      and before its status is checked: an error reply also ends
      disconnected, and the context and port just learned are wiped. */
  lemma CloseDisconnects(s: SessionState, m: seq<Entry>, d: Defaults)
    requires s.connected && s.close == Some(true)
    requires ContainsKey(m, "reconnect") ==> GetInt(m, "reconnect").Ok?
    ensures Responded(s, Obj(m), d).state == Initial(d)
    ensures Responded(s, Obj(m), d).result == Checked(m)
  {
  }

  /** Only the exact status "error" fails; a missing status dereferences
      null; every other status returns the reply. */
  lemma StatusRules(m: seq<Entry>)
    ensures GetString(m, "status").None? ==> Checked(m) == Err(NullPointer())
    ensures GetString(m, "status") == Some("error") ==> Checked(m) == Err(ServerError(m))
    ensures GetString(m, "status").Some? && GetString(m, "status") != Some("error") ==> Checked(m) == Ok(m)
    ensures Checked(Put(m, "status", Str("ERROR"))) == Ok(Put(m, "status", Str("ERROR")))
  {
    assert Get(Put(m, "status", Str("ERROR")), "status") == Str("ERROR");
  }

  /** The server error's id is the reply's error, else its id, else
      "SessionServerError" (a null one dereferences null). Its message is the
      bare id; its arguments are the reply's args array when present, null
      for a null args, none when there is no args key, and an args that is
      not an array fails the cast. */
  lemma ServerErrorId(m: seq<Entry>)
    ensures var id :=
        if ContainsKey(m, "error") then GetString(m, "error")
        else if ContainsKey(m, "id") then GetString(m, "id")
        else Some("SessionServerError");
      && (id.None? ==> ServerError(m) == NullPointer())
      && (id.Some? && !ContainsKey(m, "args") ==>
            ServerError(m) == IMu(Exc(id.value, [], Some([]))))
      && (id.Some? && Get(m, "args").Arr? ==>
            ServerError(m) == IMu(Exc(id.value, [], Some(Get(m, "args").items))))
      && (id.Some? && ContainsKey(m, "args") && Get(m, "args").Null? ==>
            ServerError(m) == IMu(Exc(id.value, [], None)))
      && (id.Some? && !Get(m, "args").Null? && !Get(m, "args").Arr? ==>
            ServerError(m) == ClassCast())
  {
  }

  /** Once connected, `request` sends exactly the caller's map with the
      session fields added, as `Stream.put` writes it; a failed connection
      sends nothing and leaves the caller's map alone. */
  lemma ExchangeSends(s: SessionState, req: seq<Entry>, env: Env)
    ensures Connected(s, env.connect).Err? ==>
      var x := Exchanged(s, req, env);
      x.state == s && x.request == req && x.written == [] && x.result.Err?
    ensures Connected(s, env.connect).Ok? ==>
      var x := Exchanged(s, req, env);
      x.request == WithSessionFields(s.(connected := true), req)
      && x.written == WriteMessage(Obj(x.request)).items
  {
  }
}
