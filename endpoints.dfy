/** The request handlers (api/endpoints.go). Each handler is a chain of early returns
    on the replies of the services; its outcome is a function of the decoded request and
    of the reply each service WOULD give, together with the list of services it actually
    consulted. The `...Handler` methods run the same decision against the real session
    registry and code source. */
module Endpoints {
  import opened Wrappers
  import opened Clock
  import Session
  import Code

  const StatusOK := 200
  const StatusBadRequest := 400
  const StatusUnauthorized := 401
  const StatusNotFound := 404
  const StatusInternalServerError := 500

  const JsonType := "application/json"
  const TextType := "text/plain"

  /** `http.StatusText` for the statuses the handlers use. */
  function StatusText(code: int): string {
    if code == StatusOK then "OK"
    else if code == StatusBadRequest then "Bad Request"
    else if code == StatusUnauthorized then "Unauthorized"
    else if code == StatusNotFound then "Not Found"
    else if code == StatusInternalServerError then "Internal Server Error"
    else ""
  }

  /** The decoded body of an authentication request. */
  datatype AuthRequest = AuthRequest(user: string, passwd: string)

  /** The decoded body of a check request. */
  datatype CheckRequest = CheckRequest(code: string)

  /** What a handler writes as the response body. */
  datatype Body =
    | ErrorBody(errorCode: int, error: string)                 // ErrorResponse
    | AuthBody(sessionId: string)                              // AuthResponse
    | CodeBody(code: string, expires: Time, serverTime: Time)  // CodeResponse
    | CheckBody(status: bool)                                  // CheckResponse
    | Text(text: string)                                       // plain-text body

  datatype Response = Response(status: int, body: Body)

  /** A service consulted while handling one request. */
  datatype Call = Login(user: string, passwd: string) | CreateSession | CheckSession(key: string) | GenerateCode

  /** The content type set, the response written and the services consulted, in order. */
  datatype Outcome = Outcome(contentType: string, response: Response, calls: seq<Call>)

  /** `handleError`: the status `code` and an error body carrying the same code and the
      standard text for it. */
  function HandleError(code: int): (r: Response)
    ensures r.status == code && r.body.ErrorBody? && r.body.errorCode == code
    ensures r.body.error == StatusText(code)
  {
    Response(code, ErrorBody(code, StatusText(code)))
  }

  /** `NotFoundHandler`: always 404 with an error body of code 404 (its doc comment
      speaks of 401), consulting no service. */
  function NotFound(): (o: Outcome)
    ensures o.response.status == 404 && o.response.body == ErrorBody(404, "Not Found")
    ensures o.contentType == JsonType && o.calls == []
  {
    Outcome(JsonType, HandleError(StatusNotFound), [])
  }

  /** `authHandler`: `req` is the decoded body (`None` when decoding failed), `login`
      the reply `Auth.Login` gives for its credentials and `create` the reply
      `SessionStore.Create` gives. */
  function AuthOutcome(req: Option<AuthRequest>, login: Reply<bool>, create: Reply<string>): (o: Outcome)
    ensures o.contentType == JsonType
    // a body that does not decode: 400, and neither Login nor Create is consulted
    ensures req.None? ==> o.response == HandleError(400) && o.calls == []
    // otherwise Login is consulted first, with the decoded credentials
    ensures req.Some? ==> |o.calls| > 0 && o.calls[0] == Login(req.value.user, req.value.passwd)
    // Create is consulted, exactly once, iff Login accepted the credentials
    ensures CreateSession in o.calls <==> req.Some? && login == Ok(true)
    ensures req.Some? && login == Ok(true) ==> o.calls == [Login(req.value.user, req.value.passwd), CreateSession]
    ensures req.Some? && login.Err? ==> o.response == HandleError(500)
    ensures req.Some? && login == Ok(false) ==> o.response == HandleError(401)
    ensures req.Some? && login == Ok(true) && create.Err? ==> o.response == HandleError(500)
    // success exactly when everything went through, and then the new id is returned
    ensures o.response.status == 200 <==> req.Some? && login == Ok(true) && create.Ok?
    ensures o.response.status == 200 ==> o.response.body == AuthBody(create.value)
  {
    match req
    case None => Outcome(JsonType, HandleError(StatusBadRequest), [])
    case Some(r) =>
      var asked := [Login(r.user, r.passwd)];
      match login
      case Err(_) => Outcome(JsonType, HandleError(StatusInternalServerError), asked)
      case Ok(status) =>
        if status then
          match create
          case Err(_) => Outcome(JsonType, HandleError(StatusInternalServerError), asked + [CreateSession])
          case Ok(id) => Outcome(JsonType, Response(StatusOK, AuthBody(id)), asked + [CreateSession])
        else
          Outcome(JsonType, HandleError(StatusUnauthorized), asked)
  }

  /** `codeHandler`: `key` is the `X-Session-Key` header ("" when absent), `check` the
      reply `SessionStore.Check(key)` gives, `gen` the reply `CodeGenerator.Generate`
      gives, and `serverTime` the instant the response is built. */
  function CodeOutcome(key: string, check: Reply<bool>, gen: Reply<Code.CodeRecord>, serverTime: Time): (o: Outcome)
    ensures o.contentType == JsonType
    // an empty key: 400 without consulting the registry
    ensures key == "" ==> o.response == HandleError(400) && o.calls == []
    ensures key != "" ==> |o.calls| > 0 && o.calls[0] == CheckSession(key)
    ensures key != "" && check.Err? ==> o.response == HandleError(500)
    // Generate is consulted iff the session was found live
    ensures key != "" && check == Ok(false) ==> o.response == HandleError(401) && o.calls == [CheckSession(key)]
    ensures GenerateCode in o.calls <==> key != "" && check == Ok(true)
    ensures key != "" && check == Ok(true) && gen.Err? ==> o.response == HandleError(500)
    // success returns the snapshot and the server time
    ensures o.response.status == 200 <==> key != "" && check == Ok(true) && gen.Ok?
    ensures o.response.status == 200 ==>
              o.response.body == CodeBody(gen.value.code, gen.value.expires, serverTime)
  {
    if key == "" then Outcome(JsonType, HandleError(StatusBadRequest), [])
    else
      var asked := [CheckSession(key)];
      match check
      case Err(_) => Outcome(JsonType, HandleError(StatusInternalServerError), asked)
      case Ok(status) =>
        if status then
          match gen
          case Err(_) => Outcome(JsonType, HandleError(StatusInternalServerError), asked + [GenerateCode])
          case Ok(rec) =>
            Outcome(JsonType, Response(StatusOK, CodeBody(rec.code, rec.expires, serverTime)), asked + [GenerateCode])
        else
          Outcome(JsonType, HandleError(StatusUnauthorized), asked)
  }

  /** `checkHandler`: `req` is the decoded body (`None` when decoding failed) and `gen`
      the reply `CodeGenerator.Generate` gives. */
  function CheckOutcome(req: Option<CheckRequest>, gen: Reply<Code.CodeRecord>): (o: Outcome)
    ensures o.contentType == JsonType
    ensures req.None? ==> o.response == HandleError(400) && o.calls == []
    ensures req.Some? ==> o.calls == [GenerateCode]
    ensures req.Some? && gen.Err? ==> o.response == HandleError(500)
    // a well-formed submission is answered 200 {Status: true} on an exact match and
    // 401 {Status: false} otherwise
    ensures req.Some? && gen.Ok? ==>
              o.response == if req.value.code == gen.value.code then Response(200, CheckBody(true))
                            else Response(401, CheckBody(false))
    ensures o.response.status == 200 <==> req.Some? && gen.Ok? && req.value.code == gen.value.code
  {
    match req
    case None => Outcome(JsonType, HandleError(StatusBadRequest), [])
    case Some(r) =>
      match gen
      case Err(_) => Outcome(JsonType, HandleError(StatusInternalServerError), [GenerateCode])
      case Ok(rec) =>
        if r.code != rec.code then
          Outcome(JsonType, Response(StatusUnauthorized, CheckBody(false)), [GenerateCode])
        else
          Outcome(JsonType, Response(StatusOK, CheckBody(true)), [GenerateCode])
  }

  /** `checkLegacyHandler`: `pass` is the form value ("" when absent) and `gen` the
      reply `CodeGenerator.Generate` gives. Every answer is plain text. */
  function CheckLegacyOutcome(pass: string, gen: Reply<Code.CodeRecord>): (o: Outcome)
    ensures o.contentType == TextType
    ensures pass == "" ==> o.response == Response(400, Text("Bad Request")) && o.calls == []
    ensures pass != "" ==> o.calls == [GenerateCode]
    ensures pass != "" && gen.Err? ==> o.response == Response(500, Text("Internal Server Error"))
    ensures pass != "" && gen.Ok? && pass != gen.value.code ==> o.response == Response(401, Text("Unauthorized"))
    // the literal "true" with the default status exactly on a match
    ensures o.response == Response(200, Text("true")) <==> pass != "" && gen.Ok? && pass == gen.value.code
    ensures o.response.status == 200 ==> o.response.body == Text("true")
  {
    if pass == "" then Outcome(TextType, Response(StatusBadRequest, Text(StatusText(StatusBadRequest))), [])
    else
      match gen
      case Err(_) =>
        Outcome(TextType, Response(StatusInternalServerError, Text(StatusText(StatusInternalServerError))), [GenerateCode])
      case Ok(rec) =>
        if pass != rec.code then
          Outcome(TextType, Response(StatusUnauthorized, Text(StatusText(StatusUnauthorized))), [GenerateCode])
        else
          Outcome(TextType, Response(StatusOK, Text("true")), [GenerateCode])
  }

  // ---------------------------------------------------------------------------
  // Services that are not consulted cannot influence the outcome.

  lemma AuthIgnoresUnconsulted(req: Option<AuthRequest>, login: Reply<bool>, login': Reply<bool>,
                               create: Reply<string>, create': Reply<string>)
    ensures req.None? ==> AuthOutcome(req, login, create) == AuthOutcome(req, login', create')
    ensures CreateSession !in AuthOutcome(req, login, create).calls ==>
              AuthOutcome(req, login, create) == AuthOutcome(req, login, create')
  {
  }

  lemma CodeIgnoresUnconsulted(key: string, check: Reply<bool>, check': Reply<bool>,
                               gen: Reply<Code.CodeRecord>, gen': Reply<Code.CodeRecord>, serverTime: Time)
    ensures key == "" ==> CodeOutcome(key, check, gen, serverTime) == CodeOutcome(key, check', gen', serverTime)
    ensures GenerateCode !in CodeOutcome(key, check, gen, serverTime).calls ==>
              CodeOutcome(key, check, gen, serverTime) == CodeOutcome(key, check, gen', serverTime)
  {
  }

  lemma ChecksIgnoreUnconsulted(req: Option<CheckRequest>, pass: string,
                                gen: Reply<Code.CodeRecord>, gen': Reply<Code.CodeRecord>)
    ensures req.None? ==> CheckOutcome(req, gen) == CheckOutcome(req, gen')
    ensures pass == "" ==> CheckLegacyOutcome(pass, gen) == CheckLegacyOutcome(pass, gen')
  {
  }

  /** Both check handlers compare by plain string equality: no trimming, no case
      folding, and the two agree on what matches. */
  lemma ComparisonIsExact(submitted: string, rec: Code.CodeRecord)
    ensures CheckOutcome(Some(CheckRequest(submitted)), Ok(rec)).response.status == 200 <==> submitted == rec.code
    ensures submitted != "" ==>
              (CheckLegacyOutcome(submitted, Ok(rec)).response.status == 200 <==> submitted == rec.code)
    ensures CheckOutcome(Some(CheckRequest("a1b")), Ok(Code.CodeRecord("A1b", rec.expires))).response
            == Response(401, CheckBody(false))
    ensures CheckLegacyOutcome("A1b ", Ok(Code.CodeRecord("A1b", rec.expires))).response
            == Response(401, Text("Unauthorized"))
  {
  }

  // ---------------------------------------------------------------------------
  // The handlers run against the real services.

  /** `authHandler` against the session registry: the registry is changed only when,
      and exactly as, Create was consulted. `now` and `id` are the clock reading and
      the random identifier Create uses. */
  method AuthHandler(store: Session.MemorySessionStore, req: Option<AuthRequest>, login: Reply<bool>,
                     now: Time, id: string) returns (o: Outcome)
    modifies store
    ensures o == AuthOutcome(req, login, Ok(id))
    ensures store.store == if CreateSession in o.calls then Session.Created(old(store.store), id, now, store.duration)
                           else old(store.store)
  {
    if req.None? {
      return Outcome(JsonType, HandleError(StatusBadRequest), []);
    }
    var r := req.value;
    if login.Err? {
      return Outcome(JsonType, HandleError(StatusInternalServerError), [Login(r.user, r.passwd)]);
    }
    if login.value {
      var created := store.Create(now, id);
      if created.Err? {
        return Outcome(JsonType, HandleError(StatusInternalServerError), [Login(r.user, r.passwd), CreateSession]);
      }
      return Outcome(JsonType, Response(StatusOK, AuthBody(created.value)), [Login(r.user, r.passwd), CreateSession]);
    }
    o := Outcome(JsonType, HandleError(StatusUnauthorized), [Login(r.user, r.passwd)]);
  }

  /** `codeHandler` against the registry and the code source: Check runs at `now`, the
      response carries `serverTime`; the code source is only read. */
  method CodeHandler(store: Session.MemorySessionStore, gen: Code.RandomCodeGenerator, key: string,
                     now: Time, serverTime: Time) returns (o: Outcome)
    modifies store
    ensures o == CodeOutcome(key, Ok(Session.IsLive(old(store.store), key, now)),
                             Ok(Code.CodeRecord(gen.current, gen.expires)), serverTime)
    ensures store.store == if key == "" then old(store.store) else Session.Checked(old(store.store), key, now)
  {
    if key == "" {
      return Outcome(JsonType, HandleError(StatusBadRequest), []);
    }
    var status := store.Check(key, now);
    if status.Err? {
      return Outcome(JsonType, HandleError(StatusInternalServerError), [CheckSession(key)]);
    }
    if status.value {
      var rec := gen.Generate();
      if rec.Err? {
        return Outcome(JsonType, HandleError(StatusInternalServerError), [CheckSession(key), GenerateCode]);
      }
      return Outcome(JsonType, Response(StatusOK, CodeBody(rec.value.code, rec.value.expires, serverTime)),
                     [CheckSession(key), GenerateCode]);
    }
    o := Outcome(JsonType, HandleError(StatusUnauthorized), [CheckSession(key)]);
  }

  /** `checkHandler` against the code source: 200 exactly when the submitted code is the
      current one. */
  method CheckHandler(gen: Code.RandomCodeGenerator, req: Option<CheckRequest>) returns (o: Outcome)
    ensures o == CheckOutcome(req, Ok(Code.CodeRecord(gen.current, gen.expires)))
    ensures o.response.status == 200 <==> req.Some? && req.value.code == gen.current
  {
    if req.None? {
      return Outcome(JsonType, HandleError(StatusBadRequest), []);
    }
    var rec := gen.Generate();
    if rec.Err? {
      return Outcome(JsonType, HandleError(StatusInternalServerError), [GenerateCode]);
    }
    if req.value.code != rec.value.code {
      return Outcome(JsonType, Response(StatusUnauthorized, CheckBody(false)), [GenerateCode]);
    }
    o := Outcome(JsonType, Response(StatusOK, CheckBody(true)), [GenerateCode]);
  }

  /** `checkLegacyHandler` against the code source. */
  method CheckLegacyHandler(gen: Code.RandomCodeGenerator, pass: string) returns (o: Outcome)
    ensures o == CheckLegacyOutcome(pass, Ok(Code.CodeRecord(gen.current, gen.expires)))
    ensures o.response == Response(200, Text("true")) <==> pass != "" && pass == gen.current
  {
    if pass == "" {
      return Outcome(TextType, Response(StatusBadRequest, Text(StatusText(StatusBadRequest))), []);
    }
    var rec := gen.Generate();
    if rec.Err? {
      return Outcome(TextType, Response(StatusInternalServerError, Text(StatusText(StatusInternalServerError))),
                     [GenerateCode]);
    }
    if pass != rec.value.code {
      return Outcome(TextType, Response(StatusUnauthorized, Text(StatusText(StatusUnauthorized))), [GenerateCode]);
    }
    o := Outcome(TextType, Response(StatusOK, Text("true")), [GenerateCode]);
  }

  // ---------------------------------------------------------------------------
  // End-to-end properties.

  /** A client whose credentials Login accepts gets a session id, and fetching the code
      with that id right away succeeds, provided sessions last a positive time and the
      id is not empty (an empty header value is refused before the registry is asked). */
  lemma LoginThenFetchCode(m: map<string, Time>, user: string, passwd: string, id: string,
                           now: Time, duration: Duration, rec: Code.CodeRecord, serverTime: Time)
    requires duration > 0 && id != ""
    ensures AuthOutcome(Some(AuthRequest(user, passwd)), Ok(true), Ok(id)).response == Response(200, AuthBody(id))
    ensures CodeOutcome(id, Ok(Session.IsLive(Session.Created(m, id, now, duration), id, now)), Ok(rec), serverTime).response
            == Response(200, CodeBody(rec.code, rec.expires, serverTime))
  {
  }

  /** The same through the real services: after a successful login at `now`, fetching
      the code with the returned id at any instant `later` inside the session's window
      `[now, now + duration)` answers 200 with the current code, whatever sessions the
      registry held before. */
  method LoginThenFetchCodeLater(store: Session.MemorySessionStore, gen: Code.RandomCodeGenerator,
                                 user: string, passwd: string, id: string,
                                 now: Time, later: Time, serverTime: Time) returns (auth: Outcome, code: Outcome)
    requires id != "" && now <= later < now + store.duration
    modifies store
    ensures auth.response == Response(200, AuthBody(id))
    ensures code.response == Response(200, CodeBody(gen.current, gen.expires, serverTime))
    ensures code.calls == [CheckSession(id), GenerateCode]
  {
    auth := AuthHandler(store, Some(AuthRequest(user, passwd)), Ok(true), now, id);
    code := CodeHandler(store, gen, id, later, serverTime);
  }

  /** Rejected credentials create no session: the registry is left as it was. */
  method RejectedLoginScenario(user: string, passwd: string, now: Time, id: string) returns (o: Outcome, sessions: map<string, Time>)
    ensures o.response.status == 401 && CreateSession !in o.calls && sessions == map[]
  {
    var store := new Session.MemorySessionStore(60 * Minute);
    o := AuthHandler(store, Some(AuthRequest(user, passwd)), Ok(false), now, id);
    sessions := store.store;
  }

  /** Code length 3, interval one second: "A1b" issued at 0 verifies at half a second;
      after the rotation at one second to a different code it is answered 401
      {Status: false}. Before the first rotation the placeholder "old" verifies. */
  method RotationScenario(next: string) returns (initial: Outcome, before: Outcome, after: Outcome)
    requires next != "A1b"
    ensures initial.response == Response(200, CheckBody(true))
    ensures before.response == Response(200, CheckBody(true))
    ensures after.response == Response(401, CheckBody(false))
  {
    var second := 1_000_000_000;
    var gen := new Code.RandomCodeGenerator(3, second, 0);
    initial := CheckHandler(gen, Some(CheckRequest("old")));
    gen.Rotate(0, "A1b");
    before := CheckHandler(gen, Some(CheckRequest("A1b")));
    gen.Rotate(second, next);
    after := CheckHandler(gen, Some(CheckRequest("A1b")));
  }

  /** A legacy check with no `pass` field is refused with 400 before the code source is
      read. */
  method LegacyMissingPassScenario(gen: Code.RandomCodeGenerator) returns (o: Outcome)
    ensures o.response == Response(400, Text("Bad Request")) && o.calls == []
  {
    o := CheckLegacyHandler(gen, "");
  }
}
