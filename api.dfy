/** The request handlers of the service (api/api.go): the group filter, the
    authentication and validation ladders, and the health report. The directory, the
    token codec and the store's transport are collaborators: what each call returns in
    one request is an input, and every reply carries the trace of the calls it made. */
module Api {
  import opened Wrappers
  import opened Text
  import opened Token
  import opened Store
  import opened ApiError
  import Ldap

  const StatusOK := 200
  const StatusBadRequest := 400
  const StatusForbidden := 403
  const StatusNotFound := 404
  const StatusInternalServerError := 500

  const HeaderAuthorization := "Authorization"
  const HeaderService := "AuthorizationRequestBy"
  const ErrorUserNotInGroups := "None of the User Groups are valid"
  const ErrorGroups := "Error retrieving groups"
  const TokenInvalid := "The provided Token is invalid"
  const StatusAvailable := "Available"
  const StatusUnavailable := "Unavailable"

  function IsEmpty(field: string): string {
    field + " is empty"
  }

  function ServiceNotRegistered(service: string): string {
    "Service " + service + " is not registered, please contact admin team in order to register"
  }

  // ---------------------------------------------------------------------------
  // Group filter

  /** The requested groups, upper-cased, that the directory reports for the user, in the
      order requested and with repetitions kept. */
  function FilterGroups(requested: seq<string>, available: map<string, string>): (r: seq<string>)
    ensures |r| <= |requested|
    ensures forall i :: 0 <= i < |r| ==> r[i] in available && IsUpper(r[i])
  {
    if requested == [] then []
    else
      var kept := FilterGroups(requested[..|requested| - 1], available);
      var g := Upper(requested[|requested| - 1]);
      if g in available then kept + [g] else kept
  }

  /** validateGroups: the loop that appends each matching group in turn. */
  method ValidateGroups(validGroups: seq<string>, allGroups: map<string, string>) returns (grr: seq<string>)
    ensures grr == FilterGroups(validGroups, allGroups)
  {
    grr := [];
    for i := 0 to |validGroups|
      invariant grr == FilterGroups(validGroups[..i], allGroups)
    {
      assert validGroups[..i + 1][..i] == validGroups[..i];
      var gr := Upper(validGroups[i]);
      if gr in allGroups {
        grr := grr + [gr];
      }
    }
    assert validGroups[..|validGroups|] == validGroups;
  }

  /** Filtering a concatenation filters each part: the order of the request is kept. */
  lemma {:induction false} FilterAppend(a: seq<string>, b: seq<string>, m: map<string, string>)
    ensures FilterGroups(a + b, m) == FilterGroups(a, m) + FilterGroups(b, m)
    decreases |b|
  {
    if b == [] {
      assert a + b == a;
    } else {
      var b' := b[..|b| - 1];
      assert (a + b)[..|a + b| - 1] == a + b';
      assert (a + b)[|a + b| - 1] == b[|b| - 1];
      FilterAppend(a, b', m);
    }
  }

  /** A group is in the result exactly when the directory has it and some requested
      group upper-cases to it. */
  lemma {:induction false} FilterMember(requested: seq<string>, m: map<string, string>, x: string)
    ensures x in FilterGroups(requested, m) <==>
            x in m && exists i :: 0 <= i < |requested| && Upper(requested[i]) == x
    decreases |requested|
  {
    if requested != [] {
      var n := |requested| - 1;
      var front := requested[..n];
      FilterMember(front, m, x);
      if x in m && exists i :: 0 <= i < |requested| && Upper(requested[i]) == x {
        var i :| 0 <= i < |requested| && Upper(requested[i]) == x;
        if i < n {
          assert front[i] == requested[i];
        }
      }
      if x in m && exists i :: 0 <= i < |front| && Upper(front[i]) == x {
        var i :| 0 <= i < |front| && Upper(front[i]) == x;
        assert requested[i] == front[i];
      }
    }
  }

  /** When every requested group is known to the directory, nothing is dropped: the
      result is the request upper-cased, element for element, duplicates included. */
  lemma {:induction false} FilterKeepsAll(requested: seq<string>, m: map<string, string>)
    requires forall i :: 0 <= i < |requested| ==> Upper(requested[i]) in m
    ensures |FilterGroups(requested, m)| == |requested|
    ensures forall i :: 0 <= i < |requested| ==> FilterGroups(requested, m)[i] == Upper(requested[i])
    decreases |requested|
  {
    if requested != [] {
      var front := requested[..|requested| - 1];
      FilterKeepsAll(front, m);
    }
  }

  /** A one-group request keeps its upper-case form exactly when the directory knows
      it. */
  lemma FilterSingle(g: string, m: map<string, string>)
    ensures FilterGroups([g], m) == if Upper(g) in m then [Upper(g)] else []
  {
    assert [g][..0] == [];
  }

  /** Filtering the filtered groups again against the same map gives them back:
      validateGroups is idempotent. */
  lemma FilterIdempotent(requested: seq<string>, m: map<string, string>)
    ensures FilterGroups(FilterGroups(requested, m), m) == FilterGroups(requested, m)
  {
    var r := FilterGroups(requested, m);
    forall i | 0 <= i < |r| ensures Upper(r[i]) == r[i] {
      UpperKeepsUpper(r[i]);
    }
    FilterKeepsAll(r, m);
  }

  /** The examples of the group-filter test. */
  lemma FilterExamples()
    ensures FilterGroups(["teste"], map["TESTE" := "TESTE"]) == ["TESTE"]
    ensures FilterGroups(["teste"], map["TESTE" := "TESTE", "TESTE2" := "TESTE2"]) == ["TESTE"]
    ensures FilterGroups(["teste2"], map["TESTE" := "TESTE"]) == []
  {
    UpperTeste();
    UpperTeste2();
    var m1 := map["TESTE" := "TESTE"];
    var m2 := map["TESTE" := "TESTE", "TESTE2" := "TESTE2"];
    assert "TESTE2" != "TESTE" by { assert |"TESTE2"| != |"TESTE"|; }
    assert "TESTE" in m1 && "TESTE" in m2 && "TESTE2" !in m1;
    FilterSingle("teste", m1);
    FilterSingle("teste", m2);
    FilterSingle("teste2", m1);
  }

  /** Against the groups the directory client builds, matching is by upper-case name:
      a requested group is kept exactly when some group entry with a non-empty name
      upper-cases to the same text. */
  lemma DirectoryMatch(requested: seq<string>, entries: seq<Ldap.Entry>, x: string)
    ensures x in FilterGroups(requested, Ldap.GroupMap(entries)) <==>
            (exists i :: 0 <= i < |requested| && Upper(requested[i]) == x) &&
            (exists e :: e in entries && e.cn != "" && Upper(e.cn) == x)
  {
    FilterMember(requested, Ldap.GroupMap(entries), x);
  }

  // ---------------------------------------------------------------------------
  // Replies and the calls they make

  datatype Body = ErrorBody(content: ErrContent) | TokenBody(token: string) | NoBody

  datatype Response = Response(status: int, body: Body)

  /** A call into a collaborator, with the arguments that matter. */
  datatype Call =
    | FindSecret(service: string)
    | LdapConnect
    | LdapAuthenticate(username: string, password: string)
    | LdapGroups(username: string)
    | LdapClose
    | CreateToken(claims: Claims, secret: string)
    | ValidateToken(token: string, secret: string)
    | WriteSession(key: SessionKey, claims: Claims)

  /** The response, the store afterwards, and the calls made, in order. */
  datatype Reply = Reply(response: Response, store: State, calls: seq<Call>)

  /** An error response: the HTTP status and the code and message of its JSON body. */
  function Rejection(status: int, code: int, message: string): Response {
    Response(status, ErrorBody(ErrContent(code, message)))
  }

  /** The service has a secret, and looking it up did not fail. */
  predicate Registered(st: State, lookupFault: Option<string>, service: string) {
    lookupFault.None? && Secret(st, service) != ""
  }

  /** The sessions of `b` are those of `a` except, at most, the one under `key`. */
  predicate SessionsAgreeExcept(a: State, b: State, key: SessionKey) {
    && b.sessions.Keys <= a.sessions.Keys + {key}
    && forall k :: k in a.sessions && k != key ==> k in b.sessions && b.sessions[k] == a.sessions[k]
  }

  // ---------------------------------------------------------------------------
  // Authenticate

  /** The JSON body of an authentication request. */
  datatype AuthRequest = AuthRequest(username: string, password: string, service: string, groups: seq<string>)

  /** What each collaborator call of one authentication returns: the secret lookup's
      error, Ldap.Connect, Ldap.Authenticate (the display name), Ldap.GetGroupsOfUser,
      Secure.CreateToken, and Redis.CreateKey. */
  datatype AuthenticateIo = AuthenticateIo(
    lookupFault: Option<string>,
    connect: Outcome,
    login: Result<string>,
    groups: Result<map<string, string>>,
    token: Result<string>,
    write: WriteOutcome)

  predicate MissingField(o: AuthRequest) {
    o.username == "" || o.password == "" || o.service == "" || |o.groups| == 0
  }

  /** The body was read and holds every field. */
  predicate Admitted(bind: Result<AuthRequest>) {
    bind.Ok? && !MissingField(bind.value)
  }

  /** The request got as far as a successful directory login. */
  predicate LoggedIn(bind: Result<AuthRequest>, st: State, io: AuthenticateIo) {
    && Admitted(bind)
    && Registered(st, io.lookupFault, bind.value.service)
    && io.connect.Pass?
    && io.login.Ok?
  }

  /** The directory returned groups, and some requested group is among them. */
  predicate Matched(bind: Result<AuthRequest>, st: State, io: AuthenticateIo) {
    && LoggedIn(bind, st, io)
    && io.groups.Ok?
    && |FilterGroups(bind.value.groups, io.groups.value)| > 0
  }

  /** The claims a token is issued for. */
  function IssuedClaims(bind: Result<AuthRequest>, st: State, io: AuthenticateIo): Claims
    requires Matched(bind, st, io)
  {
    Claims(bind.value.username, bind.value.service, FilterGroups(bind.value.groups, io.groups.value), io.login.value)
  }

  /** The session key of an issued token. */
  function IssuedKey(bind: Result<AuthRequest>, io: AuthenticateIo): SessionKey
    requires bind.Ok? && io.token.Ok?
  {
    SessionKey(bind.value.username, bind.value.service, io.token.value)
  }

  /** Authenticate: checks the body, resolves the service's secret, logs in to the
      directory, filters the requested groups, issues a token signed with the
      service's secret and records the session. The directory connection is closed
      (deferred) once the directory login has succeeded, and only then. */
  function Authenticate(bind: Result<AuthRequest>, cfg: Config, st: State, io: AuthenticateIo): (r: Reply)
    ensures r.response.status in {StatusOK, StatusBadRequest, StatusForbidden, StatusInternalServerError}
    // field checks come first and touch no collaborator
    ensures r.response.status == StatusBadRequest <==> !Admitted(bind)
    ensures !Admitted(bind) ==> r.calls == [] && r.store == st
    ensures bind.Err? ==> r.response == Rejection(StatusBadRequest, StatusBadRequest, bind.error)
    ensures bind.Ok? && bind.value.username == "" ==>
              r.response == Rejection(StatusBadRequest, StatusBadRequest, IsEmpty("username"))
    ensures bind.Ok? && bind.value.username != "" && bind.value.password == "" ==>
              r.response == Rejection(StatusBadRequest, StatusBadRequest, IsEmpty("password"))
    ensures bind.Ok? && bind.value.username != "" && bind.value.password != "" && bind.value.service == "" ==>
              r.response == Rejection(StatusBadRequest, StatusBadRequest, IsEmpty("service"))
    ensures bind.Ok? && bind.value.username != "" && bind.value.password != "" && bind.value.service != "" &&
            |bind.value.groups| == 0 ==>
              r.response == Rejection(StatusBadRequest, StatusBadRequest, IsEmpty("groups"))
    // an unregistered service (a failed lookup included) is refused before the directory is contacted
    ensures Admitted(bind) && !Registered(st, io.lookupFault, bind.value.service) ==>
              r.response == Rejection(StatusForbidden, StatusForbidden, ServiceNotRegistered(bind.value.service)) &&
              r.calls == [FindSecret(bind.value.service)] && r.store == st
    // directory failures
    ensures Admitted(bind) && Registered(st, io.lookupFault, bind.value.service) && io.connect.Fail? ==>
              r.response == Rejection(StatusInternalServerError, StatusInternalServerError, io.connect.error)
    ensures Admitted(bind) && Registered(st, io.lookupFault, bind.value.service) && io.connect.Pass? && io.login.Err? ==>
              r.response == Rejection(StatusForbidden, StatusInternalServerError, io.login.error)
    ensures LoggedIn(bind, st, io) && io.groups.Err? ==>
              r.response == Rejection(StatusInternalServerError, StatusInternalServerError, ErrorGroups)
    ensures LoggedIn(bind, st, io) && io.groups.Ok? && !Matched(bind, st, io) ==>
              r.response == Rejection(StatusForbidden, StatusForbidden, ErrorUserNotInGroups)
    ensures Matched(bind, st, io) && io.token.Err? ==>
              r.response == Rejection(StatusInternalServerError, StatusInternalServerError, io.token.error) && r.store == st
    ensures Matched(bind, st, io) && io.token.Ok? && !io.write.Written? ==>
              r.response == Rejection(StatusInternalServerError, StatusInternalServerError, io.write.error)
    // success: the token is returned only when its session was stored with the session TTL
    ensures r.response.status == StatusOK <==> Matched(bind, st, io) && io.token.Ok? && io.write.Written?
    ensures r.response.body.TokenBody? ==> r.response.status == StatusOK
    ensures r.response.status == StatusOK ==>
              r.response.body == TokenBody(io.token.value) &&
              r.store == st.(sessions := st.sessions[IssuedKey(bind, io) := Entry(IssuedClaims(bind, st, io), Expires(cfg.ttl))])
  {
    if bind.Err? then
      Reply(Rejection(StatusBadRequest, StatusBadRequest, bind.error), st, [])
    else
      var o := bind.value;
      if o.username == "" then Reply(Rejection(StatusBadRequest, StatusBadRequest, IsEmpty("username")), st, [])
      else if o.password == "" then Reply(Rejection(StatusBadRequest, StatusBadRequest, IsEmpty("password")), st, [])
      else if o.service == "" then Reply(Rejection(StatusBadRequest, StatusBadRequest, IsEmpty("service")), st, [])
      else if |o.groups| == 0 then Reply(Rejection(StatusBadRequest, StatusBadRequest, IsEmpty("groups")), st, [])
      else
        // find the service's API key
        var calls := [FindSecret(o.service)];
        var cipherKey := Lookup(st, o.service, io.lookupFault);
        if cipherKey.Err? || cipherKey.value == "" then
          Reply(Rejection(StatusForbidden, StatusForbidden, ServiceNotRegistered(o.service)), st, calls)
        else
          var calls := calls + [LdapConnect];
          if io.connect.Fail? then
            Reply(Rejection(StatusInternalServerError, StatusInternalServerError, io.connect.error), st, calls)
          else
            var calls := calls + [LdapAuthenticate(o.username, o.password)];
            if io.login.Err? then
              Reply(Rejection(StatusForbidden, StatusInternalServerError, io.login.error), st, calls)
            else
              // from here on the deferred Close runs on every exit
              var calls := calls + [LdapGroups(o.username)];
              if io.groups.Err? then
                Reply(Rejection(StatusInternalServerError, StatusInternalServerError, ErrorGroups), st, calls + [LdapClose])
              else
                var gr := FilterGroups(o.groups, io.groups.value);
                if |gr| == 0 then
                  Reply(Rejection(StatusForbidden, StatusForbidden, ErrorUserNotInGroups), st, calls + [LdapClose])
                else
                  var claims := Claims(o.username, o.service, gr, io.login.value);
                  var calls := calls + [CreateToken(claims, cipherKey.value)];
                  if io.token.Err? then
                    Reply(Rejection(StatusInternalServerError, StatusInternalServerError, io.token.error), st, calls + [LdapClose])
                  else
                    var key := SessionKey(o.username, o.service, io.token.value);
                    var (st', written) := CreateKey(st, key, claims, cfg, io.write);
                    var calls := calls + [WriteSession(key, claims), LdapClose];
                    if written.Fail? then
                      Reply(Rejection(StatusInternalServerError, StatusInternalServerError, written.error), st', calls)
                    else
                      Reply(Response(StatusOK, TokenBody(io.token.value)), st', calls)
  }

  /** The calls Authenticate makes before the directory: the secret lookup first, and
      the directory only for a registered service. */
  lemma AuthenticateCallsDirectory(bind: Result<AuthRequest>, cfg: Config, st: State, io: AuthenticateIo)
    ensures var r := Authenticate(bind, cfg, st, io);
            && (Admitted(bind) ==> |r.calls| > 0 && r.calls[0] == FindSecret(bind.value.service))
            && (LdapConnect in r.calls <==> Admitted(bind) && Registered(st, io.lookupFault, bind.value.service))
  {
  }

  /** Close is the last call, and is made exactly when the directory login succeeded;
      the token is made from the request's identity and the filtered groups with the
      service's own secret. */
  lemma AuthenticateClosesAndSigns(bind: Result<AuthRequest>, cfg: Config, st: State, io: AuthenticateIo)
    ensures var r := Authenticate(bind, cfg, st, io);
            && (LdapClose in r.calls <==> LoggedIn(bind, st, io))
            && (LdapClose in r.calls ==> r.calls[|r.calls| - 1] == LdapClose)
            && (Matched(bind, st, io) ==>
                  CreateToken(IssuedClaims(bind, st, io), Secret(st, bind.value.service)) in r.calls)
  {
  }

  /** Authenticate never touches a secret, and changes the sessions only by storing the
      issued session, which holds the issued claims. */
  lemma AuthenticateStoreFrame(bind: Result<AuthRequest>, cfg: Config, st: State, io: AuthenticateIo)
    ensures var r := Authenticate(bind, cfg, st, io);
            && r.store.secrets == st.secrets
            && (r.store != st ==>
                  Matched(bind, st, io) && io.token.Ok? && !io.write.NotWritten? &&
                  SessionsAgreeExcept(st, r.store, IssuedKey(bind, io)) &&
                  IssuedKey(bind, io) in r.store.sessions &&
                  r.store.sessions[IssuedKey(bind, io)].value == IssuedClaims(bind, st, io))
  {
  }

  /** An issued token carries a non-empty list of groups, each upper-case, each among the
      directory's groups for the user and each the upper-case form of a requested group. */
  lemma IssuedGroupsAreGranted(bind: Result<AuthRequest>, cfg: Config, st: State, io: AuthenticateIo)
    requires Authenticate(bind, cfg, st, io).response.status == StatusOK
    ensures Matched(bind, st, io)
    ensures var groups := IssuedClaims(bind, st, io).groups;
            && |groups| > 0
            && forall g :: g in groups ==>
                 && IsUpper(g)
                 && g in io.groups.value
                 && exists i :: 0 <= i < |bind.value.groups| && Upper(bind.value.groups[i]) == g
  {
    var groups := IssuedClaims(bind, st, io).groups;
    forall g | g in groups
      ensures IsUpper(g) && g in io.groups.value
      ensures exists i :: 0 <= i < |bind.value.groups| && Upper(bind.value.groups[i]) == g
    {
      FilterMember(bind.value.groups, io.groups.value, g);
    }
  }

  // ---------------------------------------------------------------------------
  // Validate

  /** The request headers Validate reads: the token and the calling service. */
  datatype Headers = Headers(authorization: string, requestBy: string)

  /** What each collaborator call of one validation returns: the secret lookup's error,
      Secure.ValidateToken (the decoded claims), and Redis.CreateKey. */
  datatype ValidateIo = ValidateIo(lookupFault: Option<string>, decoded: Result<Claims>, write: WriteOutcome)

  predicate HeadersPresent(h: Headers) {
    h.authorization != "" && h.requestBy != ""
  }

  /** The token was checked by the codec against the requesting service's secret. */
  predicate Checked(h: Headers, st: State, io: ValidateIo) {
    HeadersPresent(h) && Registered(st, io.lookupFault, h.requestBy)
  }

  /** The token decoded, and it names the requesting service. */
  predicate Consistent(h: Headers, st: State, io: ValidateIo) {
    Checked(h, st, io) && io.decoded.Ok? && io.decoded.value.service == h.requestBy
  }

  /** The session key Validate refreshes: the user named in the token, the requesting
      service, the token itself. */
  function RefreshKey(h: Headers, io: ValidateIo): SessionKey
    requires io.decoded.Ok?
  {
    SessionKey(io.decoded.value.username, h.requestBy, h.authorization)
  }

  /** Validate: checks the headers, resolves the requesting service's secret, has the
      codec check the token with it, requires the token to name that service, and
      re-writes the session with the decoded claims and a fresh TTL. It does not look
      the session up first, and compares the token's user with nothing. */
  function Validate(h: Headers, cfg: Config, st: State, io: ValidateIo): (r: Reply)
    ensures r.response.status in {StatusOK, StatusBadRequest, StatusForbidden}
    ensures r.response.status == StatusBadRequest <==> !HeadersPresent(h)
    ensures !HeadersPresent(h) ==> r.calls == [] && r.store == st
    ensures h.authorization == "" ==>
              r.response == Rejection(StatusBadRequest, StatusBadRequest, IsEmpty(HeaderAuthorization))
    ensures h.authorization != "" && h.requestBy == "" ==>
              r.response == Rejection(StatusBadRequest, StatusBadRequest, IsEmpty(HeaderService))
    ensures HeadersPresent(h) ==> |r.calls| > 0 && r.calls[0] == FindSecret(h.requestBy)
    ensures HeadersPresent(h) && !Registered(st, io.lookupFault, h.requestBy) ==>
              r.response == Rejection(StatusForbidden, StatusForbidden, ServiceNotRegistered(h.requestBy)) &&
              r.calls == [FindSecret(h.requestBy)] && r.store == st
    // the token is checked against the requesting service's own secret, and only once that is known
    ensures ValidateToken(h.authorization, Secret(st, h.requestBy)) in r.calls <==> Checked(h, st, io)
    // codec, consistency and store failures: HTTP 403 with body code 404
    ensures Checked(h, st, io) && io.decoded.Err? ==>
              r.response == Rejection(StatusForbidden, StatusNotFound, io.decoded.error) && r.store == st
    ensures Checked(h, st, io) && io.decoded.Ok? && io.decoded.value.service != h.requestBy ==>
              r.response == Rejection(StatusForbidden, StatusNotFound, TokenInvalid) && r.store == st
    ensures Consistent(h, st, io) && !io.write.Written? ==>
              r.response == Rejection(StatusForbidden, StatusNotFound, io.write.error)
    // success: the session is re-written with the decoded claims unchanged and a renewed TTL
    ensures r.response.status == StatusOK <==> Consistent(h, st, io) && io.write.Written?
    ensures r.response.status == StatusOK ==>
              r.response.body == NoBody &&
              r.store == st.(sessions := st.sessions[RefreshKey(h, io) := Entry(io.decoded.value, Expires(cfg.ttl))])
    ensures r.store.secrets == st.secrets
    ensures r.store != st ==>
              Consistent(h, st, io) && !io.write.NotWritten? &&
              SessionsAgreeExcept(st, r.store, RefreshKey(h, io)) &&
              RefreshKey(h, io) in r.store.sessions &&
              r.store.sessions[RefreshKey(h, io)].value == io.decoded.value
  {
    var token := h.authorization;
    if token == "" then
      Reply(Rejection(StatusBadRequest, StatusBadRequest, IsEmpty(HeaderAuthorization)), st, [])
    else
      var service := h.requestBy;
      if service == "" then
        Reply(Rejection(StatusBadRequest, StatusBadRequest, IsEmpty(HeaderService)), st, [])
      else
        // check that the API key exists
        var calls := [FindSecret(service)];
        var cipherKey := Lookup(st, service, io.lookupFault);
        if cipherKey.Err? || cipherKey.value == "" then
          Reply(Rejection(StatusForbidden, StatusForbidden, ServiceNotRegistered(service)), st, calls)
        else
          var calls := calls + [ValidateToken(token, cipherKey.value)];
          if io.decoded.Err? then
            Reply(Rejection(StatusForbidden, StatusNotFound, io.decoded.error), st, calls)
          else
            var tkObj := io.decoded.value;
            // data consistency
            if tkObj.service != service then
              Reply(Rejection(StatusForbidden, StatusNotFound, TokenInvalid), st, calls)
            else
              // refresh the TTL
              var key := SessionKey(tkObj.username, service, token);
              var (st', written) := CreateKey(st, key, tkObj, cfg, io.write);
              var calls := calls + [WriteSession(key, tkObj)];
              if written.Fail? then
                Reply(Rejection(StatusForbidden, StatusNotFound, written.error), st', calls)
              else
                Reply(Response(StatusOK, NoBody), st', calls)
  }

  /** The user named in a token plays no part in the decision: tokens that differ only
      in their username get the same response. */
  lemma ValidateIgnoresUsername(h: Headers, cfg: Config, st: State, io: ValidateIo, user: string)
    requires io.decoded.Ok?
    ensures Validate(h, cfg, st, io).response ==
            Validate(h, cfg, st, io.(decoded := Ok(io.decoded.value.(username := user)))).response
  {
  }

  /** No session needs to exist: a token the codec accepts for the requesting service
      is answered 200, and its session is created if it was missing. */
  lemma ValidateNeedsNoSession(h: Headers, cfg: Config, st: State, io: ValidateIo)
    requires Consistent(h, st, io) && io.write.Written?
    requires RefreshKey(h, io) !in st.sessions
    ensures var r := Validate(h, cfg, st, io);
            r.response.status == StatusOK && RefreshKey(h, io) in r.store.sessions
  {
  }

  /** Sliding refresh: validating a token just issued, when the codec decodes it to the
      claims it was made from, leaves the session as issued (same claims, TTL set anew
      to the session TTL), and the store as Authenticate left it. */
  lemma IssueThenRefresh(bind: Result<AuthRequest>, cfg: Config, st: State, aio: AuthenticateIo, vio: ValidateIo)
    requires Authenticate(bind, cfg, st, aio).response.status == StatusOK
    requires aio.token.value != ""
    requires vio.lookupFault.None? && vio.write.Written?
    requires vio.decoded == Ok(IssuedClaims(bind, st, aio))
    ensures var a := Authenticate(bind, cfg, st, aio);
            var v := Validate(Headers(aio.token.value, bind.value.service), cfg, a.store, vio);
            && v.response.status == StatusOK
            && v.store == a.store
            && v.store.sessions[IssuedKey(bind, aio)] == Entry(IssuedClaims(bind, st, aio), Expires(cfg.ttl))
  {
    var a := Authenticate(bind, cfg, st, aio);
    var key := IssuedKey(bind, aio);
    assert a.store.sessions[key] == Entry(IssuedClaims(bind, st, aio), Expires(cfg.ttl));
    assert a.store.sessions[key := a.store.sessions[key]] == a.store.sessions;
  }

  // ---------------------------------------------------------------------------
  // HealthStatus

  datatype HealthDetail = HealthDetail(status: string, detail: string)

  datatype HealthReport = HealthReport(ldap: HealthDetail, redis: HealthDetail, security: HealthDetail)

  /** HealthStatus: always 200; each collaborator is reported from its own probe alone,
      "Unavailable" with the probe's error exactly when that probe failed. */
  method HealthStatus(ldapHealth: Outcome, redisHealth: Outcome, securityHealth: Outcome)
    returns (status: int, resp: HealthReport)
    ensures status == StatusOK
    ensures resp.ldap.status == StatusUnavailable <==> ldapHealth.Fail?
    ensures resp.ldap.status == StatusAvailable <==> ldapHealth.Pass?
    ensures resp.ldap.detail == (if ldapHealth.Fail? then ldapHealth.error else "")
    ensures resp.redis.status == StatusUnavailable <==> redisHealth.Fail?
    ensures resp.redis.status == StatusAvailable <==> redisHealth.Pass?
    ensures resp.redis.detail == (if redisHealth.Fail? then redisHealth.error else "")
    ensures resp.security.status == StatusUnavailable <==> securityHealth.Fail?
    ensures resp.security.status == StatusAvailable <==> securityHealth.Pass?
    ensures resp.security.detail == (if securityHealth.Fail? then securityHealth.error else "")
  {
    var available := HealthDetail(StatusAvailable, "");
    resp := HealthReport(available, available, available);
    if ldapHealth.Fail? {
      resp := resp.(ldap := resp.ldap.(status := StatusUnavailable));
      resp := resp.(ldap := resp.ldap.(detail := ldapHealth.error));
    }
    if redisHealth.Fail? {
      resp := resp.(redis := resp.redis.(status := StatusUnavailable));
      resp := resp.(redis := resp.redis.(detail := redisHealth.error));
    }
    if securityHealth.Fail? {
      resp := resp.(security := resp.security.(status := StatusUnavailable));
      resp := resp.(security := resp.security.(detail := securityHealth.error));
    }
    status := StatusOK;
  }
}
