/** The directory client (ldap/handler.go): a connection that may or may not be open,
    a bind flag and the DN of the bound user, driven by Connect, Close, Authenticate,
    GetGroupsOfUser and Health. Dialing, TLS, loading certificates, binding and
    searching are network steps: their outcomes are inputs. */
module Ldap {
  import opened Wrappers
  import opened Text

  /** The part of the LDAP configuration that decides how Connect dials. */
  datatype Config = Config(useSSL: bool, skipTLS: bool, sslCert: string, sslKey: string)

  /** An open connection; `encrypted` when it runs over TLS (dialled with TLS or upgraded with StartTLS). */
  datatype Connection = Connection(encrypted: bool)

  /** The outcomes of the network steps Connect may take. */
  datatype Dialer = Dialer(dial: Outcome, startTls: Outcome, loadKeyPair: Outcome, dialTls: Outcome)

  /** A search result entry: its DN and its first `cn` value ("" when it has none). */
  datatype Entry = Entry(dn: string, cn: string)

  /** What Authenticate returns: the display name, an error, or a runtime panic. */
  datatype AuthResult = Authenticated(name: string) | AuthFailed(error: string) | RuntimePanic(reason: string)

  const ConfigNotLoaded := "LDAP Config file not loaded"
  const MockName := "mock"

  function NotBound(username: string): string {
    "User " + username + " is not Binded, please Login first"
  }

  /** A client certificate is loaded only when both its files are configured. */
  predicate HasKeyPair(c: Config) {
    c.sslCert != "" && c.sslKey != ""
  }

  /** What dialing reports: plain TCP then StartTLS unless TLS is skipped, or a TLS dial
      preceded by loading the key pair when one is configured; the first failing step's
      error. */
  function DialOutcome(c: Config, d: Dialer): (o: Outcome)
    ensures !c.useSSL ==> (o.Pass? <==> d.dial.Pass? && (c.skipTLS || d.startTls.Pass?))
    ensures c.useSSL ==> (o.Pass? <==> (HasKeyPair(c) ==> d.loadKeyPair.Pass?) && d.dialTls.Pass?)
    ensures o.Fail? ==> o == d.dial || o == d.startTls || o == d.loadKeyPair || o == d.dialTls
  {
    if !c.useSSL then
      if d.dial.Fail? then d.dial
      else if !c.skipTLS && d.startTls.Fail? then d.startTls
      else Pass
    else
      if HasKeyPair(c) && d.loadKeyPair.Fail? then d.loadKeyPair
      else if d.dialTls.Fail? then d.dialTls
      else Pass
  }

  /** The group map built from a group search: each non-empty name, upper-cased, maps to itself. */
  function GroupMap(entries: seq<Entry>): (m: map<string, string>)
    ensures forall k :: k in m ==> m[k] == k && IsUpper(k)
    ensures forall k :: k in m <==> exists e :: e in entries && e.cn != "" && Upper(e.cn) == k
  {
    if entries == [] then map[]
    else
      var front := entries[..|entries| - 1];
      var last := entries[|entries| - 1];
      assert entries == front + [last];
      var m := GroupMap(front);
      if last.cn != "" then m[Upper(last.cn) := Upper(last.cn)] else m
  }

  class Client {
    var conn: Option<Connection>
    const config: Option<Config>
    var isBind: bool
    var userDN: string
    const isMock: bool

    /** A bound client has a connection, and a connection was opened from a configuration. */
    ghost predicate Valid()
      reads this
    {
      (isBind ==> conn.Some?) && (conn.Some? ==> config.Some?)
    }

    /** New: a client over `c` (possibly nil), not connected and not bound. */
    constructor New(c: Option<Config>)
      ensures Valid()
      ensures config == c && !isMock
      ensures conn.None? && !isBind && userDN == ""
    {
      config := c;
      isMock := false;
      conn := None;
      isBind := false;
      userDN := "";
    }

    /** The client the server builds when the directory is overridden: no configuration, mock mode. */
    constructor Mock()
      ensures Valid()
      ensures config.None? && isMock
      ensures conn.None? && !isBind && userDN == ""
    {
      config := None;
      isMock := true;
      conn := None;
      isBind := false;
      userDN := "";
    }

    /** Connect: opens a connection unless one is open or there is no configuration. */
    method Connect(d: Dialer) returns (err: Outcome)
      requires Valid()
      modifies this
      ensures Valid()
      ensures isBind == old(isBind) && userDN == old(userDN)
      ensures old(conn).Some? || config.None? ==> err == Pass && conn == old(conn)
      ensures old(conn).None? && config.Some? ==> err == DialOutcome(config.value, d)
      ensures old(conn).None? && config.Some? ==> (conn.Some? <==> err.Pass?)
      ensures old(conn).None? && conn.Some? ==>
                conn.value.encrypted == (config.value.useSSL || !config.value.skipTLS)
    {
      if conn.None? && config.Some? {
        var cfg := config.value;
        var l: Connection;
        if !cfg.useSSL {
          if d.dial.Fail? {
            return d.dial;
          }
          l := Connection(false);
          // reconnect with TLS
          if !cfg.skipTLS {
            if d.startTls.Fail? {
              return d.startTls;
            }
            l := Connection(true);
          }
        } else {
          if HasKeyPair(cfg) && d.loadKeyPair.Fail? {
            return d.loadKeyPair;
          }
          if d.dialTls.Fail? {
            return d.dialTls;
          }
          l := Connection(true);
        }
        conn := Some(l);
      }
      return Pass;
    }

    /** Close: unbinds and drops the connection; UserDN is kept. The state it leaves does
        not depend on the connection or bind state before, so closing twice is closing once. */
    method Close()
      modifies this
      ensures Valid()
      ensures conn.None? && !isBind && userDN == old(userDN)
    {
      isBind := false;
      if conn.Some? {
        conn := None;
      }
    }

    /** Authenticate as written: binds as the user, then looks the user up. The guarded
        reconnect before the bind calls Connect only when a connection is already open,
        where Connect does nothing, so it is left out of the body; without a connection
        the bind dereferences nil. */
    method Authenticate(username: string, password: string, bind: Outcome, search: Result<seq<Entry>>)
      returns (r: AuthResult)
      requires Valid()
      modifies this
      ensures Valid() && conn == old(conn)
      ensures isMock ==> r == Authenticated(MockName)
      ensures !isMock && conn.None? ==> r.RuntimePanic?
      ensures !isMock && conn.Some? && bind.Fail? ==> r == AuthFailed(bind.error)
      ensures !isMock && conn.Some? && bind.Pass? && search.Err? ==> r == Authenticated("")
      ensures !isMock && conn.Some? && bind.Pass? && search == Ok([]) ==> r.RuntimePanic?
      ensures !isMock && conn.Some? && bind.Pass? && search.Ok? && search.value != [] ==>
                r == Authenticated(search.value[0].cn) && isBind && userDN == search.value[0].dn
      // the bind state changes only on a successful lookup
      ensures isBind != old(isBind) || userDN != old(userDN) ==>
                !isMock && conn.Some? && bind.Pass? && search.Ok? && search.value != []
    {
      if isMock {
        return Authenticated(MockName);
      }
      if conn.None? {
        return RuntimePanic("nil pointer dereference");
      }
      // bind as the user to verify the password
      if bind.Fail? {
        return AuthFailed(bind.error);
      }
      // search for the user
      if search.Err? {
        return Authenticated("");
      }
      if search.value == [] {
        return RuntimePanic("index out of range");
      }
      var first := search.value[0];
      userDN := first.dn;
      isBind := true;
      r := Authenticated(first.cn);
    }

    /** Authenticate with the guard the reconnect evidently meant: connect first when no
        connection is open. Without a configuration Connect opens nothing, so the bind
        still dereferences nil there, as in the code as written. */
    method AuthenticateConnecting(username: string, password: string, d: Dialer, bind: Outcome, search: Result<seq<Entry>>)
      returns (r: AuthResult)
      requires Valid()
      modifies this
      ensures Valid()
      ensures old(conn).Some? ==> conn == old(conn)
      ensures isMock ==> r == Authenticated(MockName)
      ensures !isMock && old(conn).None? && config.Some? && DialOutcome(config.value, d).Fail? ==>
                r == AuthFailed(DialOutcome(config.value, d).error) && conn.None?
      ensures !isMock && old(conn).None? && config.Some? && DialOutcome(config.value, d).Pass? ==> conn.Some?
      ensures !isMock && config.None? ==> r.RuntimePanic?
      // with a configuration a missing connection no longer panics: the only panic left is an empty user search
      ensures r.RuntimePanic? ==> !isMock && (config.None? || (conn.Some? && bind.Pass? && search == Ok([])))
      ensures !isMock && r.Authenticated? ==> conn.Some?
      ensures !isMock && conn.Some? && bind.Fail? ==> r == AuthFailed(bind.error)
      ensures !isMock && conn.Some? && bind.Pass? && search.Err? ==> r == Authenticated("")
      ensures !isMock && conn.Some? && bind.Pass? && search.Ok? && search.value != [] ==>
                r == Authenticated(search.value[0].cn) && isBind && userDN == search.value[0].dn
      // the bind state changes only on a successful lookup
      ensures isBind != old(isBind) || userDN != old(userDN) ==>
                !isMock && conn.Some? && bind.Pass? && search.Ok? && search.value != []
    {
      if isMock {
        return Authenticated(MockName);
      }
      if conn.None? {
        var e := Connect(d);
        if e.Fail? {
          return AuthFailed(e.error);
        }
      }
      // still unconnected only without a configuration, whose BindDN the bind reads
      if conn.None? {
        return RuntimePanic("nil pointer dereference");
      }
      if bind.Fail? {
        return AuthFailed(bind.error);
      }
      if search.Err? {
        return Authenticated("");
      }
      if search.value == [] {
        return RuntimePanic("index out of range");
      }
      var first := search.value[0];
      userDN := first.dn;
      isBind := true;
      r := Authenticated(first.cn);
    }

    /** GetGroupsOfUser: the groups of the BOUND user, found by searching for its DN
        (`groupsOf` gives the search's outcome for a member DN); the argument only
        appears in the error text. Changes nothing. */
    method GetGroupsOfUser(username: string, groupsOf: string -> Result<seq<Entry>>)
      returns (r: Result<map<string, string>>)
      requires Valid()
      ensures isMock ==> r == Ok(map["MOCK" := "MOCK"])
      ensures !isMock && !isBind ==> r == Err(NotBound(username))
      ensures !isMock && isBind && groupsOf(userDN).Err? ==> r == Err(groupsOf(userDN).error)
      ensures !isMock && isBind && groupsOf(userDN).Ok? ==> r == Ok(GroupMap(groupsOf(userDN).value))
    {
      if isMock {
        return Ok(map["MOCK" := "MOCK"]);
      }
      if !isBind {
        return Err(NotBound(username));
      }
      // the guarded reconnect runs only with a connection open (a bound client has one),
      // where Connect does nothing
      var sr := groupsOf(userDN);
      if sr.Err? {
        return Err(sr.error);
      }
      var entries := sr.value;
      var groups: map<string, string> := map[];
      for i := 0 to |entries|
        invariant groups == GroupMap(entries[..i])
      {
        assert entries[..i + 1][..i] == entries[..i];
        var cn := entries[i].cn;
        if cn != "" {
          var n := Upper(cn);
          groups := groups[n := n];
        }
      }
      assert entries[..|entries|] == entries;
      r := Ok(groups);
    }

    /** Health: mock clients are always healthy; otherwise the configuration must be
        loaded and a connection must open, after which the client is closed. */
    method Health(d: Dialer) returns (err: Outcome)
      requires Valid()
      modifies this
      ensures Valid()
      ensures isMock ==> err == Pass && conn == old(conn) && isBind == old(isBind)
      ensures !isMock && config.None? ==> err == Fail(ConfigNotLoaded) && conn == old(conn)
      ensures !isMock && config.Some? && old(conn).Some? ==> err == Pass
      ensures !isMock && config.Some? && old(conn).None? ==> err == DialOutcome(config.value, d)
      ensures !isMock && config.Some? ==> conn.None? && (err.Pass? ==> !isBind)
      ensures userDN == old(userDN)
    {
      if isMock {
        return Pass;
      }
      if config.None? {
        return Fail(ConfigNotLoaded);
      }
      err := Connect(d);
      if err.Fail? {
        return err;
      }
      Close();
    }
  }

  /** The input that shows the reversed guard: a fresh, configured client asked to
      authenticate before anything connected it. */
  method UnconnectedAuthenticatePanics() returns (r: AuthResult)
    ensures r.RuntimePanic?
  {
    var c := new Client.New(Some(Config(false, false, "", "")));
    r := c.Authenticate("user", "secret", Pass, Ok([Entry("uid=user,dc=example", "User")]));
  }

  /** The same request against the corrected guard connects and authenticates. */
  method UnconnectedAuthenticateConnecting() returns (r: AuthResult)
    ensures r == Authenticated("User")
  {
    var c := new Client.New(Some(Config(false, false, "", "")));
    r := c.AuthenticateConnecting("user", "secret", Dialer(Pass, Pass, Pass, Pass), Pass,
                                  Ok([Entry("uid=user,dc=example", "User")]));
  }
}
