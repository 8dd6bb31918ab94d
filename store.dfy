/** The key-value store (Redis in redis/handler.go), reduced to what its callers observe.
    Service secrets live under the API-key template, sessions under the token-key template;
    both templates are modelled as injective key constructors, so a service name indexes
    `secrets` and a (username, service, token) triple indexes `sessions`. */
module Store {
  import opened Wrappers
  import opened Token

  /** What is left of an entry's life: the seconds last set by EXPIRE, or none when
      the SET went through and the EXPIRE that follows it failed. */
  datatype Ttl = Expires(seconds: int) | Persistent

  datatype Entry<V> = Entry(value: V, ttl: Ttl)

  datatype SessionKey = SessionKey(username: string, service: string, token: string)

  datatype State = State(secrets: map<string, Entry<string>>, sessions: map<SessionKey, Entry<Claims>>)

  /** `TTL` applies to sessions (CreateKey), `APITTL` to service secrets (CreateString). */
  datatype Config = Config(ttl: int, apiTtl: int)

  /** How a write (connect, SET, then EXPIRE) ended. */
  datatype WriteOutcome =
    | Written
    | NotWritten(error: string)          // connecting, encoding or SET failed
    | WrittenWithoutTtl(error: string)   // SET succeeded, EXPIRE failed

  /** The secret stored for `service`, the empty string when there is none. */
  function Secret(st: State, service: string): string {
    if service in st.secrets then st.secrets[service].value else ""
  }

  /** FindString (redis/handler.go) on the API key of `service`; `fault` is the connection or GET error, if any. */
  function Lookup(st: State, service: string, fault: Option<string>): (r: Result<string>)
    ensures fault.Some? <==> r.Err?
    ensures r.Err? ==> r.error == fault.value
    ensures r.Ok? ==> r.value == Secret(st, service)
    ensures r.Ok? && service !in st.secrets ==> r.value == ""
  {
    match fault
    case Some(e) => Err(e)
    case None => Ok(Secret(st, service))
  }

  /** The outcome a write reports to its caller. */
  function Reported(w: WriteOutcome): (o: Outcome)
    ensures o.Pass? <==> w.Written?
    ensures o.Fail? ==> o.error == w.error
  {
    if w.Written? then Pass else Fail(w.error)
  }

  /** The map after writing `v` under `k` with the given TTL. */
  function Put<K, V>(m: map<K, Entry<V>>, k: K, v: V, ttl: int, w: WriteOutcome): (r: map<K, Entry<V>>)
    ensures w.NotWritten? ==> r == m
    ensures !w.NotWritten? ==> k in r && r[k].value == v
    ensures w.Written? ==> r[k].ttl == Expires(ttl)
    ensures w.WrittenWithoutTtl? ==> r[k].ttl == Persistent
    ensures r.Keys <= m.Keys + {k}
    ensures forall j :: j in m && j != k ==> j in r && r[j] == m[j]
  {
    match w
    case Written => m[k := Entry(v, Expires(ttl))]
    case NotWritten(_) => m
    case WrittenWithoutTtl(_) => m[k := Entry(v, Persistent)]
  }

  /** CreateKey: the session `claims` under `key`, with the session TTL. Secrets are untouched. */
  function CreateKey(st: State, key: SessionKey, claims: Claims, cfg: Config, w: WriteOutcome): (r: (State, Outcome))
    ensures r.0.secrets == st.secrets
    ensures r.1 == Reported(w)
    ensures w.Written? ==> r.0.sessions == st.sessions[key := Entry(claims, Expires(cfg.ttl))]
    ensures w.NotWritten? ==> r.0 == st
    ensures w.WrittenWithoutTtl? ==> r.0.sessions == st.sessions[key := Entry(claims, Persistent)]
  {
    (st.(sessions := Put(st.sessions, key, claims, cfg.ttl, w)), Reported(w))
  }

  /** The Redis client the registration command drives. */
  class Client {
    var state: State
    const config: Config

    constructor (config: Config, state: State)
      ensures this.config == config && this.state == state
    {
      this.config := config;
      this.state := state;
    }

    /** FindString: a read, so the store is left as it is. */
    method FindString(service: string, fault: Option<string>) returns (r: Result<string>)
      ensures r == Lookup(state, service, fault)
    {
      if fault.Some? {
        return Err(fault.value);
      }
      if service !in state.secrets {
        return Ok("");   // GET answered nil
      }
      r := Ok(state.secrets[service].value);
    }

    /** CreateString: `value` under the API key of `service`, with the API TTL. */
    method CreateString(service: string, value: string, w: WriteOutcome) returns (e: Outcome)
      modifies this
      ensures e == Reported(w)
      ensures state.sessions == old(state.sessions)
      ensures state.secrets == Put(old(state.secrets), service, value, config.apiTtl, w)
    {
      state := state.(secrets := Put(state.secrets, service, value, config.apiTtl, w));
      e := Reported(w);
    }

    /** DeleteKey: removes the API key of `service`; `fault` is the connection or DEL error. */
    method DeleteKey(service: string, fault: Option<string>) returns (e: Outcome)
      modifies this
      ensures e.Fail? <==> fault.Some?
      ensures e.Fail? ==> e.error == fault.value && state == old(state)
      ensures e.Pass? ==> state == old(state).(secrets := old(state).secrets - {service})
    {
      if fault.Some? {
        return Fail(fault.value);
      }
      state := state.(secrets := state.secrets - {service});
      e := Pass;
    }
  }
}
