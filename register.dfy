/** The `register` command (cmd/register.go): registers a service by storing a fresh
    random API key for it, or removes it, exiting after the first message it prints. */
module Register {
  import opened Wrappers
  import opened Store

  /** How the process ends: the exit status (0 for a result, 1 for an error) and the
      line printed before exiting, without its colour tag. */
  datatype Exit = Exit(code: int, message: string)

  function Failed(error: string): Exit {
    Exit(1, error)
  }

  function Done(message: string): Exit {
    Exit(0, message)
  }

  const ServiceFlagMissing := "Flag service must be specified"

  /** The command removes the service exactly when its first argument is "remove". */
  predicate IsRemove(args: seq<string>) {
    |args| > 0 && args[0] == "remove"
  }

  /** Every service with a secret in `before` keeps that secret in `after`, but for
      `service` when it was removed. */
  predicate KeepsSecrets(before: State, after: State, service: string, removed: bool) {
    forall s :: s in before.secrets && Secret(before, s) != "" && !(removed && s == service) ==>
      s in after.secrets && after.secrets[s] == before.secrets[s]
  }

  /** Register. `loaded` is the outcome of loading the store's configuration,
      `lookupFault` and `deleteFault` the errors of the GET and DEL calls, `uuid` the
      outcome of drawing a random UUID (its text is never empty), `write` how the SET
      and EXPIRE of CreateString ended. */
  method Register(loaded: Outcome, store: Client, service: string, args: seq<string>,
                  lookupFault: Option<string>, deleteFault: Option<string>,
                  uuid: Result<string>, write: WriteOutcome)
    returns (exit: Exit)
    requires uuid.Ok? ==> uuid.value != ""
    modifies store
    // an existing secret is never overwritten, and no other service is touched
    ensures KeepsSecrets(old(store.state), store.state, service, IsRemove(args))
    ensures forall s :: s != service ==> (s in store.state.secrets <==> s in old(store.state).secrets)
    ensures store.state.sessions == old(store.state.sessions)
    // failures before any store access
    ensures loaded.Fail? ==> exit == Failed(loaded.error) && store.state == old(store.state)
    ensures loaded.Pass? && service == "" ==> exit == Failed(ServiceFlagMissing) && store.state == old(store.state)
    // the lookup
    ensures loaded.Pass? && service != "" && lookupFault.Some? ==>
              exit == Failed(lookupFault.value) && store.state == old(store.state)
    ensures loaded.Pass? && service != "" && lookupFault.None? && !IsRemove(args) && Secret(old(store.state), service) != "" ==>
              exit == Done("Existant API KEY for service " + service + ": " + Secret(old(store.state), service)) &&
              store.state == old(store.state)
    // remove
    ensures loaded.Pass? && service != "" && lookupFault.None? && IsRemove(args) && Secret(old(store.state), service) != "" ==>
              if deleteFault.Some? then
                exit == Failed(deleteFault.value) && store.state == old(store.state)
              else
                exit == Done("API KEY " + Secret(old(store.state), service) + " deleted for service " + service) &&
                store.state == old(store.state).(secrets := old(store.state).secrets - {service})
    ensures loaded.Pass? && service != "" && lookupFault.None? && IsRemove(args) && Secret(old(store.state), service) == "" ==>
              exit == Done("API KEY doesn't exist for service: " + service) && store.state == old(store.state)
    // add: a fresh key with the API TTL
    ensures loaded.Pass? && service != "" && lookupFault.None? && !IsRemove(args) && Secret(old(store.state), service) == "" ==>
              && (uuid.Err? ==> exit == Failed(uuid.error) && store.state == old(store.state))
              && (uuid.Ok? ==>
                    store.state.secrets == Put(old(store.state).secrets, service, uuid.value, store.config.apiTtl, write) &&
                    exit == (if write.Written? then Done("API KEY for service " + service + ": " + uuid.value)
                             else Failed(write.error)))
    ensures exit.code == 0 && !IsRemove(args) && loaded.Pass? && service != "" ==> Secret(store.state, service) != ""
  {
    if loaded.Fail? {
      return Failed(loaded.error);
    }
    if service == "" {
      return Failed(ServiceFlagMissing);
    }
    var add := true;
    if |args| > 0 && args[0] == "remove" {
      add := false;
    }
    // try to find the service key, if it already exists
    var v := store.FindString(service, lookupFault);
    if v.Err? {
      return Failed(v.error);
    }
    if v.value != "" && add {
      return Done("Existant API KEY for service " + service + ": " + v.value);
    }
    // found and to be deleted
    if !add {
      if v.value != "" {
        var e := store.DeleteKey(service, deleteFault);
        if e.Fail? {
          return Failed(e.error);
        }
        return Done("API KEY " + v.value + " deleted for service " + service);
      } else {
        return Done("API KEY doesn't exist for service: " + service);
      }
    }
    // not found: create a key and report it
    if uuid.Err? {
      return Failed(uuid.error);
    }
    var e := store.CreateString(service, uuid.value, write);
    if e.Fail? {
      return Failed(e.error);
    }
    return Done("API KEY for service " + service + ": " + uuid.value);
  }

  /** Registering twice: the second run reports the key the first one stored, and
      changes nothing. */
  method RegisterTwice(store: Client, service: string, uuid1: string, uuid2: string)
    returns (first: Exit, second: Exit)
    requires service != "" && uuid1 != "" && uuid2 != ""
    requires Secret(store.state, service) == ""
    modifies store
    ensures first == Done("API KEY for service " + service + ": " + uuid1)
    ensures second == Done("Existant API KEY for service " + service + ": " + uuid1)
    ensures Secret(store.state, service) == uuid1
  {
    first := Register(Pass, store, service, [], None, None, Ok(uuid1), Written);
    second := Register(Pass, store, service, [], None, None, Ok(uuid2), Written);
  }
}
