/** The authentication hook: runs one login or registration attempt against
    the session store and keeps the `loading` and `error` state a form
    displays. */
module Authentication {
  import opened Common
  import opened Session

  /** How `authenticate` ends: it returns the store's result, or it throws
      an error carrying the failure message. */
  datatype Completion = Returned(result: AuthResult) | Threw(message: string)

  /** The request `authenticate` makes the store send: a login for the form
      type `'login'`, a registration for any other form type. */
  function Dispatch(formType: string, credentials: map<string, Value>): (req: Request)
    ensures req.LoginPost? <==> formType == "login"
    ensures req.email == Lookup(credentials, "email") && req.password == Lookup(credentials, "password")
    ensures req.RegisterPost? ==> req.name == Lookup(credentials, "name")
  {
    if formType == "login" then
      LoginPost(Lookup(credentials, "email"), Lookup(credentials, "password"))
    else
      RegisterPost(Lookup(credentials, "name"), Lookup(credentials, "email"), Lookup(credentials, "password"))
  }

  /** The result object the store returns for the dispatched request. */
  function StoreReply(formType: string, o: Outcome): (r: AuthResult)
    ensures r.success <==> o.Ok?
    ensures r.message != ""
  {
    if formType == "login" then LoginReply(o) else RegisterReply(o)
  }

  /** How `authenticate` ends for a store result: success is returned as it
      is, failure is thrown with the result's message. */
  function Completed(res: AuthResult): (c: Completion)
    ensures c.Returned? <==> res.success
    ensures c.Returned? ==> c.result == res
    ensures c.Threw? ==> c.message == res.message
  {
    if res.success then Returned(res) else Threw(res.message)
  }

  /** The hook's state for one form. `error` is `None` for `null` and
      `Some(m)` for the object `{message: m}`. */
  class AuthHook {
    const formType: string
    var loading: bool
    var error: Option<string>

    constructor (formType: string)
      ensures this.formType == formType
      ensures !loading && error == None
    {
      this.formType := formType;
      loading := false;
      error := None;
    }

    /** `setLoading(true)`, the first step of `authenticate`. */
    method Begin()
      modifies this
      ensures loading && error == old(error)
    {
      loading := true;
    }

    /** The rest of `authenticate`: the store's request, which may only be
        sent while `loading` is set, and its completion. */
    method Settle(credentials: map<string, Value>, store: SessionStore, outcome: Outcome)
      returns (c: Completion)
      requires loading && store.Valid()
      modifies this, store
      ensures store.Valid() && !loading
      ensures store.State() == Settled(old(store.State()), Dispatch(formType, credentials), outcome)
      ensures c == Completed(StoreReply(formType, outcome))
      ensures outcome.Ok? ==> error == old(error)
      ensures outcome.Err? ==> error == Some(StoreReply(formType, outcome).message)
    {
      var result: AuthResult;
      if formType == "login" {
        result := store.LoginWithCredentials(Lookup(credentials, "email"), Lookup(credentials, "password"), outcome);
      } else {
        result := store.Register(Lookup(credentials, "name"), Lookup(credentials, "email"), Lookup(credentials, "password"), outcome);
      }
      loading := false;
      if result.success {
        c := Returned(result);
      } else {
        error := Some(result.message);
        // The thrown error is caught by the hook's own handler, which
        // resets `loading`, records `{message: err.message}` and rethrows.
        loading := false;
        error := Some(result.message);
        c := Threw(result.message);
      }
    }

    /** `authenticate(credentials)`: `Begin`, then `Settle`, so the request
        is out only while `loading` is set. */
    method Authenticate(credentials: map<string, Value>, store: SessionStore, outcome: Outcome)
      returns (c: Completion)
      requires store.Valid()
      modifies this, store
      ensures store.Valid() && !loading
      ensures store.State() == Settled(old(store.State()), Dispatch(formType, credentials), outcome)
      ensures c == Completed(StoreReply(formType, outcome))
      ensures outcome.Ok? ==> error == old(error)
      ensures outcome.Err? ==> error == Some(StoreReply(formType, outcome).message)
    {
      Begin();
      c := Settle(credentials, store, outcome);
    }

    /** `setError`, which the hook hands to its caller. */
    method SetError(e: Option<string>)
      modifies this
      ensures error == e && loading == old(loading)
    {
      error := e;
    }
  }

  /** A failed attempt of either kind ends in a thrown error whose message is
      the server's message when it sent a non-empty one, and otherwise the
      fallback of the dispatched operation. */
  lemma FailureIsThrownWithServerMessage(formType: string, server: Option<string>, e: string)
    ensures var c := Completed(StoreReply(formType, Err(server, e)));
      && c.Threw?
      && (server.Some? && server.value != "" ==> c.message == server.value)
      && (server.None? || server == Some("") ==>
            c.message == (if formType == "login" then "Login failed" else "Registration failed"))
  {
  }
}
