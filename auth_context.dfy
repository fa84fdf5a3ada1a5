/**
 * The client's session state (`AuthContext.jsx`): the token kept in React
 * state and mirrored, with the profile, in the browser's local storage.
 */
module AuthContext {
  import opened Wrappers

  /** The browser's `localStorage`, as a map from keys to stored text. */
  type Storage = map<string, string>

  /** The keys the session writes and removes. */
  const SessionKeys: set<string> := {"token", "name", "email"}

  /** `localStorage.getItem("token") || null`: a missing or empty stored token gives no token. */
  function InitialToken(st: Storage): (r: Option<string>)
    ensures r.Some? <==> "token" in st && st["token"] != ""
    ensures r.Some? ==> r.value == st["token"]
  {
    if "token" in st && st["token"] != "" then Some(st["token"]) else None
  }

  /** `isAuthenticated: !!token`. */
  predicate Authenticated(token: Option<string>) {
    token.Some? && token.value != ""
  }

  /** The three `setItem` calls of `login`: the session keys take the new values, every other key is kept. */
  function StoreSession(st: Storage, token: string, name: string, email: string): (r: Storage)
    ensures r.Keys == st.Keys + SessionKeys
    ensures r["token"] == token && r["name"] == name && r["email"] == email
    ensures forall k :: k in st && k !in SessionKeys ==> r[k] == st[k]
  {
    st["token" := token]["name" := name]["email" := email]
  }

  /** The three `removeItem` calls of `logout`: exactly the session keys go, every other key is kept. */
  function ClearSession(st: Storage): (r: Storage)
    ensures r.Keys == st.Keys - SessionKeys
    ensures forall k :: k in r ==> r[k] == st[k]
  {
    st - SessionKeys
  }

  /** Logging in and then out leaves the storage as logging out alone would: no session key, the rest intact. */
  lemma LoginThenLogout(st: Storage, token: string, name: string, email: string)
    ensures ClearSession(StoreSession(st, token, name, email)) == ClearSession(st)
    ensures SessionKeys !! ClearSession(StoreSession(st, token, name, email)).Keys
  {
  }

  /** A page reload after login restores the session; after logout it finds none. */
  lemma ReloadRestoresSession(st: Storage, token: string, name: string, email: string)
    ensures Authenticated(InitialToken(StoreSession(st, token, name, email))) <==> token != ""
    ensures !Authenticated(InitialToken(ClearSession(st)))
  {
  }

  /**
   * A fresh page is signed in exactly when a non-empty token is stored: the
   * `|| null` of the initial state and the `!!` of `isAuthenticated` both
   * treat the empty string as no token.
   */
  lemma SignedInIffTokenStored(st: Storage)
    ensures Authenticated(InitialToken(st)) <==> "token" in st && st["token"] != ""
    ensures !Authenticated(None) && !Authenticated(Some(""))
  {
  }

  /** The `AuthProvider` component's state. */
  class Provider {
    var storage: Storage
    var token: Option<string>

    /** The in-memory session and a reload of the stored one agree on whether the user is signed in. */
    ghost predicate AgreesWithStorage()
      reads this
    {
      Authenticated(token) == Authenticated(InitialToken(storage))
    }

    constructor (stored: Storage)
      ensures storage == stored && token == InitialToken(stored)
      ensures AgreesWithStorage()
    {
      storage := stored;
      token := InitialToken(stored);
    }

    /** The `isAuthenticated` the context provides, for the current token. */
    predicate IsAuthenticated()
      reads this
    {
      Authenticated(token)
    }

    /** `login(newToken, user)` with the user's name and email. */
    method Login(newToken: string, name: string, email: string)
      modifies this
      ensures storage == StoreSession(old(storage), newToken, name, email)
      ensures token == Some(newToken)
      ensures IsAuthenticated() <==> newToken != ""
      ensures AgreesWithStorage()
    {
      storage := StoreSession(storage, newToken, name, email);
      token := Some(newToken);
    }

    /** `logout()`. */
    method Logout()
      modifies this
      ensures storage == ClearSession(old(storage))
      ensures token == None && !IsAuthenticated()
      ensures AgreesWithStorage()
    {
      storage := ClearSession(storage);
      token := None;
    }
  }
}
