/** The older three-key session store (apps/web/src/services/auth.ts): a
    token, a user and the pending OAuth state. It has no method key and no
    direct token connection. */
module LegacyAuth {
  import opened Wrappers
  import opened AuthTypes

  /** The keys `clearAuth` removes; the method key is not among them. */
  const AuthKeys: set<Key> := {TokenKey, UserKey, StateKey}

  /** The snapshot `getAuthState()` returns. */
  datatype AuthState = AuthState(isAuthenticated: bool, token: Option<GitHubAuthToken>, user: Option<GitHubUser>)

  datatype Outcome = Outcome(ok: bool, store: Store)

  /** `clearAuth()`: the store without the three session keys. */
  function ClearAuth(store: Store): (r: Store)
    ensures forall k :: k in r <==> k in store && k !in AuthKeys
    ensures forall k :: k in r ==> r[k] == store[k]
  {
    store - AuthKeys
  }

  function AfterTokenRead(store: Store, now: int): Store {
    StoreAfterTokenRead(store, now, AuthKeys)
  }

  /** `getAuthState()`: token first (an expired one clears the session),
      then the user from what is left. */
  function AuthStateOf(store: Store, now: int): AuthState {
    var token := ReadToken(store, now);
    var user := StoredUser(AfterTokenRead(store, now));
    AuthState(token.Some? && user.Some?, token, user)
  }

  /** The token a successful code exchange is saved as: no `authMethod`. */
  function ExchangedToken(data: ExchangeData): GitHubAuthToken {
    GitHubAuthToken(data.accessToken, data.tokenType, data.scope, None, None)
  }

  predicate StateMatches(store: Store, state: string) {
    var saved := StoredText(store, StateKey);
    saved.Some? && saved.value != "" && saved.value == state
  }

  /** `initiateGitHubAuth()` on the store, for a configured client id. */
  function AfterInitiate(store: Store, state: string): Store {
    store[StateKey := Text(state)]
  }

  /** `handleOAuthCallback(code, state)` given the exchange endpoint's answer
      and the profile fetched with the new token. */
  function Callback(store: Store, state: string, exchange: Fetch<ExchangeData>, profile: Option<GitHubUser>): Outcome {
    if !StateMatches(store, state) then Outcome(false, store)
    else
      var cleared := store - {StateKey};
      if !exchange.Ok? then Outcome(false, cleared)
      else
        var withToken := cleared[TokenKey := TokenJson(ExchangedToken(exchange.body))];
        if profile.Some? then Outcome(true, withToken[UserKey := UserJson(profile.value)])
        else Outcome(false, withToken)
  }

  // ---------------------------------------------------------------------
  // Properties of the three-key session store
  // ---------------------------------------------------------------------

  /** Authenticated exactly when an unexpired token and a user are stored. */
  lemma AuthenticatedIff(store: Store, now: int)
    ensures AuthStateOf(store, now).isAuthenticated
        <==> StoredToken(store).Some? && !IsExpired(StoredToken(store).value, now) && StoredUser(store).Some?
  {
  }

  /** An expired token clears the three keys and reads as null. */
  lemma ExpiredTokenClearsSession(store: Store, now: int)
    requires StoredToken(store).Some? && IsExpired(StoredToken(store).value, now)
    ensures ReadToken(store, now) == None
    ensures AfterTokenRead(store, now) == ClearAuth(store)
    ensures AuthStateOf(store, now) == AuthState(false, None, None)
  {
  }

  /** Starting the flow stores the fresh state and nothing else. */
  lemma InitiateRecordsState(store: Store, state: string)
    ensures StoredText(AfterInitiate(store, state), StateKey) == Some(state)
    ensures forall k :: k != StateKey ==> (k in AfterInitiate(store, state) <==> k in store)
    ensures forall k :: k != StateKey && k in store ==> AfterInitiate(store, state)[k] == store[k]
  {
  }

  /** A missing, empty or mismatched callback state fails and leaves the
      store unchanged. */
  lemma ForgedCallbackRejected(store: Store, state: string, exchange: Fetch<ExchangeData>, profile: Option<GitHubUser>)
    requires !StateMatches(store, state)
    ensures Callback(store, state, exchange, profile) == Outcome(false, store)
  {
  }

  /** The callback succeeds exactly when the state matches, the exchange
      answers 2xx and a user arrives. The token is saved, without a method,
      before the user is fetched, so a failed user fetch leaves it behind. */
  lemma CallbackOutcome(store: Store, state: string, exchange: Fetch<ExchangeData>, profile: Option<GitHubUser>, now: int)
    ensures Callback(store, state, exchange, profile).ok
        <==> StateMatches(store, state) && exchange.Ok? && profile.Some?
    ensures StateMatches(store, state) && !exchange.Ok? ==>
      Callback(store, state, exchange, profile) == Outcome(false, store - {StateKey})
    ensures StateMatches(store, state) && exchange.Ok? ==>
      StoredToken(Callback(store, state, exchange, profile).store) == Some(ExchangedToken(exchange.body))
      && StoredToken(Callback(store, state, exchange, profile).store).value.authMethod == None
    ensures var out := Callback(store, state, exchange, profile);
      out.ok ==> AuthStateOf(out.store, now) == AuthState(true, Some(ExchangedToken(exchange.body)), profile)
  {
  }

  /** Logging out removes exactly the three keys, is idempotent, and leaves
      a method key written by the four-key service in place. */
  lemma LogoutClearsSession(store: Store, now: int)
    ensures ClearAuth(ClearAuth(store)) == ClearAuth(store)
    ensures forall k :: k !in AuthKeys ==> (k in ClearAuth(store) <==> k in store)
    ensures MethodKey in store ==> MethodKey in ClearAuth(store)
    ensures AuthStateOf(ClearAuth(store), now) == AuthState(false, None, None)
  {
  }

  // ---------------------------------------------------------------------
  // The service
  // ---------------------------------------------------------------------

  /** `AuthService`, over the same storage abstraction as the four-key
      service. */
  class AuthService {
    var store: Store
    const clientId: string
    const redirectUri: string

    constructor (clientId: string, redirectUri: string, initial: Store)
      ensures this.clientId == clientId && this.redirectUri == redirectUri && store == initial
    {
      this.clientId := clientId;
      this.redirectUri := redirectUri;
      store := initial;
    }

    method GetToken(now: int) returns (token: Option<GitHubAuthToken>)
      modifies this
      ensures token == ReadToken(old(store), now)
      ensures store == AfterTokenRead(old(store), now)
    {
      var stored := StoredToken(store);
      if stored.None? {
        return None;
      }
      if IsExpired(stored.value, now) {
        ClearAuthKeys();
        return None;
      }
      token := stored;
    }

    method GetUser() returns (user: Option<GitHubUser>)
      ensures user == StoredUser(store)
    {
      user := StoredUser(store);
    }

    method GetAuthState(now: int) returns (state: AuthState)
      modifies this
      ensures state == AuthStateOf(old(store), now)
      ensures store == AfterTokenRead(old(store), now)
      ensures state.isAuthenticated
          <==> ReadToken(old(store), now).Some? && StoredUser(old(store)).Some?
    {
      var token := GetToken(now);
      var user := GetUser();
      state := AuthState(token.Some? && user.Some?, token, user);
    }

    method IsAuthenticated(now: int) returns (b: bool)
      modifies this
      ensures b <==> ReadToken(old(store), now).Some? && StoredUser(old(store)).Some?
      ensures store == AfterTokenRead(old(store), now)
    {
      var state := GetAuthState(now);
      b := state.isAuthenticated;
    }

    method SaveToken(token: GitHubAuthToken)
      modifies this
      ensures store == old(store)[TokenKey := TokenJson(token)]
    {
      store := store[TokenKey := TokenJson(token)];
    }

    method SaveUser(user: GitHubUser)
      modifies this
      ensures store == old(store)[UserKey := UserJson(user)]
    {
      store := store[UserKey := UserJson(user)];
    }

    /** Starts the OAuth flow with the freshly generated, non-empty `state`. */
    method InitiateGitHubAuth(state: string) returns (redirect: Option<AuthorizeRequest>)
      requires state != ""
      modifies this
      ensures clientId == "" ==> redirect == None && store == old(store)
      ensures clientId != "" ==> store == AfterInitiate(old(store), state)
      ensures clientId != "" ==> redirect == Some(AuthorizeRequest(clientId, redirectUri, OAuthScope, state))
    {
      if clientId == "" {
        return None;
      }
      store := store[StateKey := Text(state)];
      redirect := Some(AuthorizeRequest(clientId, redirectUri, OAuthScope, state));
    }

    method HandleOAuthCallback(code: string, state: string, exchange: Fetch<ExchangeData>, profile: Option<GitHubUser>)
      returns (ok: bool)
      modifies this
      ensures Outcome(ok, store) == Callback(old(store), state, exchange, profile)
    {
      var saved := StoredText(store, StateKey);
      if saved.None? || saved.value == "" || saved.value != state {
        return false;
      }
      store := store - {StateKey};
      if !exchange.Ok? {
        return false;
      }
      SaveToken(ExchangedToken(exchange.body));
      if profile.Some? {
        SaveUser(profile.value);
        return true;
      }
      return false;
    }

    /** `fetchUserRepos(accessToken?)`: without a usable token the answer is
        empty and `reply` is never asked for. */
    method FetchUserRepos(accessToken: Option<string>, now: int, reply: Fetch<seq<Repo>>) returns (repos: seq<Repo>)
      modifies this
      ensures accessToken.Some? && accessToken.value != "" ==> store == old(store)
      ensures !(accessToken.Some? && accessToken.value != "") ==> store == AfterTokenRead(old(store), now)
      ensures !(accessToken.Some? && accessToken.value != "") && UsableAccessToken(ReadToken(old(store), now)).None?
        ==> repos == []
      ensures (accessToken.Some? && accessToken.value != "") || UsableAccessToken(ReadToken(old(store), now)).Some?
        ==> repos == if reply.Ok? then reply.body else []
    {
      var token: Option<string>;
      if accessToken.Some? && accessToken.value != "" {
        token := accessToken;
      } else {
        var stored := GetToken(now);
        token := UsableAccessToken(stored);
      }
      if token.None? {
        return [];
      }
      repos := if reply.Ok? then reply.body else [];
    }

    method ValidateRepoAccess(repoFullName: string, now: int, replyOk: bool) returns (b: bool)
      modifies this
      ensures store == AfterTokenRead(old(store), now)
      ensures b <==> UsableAccessToken(ReadToken(old(store), now)).Some? && replyOk
    {
      var token := GetToken(now);
      if UsableAccessToken(token).None? {
        return false;
      }
      b := replyOk;
    }

    method Logout()
      modifies this
      ensures store == ClearAuth(old(store))
    {
      ClearAuthKeys();
    }

    /** `clearAuth()`: three `removeItem` calls. */
    method ClearAuthKeys()
      modifies this
      ensures store == ClearAuth(old(store))
    {
      store := store - {TokenKey};
      store := store - {UserKey};
      store := store - {StateKey};
    }
  }
}
