/** The four-key GitHub session store (apps/web/src/services/auth/github.ts):
    a token, a user, the pending OAuth state and the authentication method,
    each under its own local-storage key. */
module GitHubAuth {
  import opened Wrappers
  import opened AuthTypes

  /** The keys `clearAuth` removes. */
  const AuthKeys: set<Key> := {TokenKey, UserKey, StateKey, MethodKey}

  /** The snapshot `getAuthState()` returns. */
  datatype AuthState = AuthState(
    isAuthenticated: bool,
    authMethod: string,
    token: Option<GitHubAuthToken>,
    user: Option<GitHubUser>)

  /** A result flag together with the store it leaves behind. */
  datatype Outcome = Outcome(ok: bool, store: Store)

  /** `clearAuth()`: the store without the four session keys. */
  function ClearAuth(store: Store): (r: Store)
    ensures forall k :: k in r <==> k in store && k !in AuthKeys
    ensures forall k :: k in r ==> r[k] == store[k]
  {
    store - AuthKeys
  }

  /** The store `getToken()` leaves behind. */
  function AfterTokenRead(store: Store, now: int): Store {
    StoreAfterTokenRead(store, now, AuthKeys)
  }

  /** `getAuthState()`: the token is read first (an expired one clears the
      session), then the user and the method from what is left. */
  function AuthStateOf(store: Store, now: int): AuthState {
    var token := ReadToken(store, now);
    var rest := AfterTokenRead(store, now);
    var user := StoredUser(rest);
    var authMethod := StoredText(rest, MethodKey);
    AuthState(
      token.Some? && user.Some?,
      if authMethod.None? || authMethod.value == "" then "oauth" else authMethod.value,
      token,
      user)
  }

  /** The token a successful code exchange is saved as. */
  function OAuthToken(data: ExchangeData): GitHubAuthToken {
    GitHubAuthToken(data.accessToken, data.tokenType, data.scope, None, Some(OAuth))
  }

  /** The token `connectWithToken` saves for a personal access token. */
  function PersonalAccessToken(token: string): GitHubAuthToken {
    GitHubAuthToken(token, "Bearer", "repo", None, Some(PersonalToken))
  }

  /** The pending state `handleOAuthCallback` accepts: present, non-empty
      and equal to the callback's `state`. */
  predicate StateMatches(store: Store, state: string) {
    var saved := StoredText(store, StateKey);
    saved.Some? && saved.value != "" && saved.value == state
  }

  /** `initiateGitHubAuth()` on the store, for a configured client id. */
  function AfterInitiate(store: Store, state: string): Store {
    (store - {StateKey})[StateKey := Text(state)][MethodKey := Text("oauth")]
  }

  /** `handleOAuthCallback(code, state)` given the exchange endpoint's answer
      and the profile fetched with the new token. */
  function Callback(store: Store, state: string, exchange: Fetch<ExchangeData>, profile: Option<GitHubUser>): Outcome {
    if !StateMatches(store, state) then Outcome(false, store)
    else
      var cleared := store - {StateKey};
      if !exchange.Ok? then Outcome(false, cleared)
      else
        var withToken := cleared[TokenKey := TokenJson(OAuthToken(exchange.body))];
        if profile.Some? then Outcome(true, withToken[UserKey := UserJson(profile.value)])
        else Outcome(false, withToken)
  }

  /** `connectWithToken(token)` given the profile fetched with it and the
      answer of the repository-permission probe. */
  function Connect(store: Store, token: string, profile: Option<GitHubUser>, probeOk: bool): Outcome {
    if profile.None? || !probeOk then Outcome(false, store)
    else
      Outcome(true, store[TokenKey := TokenJson(PersonalAccessToken(token))]
                         [UserKey := UserJson(profile.value)]
                         [MethodKey := Text("token")])
  }

  // ---------------------------------------------------------------------
  // Properties of the session store
  // ---------------------------------------------------------------------

  /** The snapshot is authenticated exactly when an unexpired token and a
      user are stored; the method falls back to "oauth". */
  lemma AuthenticatedIff(store: Store, now: int)
    ensures AuthStateOf(store, now).isAuthenticated
        <==> StoredToken(store).Some? && !IsExpired(StoredToken(store).value, now) && StoredUser(store).Some?
    ensures StoredText(store, MethodKey).None? ==> AuthStateOf(store, now).authMethod == "oauth"
  {
  }

  /** An expired token clears all four keys, reads as null and leaves the
      snapshot unauthenticated with the default method. */
  lemma ExpiredTokenClearsSession(store: Store, now: int)
    requires StoredToken(store).Some? && IsExpired(StoredToken(store).value, now)
    ensures ReadToken(store, now) == None
    ensures AfterTokenRead(store, now) == ClearAuth(store)
    ensures forall k :: k in AuthKeys ==> k !in AfterTokenRead(store, now)
    ensures AuthStateOf(store, now) == AuthState(false, "oauth", None, None)
  {
  }

  /** Reading the snapshot a second time changes nothing more: the first
      read already removed whatever expiry removes. */
  lemma TokenReadSettles(store: Store, now: int)
    ensures AfterTokenRead(AfterTokenRead(store, now), now) == AfterTokenRead(store, now)
    ensures AuthStateOf(AfterTokenRead(store, now), now) == AuthStateOf(store, now)
  {
  }

  /** Starting the flow records the fresh state and the "oauth" method and
      touches no other key. */
  lemma InitiateRecordsState(store: Store, state: string)
    ensures StoredText(AfterInitiate(store, state), StateKey) == Some(state)
    ensures StoredText(AfterInitiate(store, state), MethodKey) == Some("oauth")
    ensures forall k :: k != StateKey && k != MethodKey ==>
      (k in AfterInitiate(store, state) <==> k in store)
    ensures forall k :: k != StateKey && k != MethodKey && k in store ==> AfterInitiate(store, state)[k] == store[k]
  {
  }

  /** Anti-forgery: a callback whose state is missing from storage, empty or
      different fails and changes nothing, whatever the network would say. */
  lemma ForgedCallbackRejected(store: Store, state: string, exchange: Fetch<ExchangeData>, profile: Option<GitHubUser>)
    requires !StateMatches(store, state)
    ensures Callback(store, state, exchange, profile) == Outcome(false, store)
  {
  }

  /** A callback with a state that no `initiateGitHubAuth` stored fails and
      leaves the snapshot exactly as it was. */
  lemma NeverIssuedStateFails(store: Store, state: string, exchange: Fetch<ExchangeData>, profile: Option<GitHubUser>, now: int)
    requires StateKey !in store
    ensures !Callback(store, state, exchange, profile).ok
    ensures AuthStateOf(Callback(store, state, exchange, profile).store, now) == AuthStateOf(store, now)
  {
  }

  /** The callback succeeds exactly when the state matches, the exchange
      answers 2xx and the profile arrives; the pending state is then gone,
      and the snapshot is authenticated with the fetched user and the new
      token. */
  lemma CallbackSuccess(store: Store, state: string, exchange: Fetch<ExchangeData>, profile: Option<GitHubUser>, now: int)
    ensures Callback(store, state, exchange, profile).ok
        <==> StateMatches(store, state) && exchange.Ok? && profile.Some?
    ensures var out := Callback(store, state, exchange, profile);
      out.ok ==> (&& StateKey !in out.store
                  && AuthStateOf(out.store, now).isAuthenticated
                  && AuthStateOf(out.store, now).token == Some(OAuthToken(exchange.body))
                  && AuthStateOf(out.store, now).user == profile)
  {
  }

  /** The source saves the token before fetching the user: when the user
      fetch fails the new token stays stored, the pending state is gone, and
      the stored user is whatever was there before. With no earlier user the
      snapshot stays unauthenticated; with one, the failed callback leaves
      the new token paired with that earlier user. */
  lemma CallbackUserFailureKeepsToken(store: Store, state: string, data: ExchangeData, now: int)
    requires StateMatches(store, state)
    ensures var out := Callback(store, state, Ok(data), None);
      && !out.ok
      && StoredToken(out.store) == Some(OAuthToken(data))
      && StateKey !in out.store
      && StoredUser(out.store) == StoredUser(store)
      && (StoredUser(store).None? ==> !AuthStateOf(out.store, now).isAuthenticated)
      && (StoredUser(store).Some? ==>
            AuthStateOf(out.store, now).isAuthenticated && AuthStateOf(out.store, now).user == StoredUser(store))
  {
  }

  /** A failed exchange stores no token: only the pending state is gone. */
  lemma CallbackExchangeFailure(store: Store, state: string, exchange: Fetch<ExchangeData>, profile: Option<GitHubUser>)
    requires StateMatches(store, state) && !exchange.Ok?
    ensures Callback(store, state, exchange, profile) == Outcome(false, store - {StateKey})
  {
  }

  /** Connecting with a token either stores nothing and fails, or stores the
      Bearer token with scope "repo", the user and the "token" method, after
      which the snapshot is authenticated by token. */
  lemma ConnectOutcome(store: Store, token: string, profile: Option<GitHubUser>, probeOk: bool, now: int)
    ensures var out := Connect(store, token, profile, probeOk);
      out.ok <==> profile.Some? && probeOk
    ensures var out := Connect(store, token, profile, probeOk);
      !out.ok ==> out.store == store
    ensures var out := Connect(store, token, profile, probeOk);
      out.ok ==> AuthStateOf(out.store, now) == AuthState(true, "token", Some(PersonalAccessToken(token)), profile)
  {
  }

  /** Logging out removes exactly the four session keys; doing it twice is
      doing it once, and what is left reads as unauthenticated — also after a
      reload, which reads the same storage. */
  lemma LogoutClearsSession(store: Store, now: int)
    ensures ClearAuth(ClearAuth(store)) == ClearAuth(store)
    ensures forall k :: k !in AuthKeys ==> (k in ClearAuth(store) <==> k in store)
    ensures !AuthStateOf(ClearAuth(store), now).isAuthenticated
    ensures AuthStateOf(ClearAuth(store), now) == AuthState(false, "oauth", None, None)
  {
  }

  /** The whole OAuth round trip: starting the flow and coming back with the
      issued state, a successful exchange and a profile authenticates the
      session by OAuth. */
  lemma OAuthRoundTrip(store: Store, state: string, data: ExchangeData, user: GitHubUser, now: int)
    requires state != ""
    ensures var out := Callback(AfterInitiate(store, state), state, Ok(data), Some(user));
      out.ok && AuthStateOf(out.store, now) == AuthState(true, "oauth", Some(OAuthToken(data)), Some(user))
  {
  }

  // ---------------------------------------------------------------------
  // The service
  // ---------------------------------------------------------------------

  /** `GitHubAuthService`. `store` stands for local storage; `clientId` and
      `redirectUri` for the build-time settings (an empty client id means
      "not configured"). The clock, the state generator and every network
      answer are parameters. */
  class GitHubAuthService {
    var store: Store
    const clientId: string
    const redirectUri: string

    constructor (clientId: string, redirectUri: string, initial: Store)
      ensures this.clientId == clientId && this.redirectUri == redirectUri && store == initial
    {
      this.clientId := clientId;
      this.redirectUri := redirectUri;
      store := initial;
    }

    method GetToken(now: int) returns (token: Option<GitHubAuthToken>)
      modifies this
      ensures token == ReadToken(old(store), now)
      ensures store == AfterTokenRead(old(store), now)
    {
      var stored := StoredToken(store);
      if stored.None? {
        return None;
      }
      if IsExpired(stored.value, now) {
        ClearAuthKeys();
        return None;
      }
      token := stored;
    }

    method GetUser() returns (user: Option<GitHubUser>)
      ensures user == StoredUser(store)
    {
      user := StoredUser(store);
    }

    method GetAuthMethod() returns (authMethod: Option<string>)
      ensures authMethod == StoredText(store, MethodKey)
    {
      authMethod := StoredText(store, MethodKey);
    }

    method GetAuthState(now: int) returns (state: AuthState)
      modifies this
      ensures state == AuthStateOf(old(store), now)
      ensures store == AfterTokenRead(old(store), now)
      ensures state.isAuthenticated
          <==> ReadToken(old(store), now).Some? && StoredUser(old(store)).Some?
    {
      var token := GetToken(now);
      var user := GetUser();
      var authMethod := GetAuthMethod();
      var name := if authMethod.None? || authMethod.value == "" then "oauth" else authMethod.value;
      state := AuthState(token.Some? && user.Some?, name, token, user);
    }

    method IsAuthenticated(now: int) returns (b: bool)
      modifies this
      ensures b <==> ReadToken(old(store), now).Some? && StoredUser(old(store)).Some?
      ensures store == AfterTokenRead(old(store), now)
    {
      var state := GetAuthState(now);
      b := state.isAuthenticated;
    }

    method SaveAuthMethod(m: AuthMethod)
      modifies this
      ensures store == old(store)[MethodKey := Text(AuthMethodName(m))]
    {
      store := store[MethodKey := Text(AuthMethodName(m))];
    }

    method SaveToken(token: GitHubAuthToken)
      modifies this
      ensures store == old(store)[TokenKey := TokenJson(token)]
    {
      store := store[TokenKey := TokenJson(token)];
    }

    method SaveUser(user: GitHubUser)
      modifies this
      ensures store == old(store)[UserKey := UserJson(user)]
    {
      store := store[UserKey := UserJson(user)];
    }

    /** Starts the OAuth flow with the freshly generated `state` (never
        empty) and returns the authorization redirect, or nothing when no
        client id is configured. */
    method InitiateGitHubAuth(state: string) returns (redirect: Option<AuthorizeRequest>)
      requires state != ""
      modifies this
      ensures clientId == "" ==> redirect == None && store == old(store)
      ensures clientId != "" ==> store == AfterInitiate(old(store), state)
      ensures clientId != "" ==> redirect == Some(AuthorizeRequest(clientId, redirectUri, OAuthScope, state))
    {
      if clientId == "" {
        return None;
      }
      store := store - {StateKey};
      store := store[StateKey := Text(state)];
      SaveAuthMethod(OAuth);
      redirect := Some(AuthorizeRequest(clientId, redirectUri, OAuthScope, state));
    }

    /** Completes the flow. `exchange` is the answer of the code-exchange
        endpoint for `code`; `profile` is what `fetchGitHubUser` returns for
        the new access token. */
    method HandleOAuthCallback(code: string, state: string, exchange: Fetch<ExchangeData>, profile: Option<GitHubUser>)
      returns (ok: bool)
      modifies this
      ensures Outcome(ok, store) == Callback(old(store), state, exchange, profile)
    {
      var saved := StoredText(store, StateKey);
      if saved.None? || saved.value == "" || saved.value != state {
        return false;
      }
      store := store - {StateKey};
      if !exchange.Ok? {
        return false;
      }
      SaveToken(OAuthToken(exchange.body));
      if profile.Some? {
        SaveUser(profile.value);
        return true;
      }
      return false;
    }

    /** `fetchUserRepos(accessToken?)`: an explicit non-empty token is used
        as is; otherwise the stored one, read through `getToken`. Without a
        token the answer is empty and `reply` is never asked for. */
    method FetchUserRepos(accessToken: Option<string>, now: int, reply: Fetch<seq<Repo>>) returns (repos: seq<Repo>)
      modifies this
      ensures accessToken.Some? && accessToken.value != "" ==> store == old(store)
      ensures !(accessToken.Some? && accessToken.value != "") ==> store == AfterTokenRead(old(store), now)
      ensures !(accessToken.Some? && accessToken.value != "") && UsableAccessToken(ReadToken(old(store), now)).None?
        ==> repos == []
      ensures (accessToken.Some? && accessToken.value != "") || UsableAccessToken(ReadToken(old(store), now)).Some?
        ==> repos == if reply.Ok? then reply.body else []
    {
      var token: Option<string>;
      if accessToken.Some? && accessToken.value != "" {
        token := accessToken;
      } else {
        var stored := GetToken(now);
        token := UsableAccessToken(stored);
      }
      if token.None? {
        return [];
      }
      repos := if reply.Ok? then reply.body else [];
    }

    /** `fetchRepoFiles(repoFullName)`: null without a stored token. */
    method FetchRepoFiles(repoFullName: string, now: int, reply: Fetch<RepoFiles>) returns (files: Option<RepoFiles>)
      modifies this
      ensures store == AfterTokenRead(old(store), now)
      ensures UsableAccessToken(ReadToken(old(store), now)).None? ==> files == None
      ensures UsableAccessToken(ReadToken(old(store), now)).Some? ==>
        files == if reply.Ok? then Some(reply.body) else None
    {
      var token := GetToken(now);
      if UsableAccessToken(token).None? {
        return None;
      }
      files := if reply.Ok? then Some(reply.body) else None;
    }

    /** `validateRepoAccess(repoFullName)`: false without a stored token,
        otherwise whether the repository request answered 2xx. */
    method ValidateRepoAccess(repoFullName: string, now: int, replyOk: bool) returns (b: bool)
      modifies this
      ensures store == AfterTokenRead(old(store), now)
      ensures b <==> UsableAccessToken(ReadToken(old(store), now)).Some? && replyOk
    {
      var token := GetToken(now);
      if UsableAccessToken(token).None? {
        return false;
      }
      b := replyOk;
    }

    method Logout()
      modifies this
      ensures store == ClearAuth(old(store))
    {
      ClearAuthKeys();
    }

    /** `clearAuth()`: four `removeItem` calls. */
    method ClearAuthKeys()
      modifies this
      ensures store == ClearAuth(old(store))
    {
      store := store - {TokenKey};
      store := store - {UserKey};
      store := store - {StateKey};
      store := store - {MethodKey};
    }

    /** `connectWithToken(token)`: `profile` is what `fetchGitHubUser` returns
        for `token`, `probeOk` whether the permission probe answered 2xx. */
    method ConnectWithToken(token: string, profile: Option<GitHubUser>, probeOk: bool) returns (ok: bool)
      modifies this
      ensures Outcome(ok, store) == Connect(old(store), token, profile, probeOk)
    {
      if profile.None? {
        return false;
      }
      if !probeOk {
        return false;
      }
      SaveToken(PersonalAccessToken(token));
      SaveUser(profile.value);
      SaveAuthMethod(PersonalToken);
      return true;
    }
  }
}
