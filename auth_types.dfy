/** What the two session stores (apps/web/src/services/auth/github.ts and
    apps/web/src/services/auth.ts) keep in local storage, and the answers of
    the network calls they make, which the model receives as parameters. */
module AuthTypes {
  import opened Wrappers

  /** How a token was obtained. */
  datatype AuthMethod = OAuth | PersonalToken

  function AuthMethodName(m: AuthMethod): string {
    match m
    case OAuth => "oauth"
    case PersonalToken => "token"
  }

  /** A GitHub credential. `expiresAt` is the expiry instant in milliseconds
      since the epoch; `authMethod` is absent in tokens saved by the
      three-key service. */
  datatype GitHubAuthToken = GitHubAuthToken(
    accessToken: string,
    tokenType: string,
    scope: string,
    expiresAt: Option<int>,
    authMethod: Option<AuthMethod>)

  /** The profile GitHub returns for a token. */
  datatype GitHubUser = GitHubUser(
    login: string,
    id: int,
    avatarUrl: string,
    name: Option<string>,
    email: Option<string>,
    htmlUrl: string)

  /** The local-storage keys the session stores use; `OtherKey` stands for
      every key that belongs to someone else, and is meant only with a name
      that is not one of the four session key names (`ForeignKey`). */
  datatype Key = TokenKey | UserKey | StateKey | MethodKey | OtherKey(name: string)

  function KeyName(k: Key): string {
    match k
    case TokenKey => "apdevflow_github_token"
    case UserKey => "apdevflow_github_user"
    case StateKey => "apdevflow_oauth_state"
    case MethodKey => "apdevflow_github_auth_method"
    case OtherKey(name) => name
  }

  /** A stored value: plain text, or the JSON serialisation of a token or a
      user. Text under the token or user key is what fails to parse (or is
      empty), so it reads as no token or no user. */
  datatype Value = Text(text: string) | TokenJson(token: GitHubAuthToken) | UserJson(user: GitHubUser)

  type Store = map<Key, Value>

  /** The token under the token key, before any expiry check. */
  function StoredToken(store: Store): Option<GitHubAuthToken> {
    if TokenKey in store && store[TokenKey].TokenJson? then Some(store[TokenKey].token) else None
  }

  /** `getUser()`: the user under the user key, or null. */
  function StoredUser(store: Store): Option<GitHubUser> {
    if UserKey in store && store[UserKey].UserJson? then Some(store[UserKey].user) else None
  }

  /** `localStorage.getItem(key)` for the text-valued keys. */
  function StoredText(store: Store, key: Key): Option<string> {
    if key in store && store[key].Text? then Some(store[key].text) else None
  }

  /** The expiry test of `getToken()`: an absent `expiresAt`, and the falsy
      instant 0, never expire; otherwise the token has expired once its
      instant lies strictly before `now`. */
  predicate IsExpired(token: GitHubAuthToken, now: int) {
    token.expiresAt.Some? && token.expiresAt.value != 0 && token.expiresAt.value < now
  }

  /** What `getToken()` returns: the stored token unless it has expired. */
  function ReadToken(store: Store, now: int): (r: Option<GitHubAuthToken>)
    ensures r.Some? <==> StoredToken(store).Some? && !IsExpired(StoredToken(store).value, now)
    ensures r.Some? ==> r == StoredToken(store)
  {
    match StoredToken(store)
    case Some(t) => if IsExpired(t, now) then None else Some(t)
    case None => None
  }

  /** What `getToken()` leaves in storage: an expired token makes it remove
      `authKeys`; otherwise nothing changes. */
  function StoreAfterTokenRead(store: Store, now: int, authKeys: set<Key>): (r: Store)
    ensures StoredToken(store).Some? && IsExpired(StoredToken(store).value, now) ==> r == store - authKeys
    ensures !(StoredToken(store).Some? && IsExpired(StoredToken(store).value, now)) ==> r == store
  {
    match StoredToken(store)
    case Some(t) => if IsExpired(t, now) then store - authKeys else store
    case None => store
  }

  /** The access token a network helper would send: `getToken()?.accessToken`,
      where an empty string is as good as none. */
  function UsableAccessToken(token: Option<GitHubAuthToken>): Option<string> {
    if token.Some? && token.value.accessToken != "" then Some(token.value.accessToken) else None
  }

  /** The answer of a `fetch`: a thrown network error, a non-2xx response, or
      a 2xx response with its decoded body. */
  datatype Fetch<T> = NetworkError | NotOk | Ok(body: T)

  /** The code-exchange endpoint's decoded body. */
  datatype ExchangeData = ExchangeData(accessToken: string, tokenType: string, scope: string)

  /** A repository entry of `GET /user/repos`; its other properties are not
      modelled. */
  datatype Repo = Repo(fullName: string)

  /** An entry of the repository-files endpoint's answer. */
  datatype RepoFile = RepoFile(path: string, kind: string, size: Option<int>, sha: string)

  datatype RepoFiles = RepoFiles(files: seq<RepoFile>, truncated: bool)

  /** The scopes the OAuth authorization request asks for. */
  const OAuthScope: string := "repo read:user user:email"

  /** The query of the GitHub authorization redirect
      (`https://github.com/login/oauth/authorize?...`). */
  datatype AuthorizeRequest = AuthorizeRequest(clientId: string, redirectUri: string, scope: string, state: string)

  /** A key whose name does not collide with a session key's name. */
  predicate ForeignKey(k: Key) {
    k.OtherKey? ==>
      k.name !in {"apdevflow_github_token", "apdevflow_github_user",
                  "apdevflow_oauth_state", "apdevflow_github_auth_method"}
  }

  /** Among well-formed keys, a key name determines the key: two `Key`
      values never stand for the same local-storage entry. */
  lemma KeyNameInjective(k: Key, l: Key)
    requires ForeignKey(k) && ForeignKey(l)
    requires KeyName(k) == KeyName(l)
    ensures k == l
  {
  }

  /** The four key names are distinct. */
  lemma KeyNamesDistinct()
    ensures forall k: Key, l: Key :: k != l && !k.OtherKey? && !l.OtherKey? ==> KeyName(k) != KeyName(l)
  {
  }
}
