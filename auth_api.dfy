/**
 * src/lib/api/auth.ts: the role-specific endpoint paths and the client-side
 * session store (`storeSession` / `clearSession`) kept under three
 * `localStorage` keys.
 */
module AuthApi {
  import opened Wrappers
  import opened Storage

  /** The three backend routers: `"user" | "doctor" | "admin"`. */
  datatype Account = UserAccount | DoctorAccount | AdminAccount

  function AccountName(a: Account): string {
    match a
    case UserAccount => "user"
    case DoctorAccount => "doctor"
    case AdminAccount => "admin"
  }

  /** `userSignIn`, `doctorSignIn`, `adminSignIn` post to `/<router>/signin`. */
  function SignInPath(a: Account): (path: string)
    ensures path == "/" + AccountName(a) + "/signin"
  {
    match a
    case UserAccount => "/user/signin"
    case DoctorAccount => "/doctor/signin"
    case AdminAccount => "/admin/signin"
  }

  /** `refreshAccessToken(role)` posts to `/<role>/refresh-token`. */
  function RefreshTokenPath(a: Account): string {
    "/" + AccountName(a) + "/refresh-token"
  }

  /** `logout(role)` posts to `/<role>/logout`. */
  function LogoutPath(a: Account): string {
    "/" + AccountName(a) + "/logout"
  }

  /** Each router gets its own sign-in, refresh and logout endpoint. */
  lemma EndpointsDistinct(a: Account, b: Account)
    requires a != b
    ensures SignInPath(a) != SignInPath(b)
    ensures RefreshTokenPath(a) != RefreshTokenPath(b)
    ensures LogoutPath(a) != LogoutPath(b)
  {
    assert RefreshTokenPath(a)[1] != RefreshTokenPath(b)[1];
    assert LogoutPath(a)[1] != LogoutPath(b)[1];
  }

  /** The user object the backend returns; every field may be missing. */
  datatype Profile = Profile(
    id: Option<string>,
    name: Option<string>,
    username: Option<string>,
    email: Option<string>,
    phone: Option<string>,
    role: Option<string>,
    permissions: Option<seq<string>>,
    department: Option<string>)

  /**
   * The body of a sign-in reply: `{success, accessToken, refreshToken, user, message}`.
   * Nothing is validated at the network boundary, so every field but the flag may be absent.
   */
  datatype Envelope = Envelope(
    success: bool,
    accessToken: Option<string>,
    refreshToken: Option<string>,
    user: Option<Profile>,
    message: Option<string>)

  const AccessTokenKey: string := "accessToken"
  const RefreshTokenKey: string := "refreshToken"
  const UserKey: string := "user"
  const SessionKeys: set<string> := {AccessTokenKey, RefreshTokenKey, UserKey}

  /** What `localStorage.setItem` stores for a possibly-undefined string: `undefined` becomes `"undefined"`. */
  function StoredText(s: Option<string>): string {
    s.GetOr("undefined")
  }

  /**
   * The store after `storeSession(res)`: the three session keys hold the
   * access token, the refresh token and the serialised user; no other key changes.
   * `serialize` stands for `JSON.stringify`.
   */
  function Stored(items: map<string, string>, res: Envelope, serialize: Option<Profile> -> string): (r: map<string, string>)
    ensures r.Keys == items.Keys + SessionKeys
    ensures r[AccessTokenKey] == StoredText(res.accessToken)
    ensures r[RefreshTokenKey] == StoredText(res.refreshToken)
    ensures r[UserKey] == serialize(res.user)
    ensures forall k :: k in items && k !in SessionKeys ==> r[k] == items[k]
  {
    items[AccessTokenKey := StoredText(res.accessToken)]
         [RefreshTokenKey := StoredText(res.refreshToken)]
         [UserKey := serialize(res.user)]
  }

  /** The store after `clearSession()`: the three session keys are gone; every other entry stays. */
  function Cleared(items: map<string, string>): (r: map<string, string>)
    ensures r.Keys == items.Keys - SessionKeys
    ensures AccessTokenKey !in r && RefreshTokenKey !in r && UserKey !in r
    ensures forall k :: k in r ==> r[k] == items[k]
  {
    items - SessionKeys
  }

  /** Round trip: right after storing a reply with a token, reading `accessToken` gives that token. */
  lemma StoreThenRead(items: map<string, string>, res: Envelope, serialize: Option<Profile> -> string)
    requires res.accessToken.Some?
    ensures AccessTokenKey in Stored(items, res, serialize)
    ensures Stored(items, res, serialize)[AccessTokenKey] == res.accessToken.value
  {
  }

  /** A second `storeSession` overwrites every trace of the first. */
  lemma StoreOverwrites(items: map<string, string>, first: Envelope, second: Envelope, serialize: Option<Profile> -> string)
    ensures Stored(Stored(items, first, serialize), second, serialize) == Stored(items, second, serialize)
  {
  }

  /** Clearing twice is clearing once. */
  lemma ClearIdempotent(items: map<string, string>)
    ensures Cleared(Cleared(items)) == Cleared(items)
  {
  }

  /** Clearing undoes a store completely, whatever the session keys held before. */
  lemma ClearUndoesStore(items: map<string, string>, res: Envelope, serialize: Option<Profile> -> string)
    ensures Cleared(Stored(items, res, serialize)) == Cleared(items)
  {
  }

  /** `storeSession(res)`: three `setItem` calls. */
  method StoreSession(storage: LocalStorage, res: Envelope, serialize: Option<Profile> -> string)
    modifies storage
    ensures storage.items == Stored(old(storage.items), res, serialize)
  {
    storage.SetItem(AccessTokenKey, StoredText(res.accessToken));
    storage.SetItem(RefreshTokenKey, StoredText(res.refreshToken));
    storage.SetItem(UserKey, serialize(res.user));
  }

  /** `clearSession()`: three `removeItem` calls. */
  method ClearSession(storage: LocalStorage)
    modifies storage
    ensures storage.items == Cleared(old(storage.items))
  {
    storage.RemoveItem(AccessTokenKey);
    storage.RemoveItem(RefreshTokenKey);
    storage.RemoveItem(UserKey);
  }
}
