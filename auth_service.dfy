/** The frontend's session (services/auth.service.ts): the token and user
    signals, their copy in `localStorage`, and the computed views of them.
    `localStorage` is a map from keys to strings. The effect that writes the
    signals back to storage runs after every change of them; each method
    here ends with its run, so the state it leaves is the settled one. HTTP
    calls are split into the request and an `...Arrived` method for the
    response the `tap` sees. */
module AuthSession {
  import opened Wrappers
  import opened Text
  import opened FrontendModels
  import opened Tokens

  /** `JSON.stringify` and `JSON.parse` for users; parsing may throw. */
  datatype UserJson = UserJson(stringify: User -> string, parse: string -> Option<User>)

  const TokenKey: string := "token"
  const UserKey: string := "user"

  /** `localStorage.getItem(key)` read as a truthy string. */
  predicate HasItem(storage: map<string, string>, key: string) {
    key in storage && storage[key] != ""
  }

  /** A signal value that JavaScript counts as true: present and not "". */
  predicate Truthy(token: Option<string>) {
    token.Some? && token.value != ""
  }

  /** `isTokenValid`: the second dot-separated part decodes to a payload
      whose `exp` lies strictly after the current second. A token with one
      part hands `undefined` to `atob`, which throws; every failure is
      `false`, and so is a payload without `exp`. */
  function IsTokenValid(token: string, now: int, c: TokenCodec): (b: bool)
    ensures b <==>
              && |Split(token, '.')| >= 2
              && c.atob(Split(token, '.')[1]).Some?
              && c.parse(c.atob(Split(token, '.')[1]).value).Some?
              && c.parse(c.atob(Split(token, '.')[1]).value).value.exp.Some?
              && c.parse(c.atob(Split(token, '.')[1]).value).value.exp.value > Seconds(now)
  {
    var parts := Split(token, '.');
    if |parts| < 2 then false
    else
      match c.atob(parts[1])
      case None => false
      case Some(json) =>
        match c.parse(json)
        case None => false
        case Some(payload) => payload.exp.Some? && payload.exp.value > Seconds(now)
  }

  /** What the effect leaves in storage: both items written when token and
      user are set, the storage untouched otherwise. */
  function Persisted(storage: map<string, string>, token: Option<string>, user: Option<User>, j: UserJson):
    (s: map<string, string>)
    ensures Truthy(token) && user.Some? ==>
              s.Keys == storage.Keys + {TokenKey, UserKey} &&
              s[TokenKey] == token.value && s[UserKey] == j.stringify(user.value)
    ensures Truthy(token) && user.Some? ==> forall k :: k in storage && k != TokenKey && k != UserKey ==> s[k] == storage[k]
    ensures !(Truthy(token) && user.Some?) ==> s == storage
  {
    if Truthy(token) && user.Some? then storage[TokenKey := token.value][UserKey := j.stringify(user.value)]
    else storage
  }

  /** `clearStorage`. */
  function Cleared(storage: map<string, string>): (s: map<string, string>)
    ensures s.Keys == storage.Keys - {TokenKey, UserKey}
    ensures forall k :: k in s ==> s[k] == storage[k]
  {
    storage - {TokenKey, UserKey}
  }

  class AuthService {
    var token: Option<string>
    var currentUser: Option<User>
    var storage: map<string, string>

    /** Starts signed out, restores the stored session if it is still valid,
        then the effect runs once. */
    constructor(stored: map<string, string>, now: int, c: TokenCodec, j: UserJson)
      ensures HasItem(stored, TokenKey) && HasItem(stored, UserKey) &&
              j.parse(stored[UserKey]).Some? && IsTokenValid(stored[TokenKey], now, c) ==>
                && token == Some(stored[TokenKey]) && currentUser == j.parse(stored[UserKey])
                && storage == Persisted(stored, token, currentUser, j)
      ensures HasItem(stored, TokenKey) && HasItem(stored, UserKey) &&
              !(j.parse(stored[UserKey]).Some? && IsTokenValid(stored[TokenKey], now, c)) ==>
                token.None? && currentUser.None? && storage == Cleared(stored)
      ensures !(HasItem(stored, TokenKey) && HasItem(stored, UserKey)) ==>
                token.None? && currentUser.None? && storage == stored
    {
      token := None;
      currentUser := None;
      storage := stored;
      new;
      LoadFromStorage(now, c, j);
      RunEffect(j);
    }

    /** `!!token`. */
    function IsAuthenticated(): (b: bool)
      reads this
      ensures b <==> token.Some? && token.value != ""
    {
      Truthy(token)
    }

    /** `currentUser?.username ?? ''`. */
    function UserName(): (n: string)
      reads this
      ensures currentUser.None? ==> n == ""
      ensures currentUser.Some? ==> n == currentUser.value.username
    {
      if currentUser.Some? then currentUser.value.username else ""
    }

    /** `currentUser?.tenant ?? null`. */
    function UserTenant(): (t: Option<Tenant>)
      reads this
      ensures currentUser.None? ==> t.None?
      ensures currentUser.Some? ==> t == currentUser.value.tenant
    {
      if currentUser.Some? then currentUser.value.tenant else None
    }

    /** `currentUser?.tenant?.name ?? 'No Organization'`. */
    function TenantName(): (n: string)
      reads this
      ensures UserTenant().None? ==> n == "No Organization"
      ensures UserTenant().Some? ==> n == UserTenant().value.name
    {
      if currentUser.Some? && currentUser.value.tenant.Some? then currentUser.value.tenant.value.name
      else "No Organization"
    }

    /** `getToken`: the token signal's current value. */
    function GetToken(): (t: Option<string>)
      reads this
      ensures t == token
    {
      token
    }

    /** The effect on the token and user signals. */
    method RunEffect(j: UserJson)
      modifies this
      ensures token == old(token) && currentUser == old(currentUser)
      ensures storage == Persisted(old(storage), token, currentUser, j)
    {
      if Truthy(token) && currentUser.Some? {
        storage := storage[TokenKey := token.value];
        storage := storage[UserKey := j.stringify(currentUser.value)];
      }
    }

    /** `loadFromStorage`: both items must be there; then the user must parse
        and the token be valid, or both items are removed. */
    method LoadFromStorage(now: int, c: TokenCodec, j: UserJson)
      modifies this
      ensures !(HasItem(old(storage), TokenKey) && HasItem(old(storage), UserKey)) ==>
                token == old(token) && currentUser == old(currentUser) && storage == old(storage)
      ensures HasItem(old(storage), TokenKey) && HasItem(old(storage), UserKey) ==>
                var t, u := old(storage)[TokenKey], j.parse(old(storage)[UserKey]);
                if u.Some? && IsTokenValid(t, now, c) then
                  token == Some(t) && currentUser == u && storage == old(storage)
                else
                  token == old(token) && currentUser == old(currentUser) && storage == Cleared(old(storage))
    {
      if HasItem(storage, TokenKey) && HasItem(storage, UserKey) {
        var t := storage[TokenKey];
        var user := j.parse(storage[UserKey]);
        if user.None? {
          storage := Cleared(storage);
        } else if IsTokenValid(t, now, c) {
          token := Some(t);
          currentUser := user;
        } else {
          storage := Cleared(storage);
        }
      }
    }

    /** The `tap` of `login` and of `register`: the response's token and user
        become the session, and the effect stores them. */
    method AuthResponseArrived(response: AuthResponse, j: UserJson)
      modifies this
      ensures token == Some(response.token) && currentUser == Some(response.user)
      ensures storage == Persisted(old(storage), token, currentUser, j)
      ensures response.token != "" ==>
                && IsAuthenticated() && UserName() == response.user.username
                && storage[TokenKey] == response.token && storage[UserKey] == j.stringify(response.user)
    {
      token := Some(response.token);
      currentUser := Some(response.user);
      RunEffect(j);
    }

    /** The `tap` of `refreshProfile`: a new user, stored at once; the token
        stays. */
    method ProfileArrived(user: User, j: UserJson)
      modifies this
      ensures token == old(token) && currentUser == Some(user)
      ensures storage == Persisted(old(storage)[UserKey := j.stringify(user)], token, currentUser, j)
      ensures storage[UserKey] == j.stringify(user)
      ensures IsAuthenticated() == old(IsAuthenticated())
    {
      currentUser := Some(user);
      storage := storage[UserKey := j.stringify(user)];
      RunEffect(j);
    }

    /** `logout` without the navigation: signed out, nothing stored. */
    method Logout(j: UserJson)
      modifies this
      ensures token.None? && currentUser.None? && storage == Cleared(old(storage))
      ensures TokenKey !in storage && UserKey !in storage
      ensures !IsAuthenticated() && UserName() == "" && UserTenant().None? && TenantName() == "No Organization"
    {
      token := None;
      currentUser := None;
      storage := Cleared(storage);
      RunEffect(j);
    }
  }

  // ---------------------------------------------------------------------
  // Properties

  /** The computed views: "" and "No Organization" stand in for a missing
      user, and the tenant's name for a missing tenant as well. */
  lemma ComputedDefaults(svc: AuthService)
    ensures svc.IsAuthenticated() <==> svc.token.Some? && svc.token.value != ""
    ensures svc.currentUser.None? ==> svc.UserName() == "" && svc.UserTenant().None?
    ensures svc.currentUser.Some? ==> svc.UserName() == svc.currentUser.value.username
    ensures svc.UserTenant().None? ==> svc.TenantName() == "No Organization"
    ensures svc.UserTenant().Some? ==> svc.TenantName() == svc.UserTenant().value.name
  {
  }

  /** A token the mock backend issued is valid up to the second before it
      expires. */
  lemma GeneratedTokenValid(userId: int, username: string, tenantId: int, issued: int, now: int, c: TokenCodec)
    requires WellBehaved(c)
    requires GenerateMockToken(userId, username, tenantId, issued, c).Some?
    ensures IsTokenValid(GenerateMockToken(userId, username, tenantId, issued, c).value, now, c)
            <==> Seconds(now) < Seconds(issued) + TokenLifetime
  {
    GeneratedTokenParts(userId, username, tenantId, issued, c);
  }

  /** In the second a token expires, the mock backend still accepts it while
      the session already counts it invalid. */
  lemma ExpirySecondDisagrees(userId: int, username: string, tenantId: int, issued: int, now: int, c: TokenCodec)
    requires WellBehaved(c)
    requires GenerateMockToken(userId, username, tenantId, issued, c).Some?
    requires Seconds(now) == Seconds(issued) + TokenLifetime
    ensures var t := GenerateMockToken(userId, username, tenantId, issued, c).value;
            DecodeToken(t, now, c).Some? && !IsTokenValid(t, now, c)
  {
    GeneratedTokenDecodes(userId, username, tenantId, issued, now, c);
    GeneratedTokenValid(userId, username, tenantId, issued, now, c);
  }

  /** A stored session that was written by the effect is restored as it was,
      as long as its token is still valid. */
  lemma StoredSessionRestores(storage: map<string, string>, token: string, user: User, now: int,
                              c: TokenCodec, j: UserJson)
    requires token != "" && j.stringify(user) != "" && j.parse(j.stringify(user)) == Some(user)
    ensures var s := Persisted(storage, Some(token), Some(user), j);
            && HasItem(s, TokenKey) && HasItem(s, UserKey)
            && s[TokenKey] == token && j.parse(s[UserKey]) == Some(user)
  {
  }
}
