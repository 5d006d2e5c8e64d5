/** The frontend's mock backend (mock/in-memory-data.service.ts): a fixed
    table of three tenants, a table of users that registration appends to,
    and the handlers for login, register, the tenant list and the profile.
    Handlers answer with a status and a body; a handler whose `btoa` throws
    answers `Failed`. */
module InMemoryData {
  import opened Wrappers
  import opened Text
  import opened FrontendModels
  import opened Tokens

  /** `LoginRequest` and `RegisterRequest`, which have the same members. */
  datatype Credentials = Credentials(username: string, password: string, tenantId: int)

  /** A row of `users`: a `User` that always carries its `password`. */
  datatype StoredUser = StoredUser(id: int, tenantId: int, tenant: Tenant, username: string,
                                   password: string, createdAt: string, updatedAt: string)

  datatype Body =
    | ErrorBody(error: string)
    | AuthBody(token: string, user: User)
    | TenantBody(tenant: Tenant)
    | TenantsBody(tenants: seq<Tenant>)
    | UserBody(user: User)

  datatype Response = Response(status: int, body: Body) | Failed

  const OK: int := 200
  const CREATED: int := 201
  const BAD_REQUEST: int := 400
  const UNAUTHORIZED: int := 401
  const NOT_FOUND: int := 404
  const CONFLICT: int := 409

  function SeedTenants(): seq<Tenant> {
    [Tenant(1, "nats-hospital-001", "City General Hospital", Some("2024-01-01T00:00:00Z"), Some("2024-01-01T00:00:00Z")),
     Tenant(2, "nats-clinic-002", "HealthFirst Clinic", Some("2024-01-05T10:30:00Z"), Some("2024-01-05T10:30:00Z")),
     Tenant(3, "nats-research-003", "BioMed Research Lab", Some("2024-01-10T14:45:00Z"), Some("2024-01-10T14:45:00Z"))]
  }

  /** `initializeUsers`; each user carries a copy of its tenant. */
  function SeedUsers(): seq<StoredUser> {
    var t := SeedTenants();
    [StoredUser(1, 1, t[0], "dr.smith", "password123", "2024-01-15T10:30:00Z", "2024-01-15T10:30:00Z"),
     StoredUser(2, 1, t[0], "nurse.jones", "password123", "2024-01-16T08:00:00Z", "2024-01-16T08:00:00Z"),
     StoredUser(3, 1, t[0], "admin", "admin123", "2024-01-01T00:00:00Z", "2024-01-01T00:00:00Z"),
     StoredUser(4, 2, t[1], "dr.wilson", "password123", "2024-02-20T14:45:00Z", "2024-02-20T14:45:00Z"),
     StoredUser(5, 2, t[1], "admin", "admin123", "2024-02-01T00:00:00Z", "2024-02-01T00:00:00Z"),
     StoredUser(6, 3, t[2], "researcher.lee", "password123", "2024-03-01T08:00:00Z", "2024-03-01T08:00:00Z"),
     StoredUser(7, 3, t[2], "admin", "admin123", "2024-02-10T00:00:00Z", "2024-02-10T00:00:00Z")]
  }

  // ---------------------------------------------------------------------
  // Lookups (`Array.prototype.find`: the first match)

  function FindTenant(tenants: seq<Tenant>, id: int): (r: Option<Tenant>)
    ensures r.Some? <==> exists i :: 0 <= i < |tenants| && tenants[i].id == id
    ensures r.Some? ==> r.value in tenants && r.value.id == id
  {
    if tenants == [] then None
    else if tenants[0].id == id then Some(tenants[0])
    else FindTenant(tenants[1..], id)
  }

  predicate Matches(u: StoredUser, username: string, tenantId: int) {
    u.username == username && u.tenantId == tenantId
  }

  function FindUser(users: seq<StoredUser>, username: string, tenantId: int): (r: Option<StoredUser>)
    ensures r.Some? <==> exists i :: 0 <= i < |users| && Matches(users[i], username, tenantId)
    ensures r.Some? ==> r.value in users && Matches(r.value, username, tenantId)
  {
    if users == [] then None
    else if Matches(users[0], username, tenantId) then Some(users[0])
    else FindUser(users[1..], username, tenantId)
  }

  function FindUserById(users: seq<StoredUser>, id: int): (r: Option<StoredUser>)
    ensures r.Some? <==> exists i :: 0 <= i < |users| && users[i].id == id
    ensures r.Some? ==> r.value in users && r.value.id == id
  {
    if users == [] then None
    else if users[0].id == id then Some(users[0])
    else FindUserById(users[1..], id)
  }

  /** `find` answers with the first tenant that has the id. */
  lemma {:induction false} FindTenantIsFirst(tenants: seq<Tenant>, id: int)
    ensures FindTenant(tenants, id).Some? ==>
              exists i :: 0 <= i < |tenants| && tenants[i] == FindTenant(tenants, id).value &&
                          forall j :: 0 <= j < i ==> tenants[j].id != id
  {
    if tenants != [] && tenants[0].id != id {
      FindTenantIsFirst(tenants[1..], id);
      if FindTenant(tenants, id).Some? {
        var k :| 0 <= k < |tenants[1..]| && tenants[1..][k] == FindTenant(tenants, id).value &&
                 forall j :: 0 <= j < k ==> tenants[1..][j].id != id;
        assert tenants[k + 1] == tenants[1..][k];
        forall j | 0 <= j < k + 1 ensures tenants[j].id != id {
          if j > 0 { assert tenants[j] == tenants[1..][j - 1]; }
        }
        assert tenants[k + 1] == FindTenant(tenants, id).value;
      }
    } else if tenants != [] {
      assert tenants[0] == FindTenant(tenants, id).value;
    }
  }

  /** `find` answers with the first user with that username in that tenant. */
  lemma {:induction false} FindUserIsFirst(users: seq<StoredUser>, username: string, tenantId: int)
    ensures FindUser(users, username, tenantId).Some? ==>
              exists i :: 0 <= i < |users| && users[i] == FindUser(users, username, tenantId).value &&
                          forall j :: 0 <= j < i ==> !Matches(users[j], username, tenantId)
  {
    if users != [] && !Matches(users[0], username, tenantId) {
      FindUserIsFirst(users[1..], username, tenantId);
      if FindUser(users, username, tenantId).Some? {
        var k :| 0 <= k < |users[1..]| && users[1..][k] == FindUser(users, username, tenantId).value &&
                 forall j :: 0 <= j < k ==> !Matches(users[1..][j], username, tenantId);
        assert users[k + 1] == users[1..][k];
        forall j | 0 <= j < k + 1 ensures !Matches(users[j], username, tenantId) {
          if j > 0 { assert users[j] == users[1..][j - 1]; }
        }
        assert users[k + 1] == FindUser(users, username, tenantId).value;
      }
    } else if users != [] {
      assert users[0] == FindUser(users, username, tenantId).value;
    }
  }

  /** `find` answers with the first user that has the id. */
  lemma {:induction false} FindUserByIdIsFirst(users: seq<StoredUser>, id: int)
    ensures FindUserById(users, id).Some? ==>
              exists i :: 0 <= i < |users| && users[i] == FindUserById(users, id).value &&
                          forall j :: 0 <= j < i ==> users[j].id != id
  {
    if users != [] && users[0].id != id {
      FindUserByIdIsFirst(users[1..], id);
      if FindUserById(users, id).Some? {
        var k :| 0 <= k < |users[1..]| && users[1..][k] == FindUserById(users, id).value &&
                 forall j :: 0 <= j < k ==> users[1..][j].id != id;
        assert users[k + 1] == users[1..][k];
        forall j | 0 <= j < k + 1 ensures users[j].id != id {
          if j > 0 { assert users[j] == users[1..][j - 1]; }
        }
        assert users[k + 1] == FindUserById(users, id).value;
      }
    } else if users != [] {
      assert users[0] == FindUserById(users, id).value;
    }
  }

  /** `Math.max(...ids, 0)`. */
  function MaxId(users: seq<StoredUser>): (m: int)
    ensures m >= 0 && forall i :: 0 <= i < |users| ==> users[i].id <= m
    ensures m == 0 || exists i :: 0 <= i < |users| && users[i].id == m
  {
    if users == [] then 0
    else
      var rest := MaxId(users[1..]);
      assert forall i :: 1 <= i < |users| ==> users[i] == users[1..][i - 1];
      if users[0].id > rest then users[0].id else rest
  }

  /** No two users share an id, and no two share a username within a tenant. */
  ghost predicate UniqueUsers(users: seq<StoredUser>) {
    && (forall i, j :: 0 <= i < j < |users| ==> users[i].id != users[j].id)
    && (forall i, j :: 0 <= i < j < |users| ==>
          !(users[i].username == users[j].username && users[i].tenantId == users[j].tenantId))
  }

  /** `sanitizeUser` removes a property named `Password`; stored users carry a
      lowercase `password`, so the user goes out with its password. */
  function SanitizeUser(u: StoredUser): (r: User)
    ensures r.password == Some(u.password)
    ensures r.id == u.id && r.tenantId == u.tenantId && r.tenant == Some(u.tenant) && r.username == u.username
    ensures r.createdAt == u.createdAt && r.updatedAt == u.updatedAt
  {
    User(u.id, u.tenantId, Some(u.tenant), u.username, Some(u.password), u.createdAt, u.updatedAt)
  }

  function TokenFor(u: StoredUser, now: int, c: TokenCodec): Option<string> {
    GenerateMockToken(u.id, u.username, u.tenantId, now, c)
  }

  /** `extractTokenPayload` once the header is found: null unless it starts
      with "Bearer ", otherwise the rest of it decoded. */
  function ExtractTokenPayload(authHeader: Option<string>, now: int, c: TokenCodec): (r: Option<TokenPayload>)
    ensures (authHeader.None? || !StartsWith(authHeader.value, "Bearer ")) ==> r.None?
    ensures authHeader.Some? && StartsWith(authHeader.value, "Bearer ") ==>
              r == DecodeToken(authHeader.value[7..], now, c)
  {
    if authHeader.None? || !StartsWith(authHeader.value, "Bearer ") then None
    else DecodeToken(authHeader.value[7..], now, c)
  }

  class InMemoryDataService {
    const tenants: seq<Tenant>
    var users: seq<StoredUser>

    constructor()
      ensures tenants == SeedTenants() && users == SeedUsers()
    {
      tenants := SeedTenants();
      users := SeedUsers();
    }

    /** `generateNextUserId`. */
    function NextUserId(): (id: int)
      reads this
      ensures id >= 1 && forall i :: 0 <= i < |users| ==> users[i].id < id
    {
      MaxId(users) + 1
    }

    /** `handleLogin`: the tenant first, then the first user of that name in
        that tenant and its password. */
    function HandleLogin(body: Credentials, now: int, c: TokenCodec): (r: Response)
      reads this
      ensures FindTenant(tenants, body.tenantId).None? <==> r == Response(BAD_REQUEST, ErrorBody("Invalid tenant"))
      ensures FindTenant(tenants, body.tenantId).Some? &&
              (FindUser(users, body.username, body.tenantId).None? ||
               FindUser(users, body.username, body.tenantId).value.password != body.password) ==>
                r == Response(UNAUTHORIZED, ErrorBody("Invalid credentials"))
      ensures r.Response? && r.status == OK ==>
                var u := FindUser(users, body.username, body.tenantId);
                && u.Some? && u.value.password == body.password && TokenFor(u.value, now, c).Some?
                && r.body == AuthBody(TokenFor(u.value, now, c).value, SanitizeUser(u.value))
    {
      if FindTenant(tenants, body.tenantId).None? then Response(BAD_REQUEST, ErrorBody("Invalid tenant"))
      else
        var user := FindUser(users, body.username, body.tenantId);
        if user.None? || user.value.password != body.password then
          Response(UNAUTHORIZED, ErrorBody("Invalid credentials"))
        else
          match TokenFor(user.value, now, c)
          case None => Failed
          case Some(token) => Response(OK, AuthBody(token, SanitizeUser(user.value)))
    }

    /** `handleRegister`: the tenant first, then the (username, tenant)
        clash, then one new user at the end with the next id; `nowIso` is
        `new Date().toISOString()`. The user is added before the token is
        made, so it stays even when `btoa` throws. */
    method HandleRegister(body: Credentials, now: int, nowIso: string, c: TokenCodec) returns (r: Response)
      modifies this
      ensures FindTenant(tenants, body.tenantId).None? ==>
                r == Response(BAD_REQUEST, ErrorBody("Invalid tenant")) && users == old(users)
      ensures FindTenant(tenants, body.tenantId).Some? && FindUser(old(users), body.username, body.tenantId).Some? ==>
                r == Response(CONFLICT, ErrorBody("Username already exists in this tenant")) && users == old(users)
      ensures FindTenant(tenants, body.tenantId).Some? && FindUser(old(users), body.username, body.tenantId).None? ==>
                var added := StoredUser(MaxId(old(users)) + 1, body.tenantId, FindTenant(tenants, body.tenantId).value,
                                        body.username, body.password, nowIso, nowIso);
                && users == old(users) + [added]
                && r == match TokenFor(added, now, c)
                        case None => Failed
                        case Some(token) => Response(CREATED, AuthBody(token, SanitizeUser(added)))
      ensures UniqueUsers(old(users)) ==> UniqueUsers(users)
      ensures r.Response? && r.status == CREATED ==>
                HandleLogin(Credentials(body.username, body.password, body.tenantId), now, c)
                == Response(OK, r.body)
    {
      var tenant := FindTenant(tenants, body.tenantId);
      if tenant.None? {
        return Response(BAD_REQUEST, ErrorBody("Invalid tenant"));
      }
      var existing := FindUser(users, body.username, body.tenantId);
      if existing.Some? {
        return Response(CONFLICT, ErrorBody("Username already exists in this tenant"));
      }
      var id := NextUserId();
      assert id == MaxId(old(users)) + 1 && tenant.value == FindTenant(tenants, body.tenantId).value;
      var added := StoredUser(id, body.tenantId, tenant.value, body.username, body.password, nowIso, nowIso);
      ghost var before := users;
      users := users + [added];
      FindUserAfterAppend(before, added, body.username, body.tenantId);
      AppendKeepsUnique(before, added);
      LoginFinds(this, Credentials(body.username, body.password, body.tenantId), added, now, c);
      var token := TokenFor(added, now, c);
      if token.None? {
        return Failed;
      }
      return Response(CREATED, AuthBody(token.value, SanitizeUser(added)));
    }

    /** `handleGetTenants`; the id arrives as a number and 0, like a missing
        id, is falsy and lists every tenant. */
    function HandleGetTenants(id: Option<int>): (r: Response)
      reads this
      ensures (id.None? || id.value == 0) ==> r == Response(OK, TenantsBody(tenants))
      ensures id.Some? && id.value != 0 ==>
                r == match FindTenant(tenants, id.value)
                     case None => Response(NOT_FOUND, ErrorBody("Tenant not found"))
                     case Some(t) => Response(OK, TenantBody(t))
    {
      if id.None? || id.value == 0 then Response(OK, TenantsBody(tenants))
      else
        match FindTenant(tenants, id.value)
        case None => Response(NOT_FOUND, ErrorBody("Tenant not found"))
        case Some(t) => Response(OK, TenantBody(t))
    }

    /** `handleGetProfile`: the user named by the token in the Authorization
        header. */
    function HandleGetProfile(authHeader: Option<string>, now: int, c: TokenCodec): (r: Response)
      reads this
      ensures ExtractTokenPayload(authHeader, now, c).None? <==> r == Response(UNAUTHORIZED, ErrorBody("Invalid token"))
      ensures r.Response?
      ensures ExtractTokenPayload(authHeader, now, c).Some? ==>
                r == match FindUserById(users, ExtractTokenPayload(authHeader, now, c).value.userId)
                     case None => Response(NOT_FOUND, ErrorBody("User not found"))
                     case Some(u) => Response(OK, UserBody(SanitizeUser(u)))
      ensures r.status == OK ==>
                var u := FindUserById(users, ExtractTokenPayload(authHeader, now, c).value.userId);
                u.Some? && r.body == UserBody(SanitizeUser(u.value))
    {
      match ExtractTokenPayload(authHeader, now, c)
      case None => Response(UNAUTHORIZED, ErrorBody("Invalid token"))
      case Some(payload) =>
        match FindUserById(users, payload.userId)
        case None => Response(NOT_FOUND, ErrorBody("User not found"))
        case Some(u) => Response(OK, UserBody(SanitizeUser(u)))
    }
  }

  // ---------------------------------------------------------------------
  // Properties

  /** Login with a user's own name, tenant and password answers with that
      user. */
  lemma LoginFinds(svc: InMemoryDataService, body: Credentials, u: StoredUser, now: int, c: TokenCodec)
    requires FindTenant(svc.tenants, body.tenantId).Some?
    requires FindUser(svc.users, body.username, body.tenantId) == Some(u) && u.password == body.password
    ensures svc.HandleLogin(body, now, c) == match TokenFor(u, now, c)
                                             case None => Failed
                                             case Some(t) => Response(OK, AuthBody(t, SanitizeUser(u)))
  {
  }

  lemma FindUserAfterAppend(users: seq<StoredUser>, added: StoredUser, username: string, tenantId: int)
    requires FindUser(users, username, tenantId).None? && Matches(added, username, tenantId)
    ensures FindUser(users + [added], username, tenantId) == Some(added)
  {
    if users != [] {
      assert (users + [added])[1..] == users[1..] + [added];
      FindUserAfterAppend(users[1..], added, username, tenantId);
    }
  }

  lemma AppendKeepsUnique(users: seq<StoredUser>, added: StoredUser)
    requires forall i :: 0 <= i < |users| ==> users[i].id < added.id
    requires FindUser(users, added.username, added.tenantId).None?
    ensures UniqueUsers(users) ==> UniqueUsers(users + [added])
  {
  }

  /** The seed has unique ids and unique (username, tenant) pairs, with
      "admin" in each of the three tenants. */
  lemma SeedIsUnique()
    ensures UniqueUsers(SeedUsers())
    ensures forall t :: 1 <= t <= 3 ==> FindUser(SeedUsers(), "admin", t).Some?
  {
    var us := SeedUsers();
    SeedIdsDistinct();
    SeedLoginsDistinct();
    assert Matches(us[2], "admin", 1) && Matches(us[4], "admin", 2) && Matches(us[6], "admin", 3);
  }

  lemma SeedIdsDistinct()
    ensures forall i, j :: 0 <= i < j < |SeedUsers()| ==> SeedUsers()[i].id != SeedUsers()[j].id
  {
    var us := SeedUsers();
    assert forall i :: 0 <= i < |us| ==> us[i].id == i + 1;
  }

  lemma SeedLoginsDistinct()
    ensures forall i, j :: 0 <= i < j < |SeedUsers()| ==>
              !(SeedUsers()[i].username == SeedUsers()[j].username && SeedUsers()[i].tenantId == SeedUsers()[j].tenantId)
  {
    var us := SeedUsers();
    assert us[0].username[0] == 'd' && us[1].username[0] == 'n' && us[2].username[0] == 'a';
    assert us[3].username[0] == 'd' && us[4].username[0] == 'a';
    assert us[5].username[0] == 'r' && us[6].username[0] == 'a';
    assert forall i :: 0 <= i < |us| ==> us[i].tenantId == [1, 1, 1, 2, 2, 3, 3][i];
  }

  /** With unique (username, tenant) pairs, login succeeds exactly when the
      tenant exists and some user has that username, tenant and password. */
  lemma LoginSucceedsIff(svc: InMemoryDataService, body: Credentials, now: int, c: TokenCodec)
    requires UniqueUsers(svc.users)
    ensures svc.HandleLogin(body, now, c).Response? && svc.HandleLogin(body, now, c).status == OK
            <==>
            && FindTenant(svc.tenants, body.tenantId).Some?
            && (exists i :: 0 <= i < |svc.users| && Matches(svc.users[i], body.username, body.tenantId)
                            && svc.users[i].password == body.password)
            && TokenFor(FindUser(svc.users, body.username, body.tenantId).value, now, c).Some?
  {
    var found := FindUser(svc.users, body.username, body.tenantId);
    if exists i :: 0 <= i < |svc.users| && Matches(svc.users[i], body.username, body.tenantId)
                   && svc.users[i].password == body.password {
      var i :| 0 <= i < |svc.users| && Matches(svc.users[i], body.username, body.tenantId)
               && svc.users[i].password == body.password;
      FoundIsUnique(svc.users, body.username, body.tenantId, i);
    }
  }

  lemma FoundIsUnique(users: seq<StoredUser>, username: string, tenantId: int, i: int)
    requires UniqueUsers(users)
    requires 0 <= i < |users| && Matches(users[i], username, tenantId)
    ensures FindUser(users, username, tenantId) == Some(users[i])
  {
    if i > 0 {
      assert !Matches(users[0], username, tenantId);
      assert UniqueUsers(users[1..]) by {
        forall a, b | 0 <= a < b < |users[1..]|
          ensures users[1..][a].id != users[1..][b].id
        {
          assert users[1..][a] == users[a + 1] && users[1..][b] == users[b + 1];
        }
      }
      assert users[1..][i - 1] == users[i];
      FoundIsUnique(users[1..], username, tenantId, i - 1);
    }
  }

  lemma FoundByIdIsUnique(users: seq<StoredUser>, i: int)
    requires UniqueUsers(users)
    requires 0 <= i < |users|
    ensures FindUserById(users, users[i].id) == Some(users[i])
  {
    if i > 0 {
      assert users[0].id != users[i].id;
      assert UniqueUsers(users[1..]) by {
        forall a, b | 0 <= a < b < |users[1..]|
          ensures users[1..][a].id != users[1..][b].id
        {
          assert users[1..][a] == users[a + 1] && users[1..][b] == users[b + 1];
        }
      }
      assert users[1..][i - 1] == users[i];
      FoundByIdIsUnique(users[1..], i - 1);
    }
  }

  /** The token a login hands out opens the profile of that same user for a
      day: sending it as "Bearer <token>" returns the logged-in user. */
  lemma ProfileAfterLogin(svc: InMemoryDataService, body: Credentials, issued: int, now: int, c: TokenCodec)
    requires UniqueUsers(svc.users) && WellBehaved(c)
    requires svc.HandleLogin(body, issued, c).Response? && svc.HandleLogin(body, issued, c).status == OK
    requires Seconds(now) <= Seconds(issued) + TokenLifetime
    ensures var login := svc.HandleLogin(body, issued, c);
            svc.HandleGetProfile(Some("Bearer " + login.body.token), now, c) == Response(OK, UserBody(login.body.user))
  {
    var u := FindUser(svc.users, body.username, body.tenantId).value;
    var token := TokenFor(u, issued, c).value;
    var header := "Bearer " + token;
    assert StartsWith(header, "Bearer ") && header[7..] == token;
    GeneratedTokenDecodes(u.id, u.username, u.tenantId, issued, now, c);
    var i :| 0 <= i < |svc.users| && svc.users[i] == u;
    FoundByIdIsUnique(svc.users, i);
  }

  /** A header without the "Bearer " prefix is refused before any decoding. */
  lemma ProfileNeedsBearer(svc: InMemoryDataService, header: string, now: int, c: TokenCodec)
    requires !StartsWith(header, "Bearer ")
    ensures svc.HandleGetProfile(Some(header), now, c) == Response(UNAUTHORIZED, ErrorBody("Invalid token"))
    ensures svc.HandleGetProfile(None, now, c) == Response(UNAUTHORIZED, ErrorBody("Invalid token"))
  {
  }

  /** What a login or a profile request hands out still holds the password. */
  lemma SanitizedUserKeepsPassword(svc: InMemoryDataService, body: Credentials, now: int, c: TokenCodec)
    requires svc.HandleLogin(body, now, c).Response? && svc.HandleLogin(body, now, c).status == OK
    ensures svc.HandleLogin(body, now, c).body.user.password == Some(body.password)
  {
  }
}
