/** The token server's user endpoints (jwt-server/app/users.py): the fixed
    user table, password login that issues a token carrying the user's
    e-mail and tenants, and `/users/me`, which accepts a token only when the
    tenants it names are, as a set, the tenants stored for its user.
    Password hashing, token signing and token decoding are parameters. */
module JwtUsers {
  import opened PyValue

  /** A tenant value: one name or a list of names. */
  datatype TenantValue = One(name: string) | Many(names: seq<string>)

  /** A stored user; `secret` is the password its stored hash was made from. */
  datatype UserInDB = UserInDB(email: string, tenant: TenantValue, secret: string)

  /** The response model of `/users/me`: the user without the hash. */
  datatype User = User(email: string, tenant: TenantValue)

  datatype Token = Token(accessToken: string, tokenType: string)

  const InvalidCredentials := "Invailid credentials"
  const InvalidToken := "Invalid token"
  const MissingClaims := "Token missing identity claims"
  const UserNotFound := "User not found"

  /** `fake_users_db`. */
  const Users: map<string, UserInDB> := map[
    "user2@example.com" := UserInDB("user2@example.com", One("logistics"), "password1234"),
    "user@example.com" := UserInDB("user@example.com", One("customer-service"), "password123"),
    "admin@example.com" := UserInDB("admin@example.com", Many(["logistics", "customer-service"]), "admin123")
  ]

  /** Every stored user is filed under its own e-mail and has at least one tenant. */
  lemma UsersWellFormed()
    ensures forall e :: e in Users ==> Users[e].email == e
    ensures forall e :: e in Users ==> NormalizeTenants(TenantClaim(Users[e].tenant)) != []
  {
    assert NormalizeTenants(TenantClaim(One("logistics"))) == ["logistics"];
    assert NormalizeTenants(TenantClaim(One("customer-service"))) == ["customer-service"];
    var xs := [VStr("logistics"), VStr("customer-service")];
    assert TenantClaim(Many(["logistics", "customer-service"])) == VList(xs);
    assert xs[..1] == [VStr("logistics")];
    assert [VStr("logistics")][..0] == [];
    assert StringItems(xs) == ["logistics", "customer-service"];
  }

  /** `get_user`. */
  function GetUser(email: string): (r: Option<UserInDB>)
    ensures r.Some? <==> email in Users
    ensures r.Some? ==> r.value.email == email
  {
    if email in Users then Some(Users[email]) else None
  }

  /** How a tenant value travels in a token's `tenant` claim. */
  function TenantClaim(t: TenantValue): (v: Value)
    ensures t.One? ==> v == VStr(t.name)
    ensures t.Many? ==> v.VList? && |v.items| == |t.names| && forall i :: 0 <= i < |t.names| ==> v.items[i] == VStr(t.names[i])
  {
    match t
    case One(s) => VStr(s)
    case Many(xs) => VList(seq(|xs|, i requires 0 <= i < |xs| => VStr(xs[i])))
  }

  function StringItems(xs: seq<Value>): seq<string> {
    if xs == [] then []
    else
      var acc := StringItems(xs[..|xs| - 1]);
      if xs[|xs| - 1].VStr? then acc + [xs[|xs| - 1].s] else acc
  }

  /** `_normalize_tenants`: a string is one tenant, a list keeps only its
      strings, anything else has none. */
  function NormalizeTenants(value: Value): (r: seq<string>)
    ensures value.VStr? ==> r == [value.s]
    ensures !value.VStr? && !value.VList? ==> r == []
  {
    match value
    case VStr(s) => [s]
    case VList(xs) => StringItems(xs)
    case _ => []
  }

  /** The strings of a list, in order and only them. */
  lemma {:induction false} StringItemsExact(xs: seq<Value>)
    ensures |StringItems(xs)| <= |xs|
    ensures forall t :: t in StringItems(xs) <==> VStr(t) in xs
    ensures (forall i :: 0 <= i < |xs| ==> xs[i].VStr?) ==>
      |StringItems(xs)| == |xs| && forall i :: 0 <= i < |xs| ==> StringItems(xs)[i] == xs[i].s
  {
    if xs != [] {
      var n := |xs| - 1;
      StringItemsExact(xs[..n]);
      assert xs == xs[..n] + [xs[n]];
      forall t
        ensures t in StringItems(xs) <==> VStr(t) in xs
      {
        assert VStr(t) in xs <==> VStr(t) in xs[..n] || VStr(t) == xs[n];
      }
    }
  }

  function SetOf(xs: seq<string>): set<string> {
    set x | x in xs
  }

  lemma SetOfEmpty(xs: seq<string>)
    ensures SetOf(xs) == {} <==> xs == []
  {
    if xs != [] {
      assert xs[0] in SetOf(xs);
    }
  }

  /** `login`: 401 for an unknown user or a wrong password; otherwise a
      bearer token issued for the user's e-mail and stored tenant value.
      `verify` checks a password against a stored user and `issue` signs the claims. */
  function Login(username: string, password: string, verify: (string, UserInDB) -> bool,
                 issue: (string, Value) -> string): Response<Token>
  {
    var user := GetUser(username);
    if user.None? || !verify(password, user.value) then HttpError(401, InvalidCredentials)
    else Reply(Token(issue(user.value.email, TenantClaim(user.value.tenant)), "bearer"))
  }

  /** With a faithful password check, login succeeds exactly for a known
      user and its password, and the token is issued for that user. */
  lemma LoginOutcomes(username: string, password: string, verify: (string, UserInDB) -> bool,
                      issue: (string, Value) -> string)
    requires forall p, u :: verify(p, u) <==> p == u.secret
    ensures Login(username, password, verify, issue).Reply? <==> username in Users && Users[username].secret == password
    ensures Login(username, password, verify, issue).HttpError? ==> Login(username, password, verify, issue) == HttpError(401, InvalidCredentials)
    ensures Login(username, password, verify, issue).Reply? ==>
      Login(username, password, verify, issue).body == Token(issue(username, TenantClaim(Users[username].tenant)), "bearer")
  {
  }

  /** `read_users_me`, given what decoding the token gives (`None` for a bad
      signature or an expired token). */
  function ReadUsersMe(payload: Option<map<string, Value>>): Response<User> {
    if payload.None? || payload.value == map[] then HttpError(401, InvalidToken)
    else
      var email := Get(payload.value, "sub", VNone);
      var claimTenants := NormalizeTenants(Get(payload.value, "tenant", VNone));
      if !Truthy(email) || claimTenants == [] then HttpError(400, MissingClaims)
      // a list or dict is not a valid dictionary key
      else if email.VList? || email.VDict? then Crash
      else
        var user := if email.VStr? then GetUser(email.s) else None;
        var userTenants := if user.Some? then NormalizeTenants(TenantClaim(user.value.tenant)) else [];
        if user.None? || userTenants == [] || SetOf(userTenants) != SetOf(claimTenants) then HttpError(404, UserNotFound)
        else Reply(User(user.value.email, user.value.tenant))
  }

  /** `/users/me` answers with a user exactly when the token names a stored
      user by e-mail and the same tenants as a set; the user answered is that one. */
  lemma ReadUsersMeAccepts(payload: Option<map<string, Value>>)
    ensures ReadUsersMe(payload).Reply? <==>
      payload.Some? && Get(payload.value, "sub", VNone).VStr? && Get(payload.value, "sub", VNone).s in Users
      && var claim := NormalizeTenants(Get(payload.value, "tenant", VNone));
      var stored := NormalizeTenants(TenantClaim(Users[Get(payload.value, "sub", VNone).s].tenant));
      claim != [] && stored != [] && SetOf(claim) == SetOf(stored)
    ensures ReadUsersMe(payload).Reply? ==> var u := Users[Get(payload.value, "sub", VNone).s];
      ReadUsersMe(payload).body == User(u.email, u.tenant)
  {
  }

  /** Tenant matching ignores order and repetition: two tokens that differ
      only in tenant claims naming the same set get the same answer. */
  lemma TenantMatchIgnoresOrder(base: map<string, Value>, ta: Value, tb: Value)
    requires SetOf(NormalizeTenants(ta)) == SetOf(NormalizeTenants(tb))
    ensures ReadUsersMe(Some(base["tenant" := ta])) == ReadUsersMe(Some(base["tenant" := tb]))
  {
    SetOfEmpty(NormalizeTenants(ta));
    SetOfEmpty(NormalizeTenants(tb));
  }

  /** For instance `["logistics", "customer-service"]` and
      `["customer-service", "logistics", "logistics"]` name the same tenants. */
  lemma SwappedTenantsMatch()
    ensures SetOf(NormalizeTenants(VList([VStr("logistics"), VStr("customer-service")])))
         == SetOf(NormalizeTenants(VList([VStr("customer-service"), VStr("logistics"), VStr("logistics")])))
  {
    var xa := [VStr("logistics"), VStr("customer-service")];
    var xb := [VStr("customer-service"), VStr("logistics"), VStr("logistics")];
    StringItemsExact(xa);
    StringItemsExact(xb);
    assert forall t :: VStr(t) in xa <==> VStr(t) in xb;
  }

  /** A token issued at login, decoded faithfully, is accepted by
      `/users/me` and gives back the user who logged in. */
  lemma LoginThenReadUsersMe(username: string, password: string, verify: (string, UserInDB) -> bool,
                             issue: (string, Value) -> string, decode: string -> Option<map<string, Value>>)
    requires Login(username, password, verify, issue).Reply?
    requires username in Users ==>
      var claim := TenantClaim(Users[username].tenant);
      var d := decode(issue(username, claim));
      d.Some? && Get(d.value, "sub", VNone) == VStr(username) && Get(d.value, "tenant", VNone) == claim
    ensures var u := Users[username];
      ReadUsersMe(decode(Login(username, password, verify, issue).body.accessToken)) == Reply(User(u.email, u.tenant))
  {
    UsersWellFormed();
    var u := Users[username];
    var payload := decode(issue(username, TenantClaim(u.tenant))).value;
    assert "sub" in payload;
    assert Get(payload, "sub", VNone) == VStr(username);
  }
}
