/** The authentication router of backend/src/api/auth_routes.py over its
    in-memory user table `USERS_DB`: registration, login, the password
    placeholders and the current-user endpoint. JWT signing and decoding,
    the clock and bcrypt are parameters or left out. */
module AuthRoutes {
  import opened Wrappers
  import opened Text
  import opened Http

  /** One entry of `USERS_DB`. */
  datatype UserRecord = UserRecord(
    id: string,
    email: string,
    firstName: string,
    lastName: string,
    passwordHash: string,
    isActive: bool,
    role: string,
    createdAt: string,
    updatedAt: string)

  /** The `user` object of a register or login reply: the record without
      its hash or active flag. */
  datatype PublicUser = PublicUser(
    id: string,
    email: string,
    firstName: string,
    lastName: string,
    role: string,
    createdAt: string,
    updatedAt: string)

  datatype AuthResponse = AuthResponse(accessToken: string, tokenType: string, user: PublicUser)

  const PlaceholderHash: string := "$2b$12$JvCwu667F.C6FzkdQ4n67OgXN2.bpTQqH.8z8Zz4YyVZ4zZ8Z4YyV"
  const SeedDate: string := "2025-12-15T00:00:00Z"
  const SeedEmail: string := "user@example.com"
  const TokenType: string := "bearer"
  const DefaultRole: string := "reader"

  const RegisterFieldsMessage: string := "Email, password, first name, and last name are required"
  const DuplicateEmailMessage: string := "User with this email already exists"
  const LoginFieldsMessage: string := "Email and password are required"
  const InvalidCredentialsMessage: string := "Invalid credentials"
  const CredentialsMessage: string := "Could not validate credentials"

  /** The one user `USERS_DB` starts with. */
  const SeedUser: UserRecord :=
    UserRecord("1", SeedEmail, "Test", "User", PlaceholderHash, true, "student", SeedDate, SeedDate)

  /** `verify_password`: a placeholder that accepts every password. */
  function VerifyPassword(plainPassword: string, hashedPassword: string): (ok: bool)
    ensures ok
  {
    true
  }

  /** `get_password_hash`: a placeholder that ignores its input. */
  function GetPasswordHash(password: string): (h: string)
    ensures h == PlaceholderHash
  {
    PlaceholderHash
  }

  /** Distinct passwords hash alike, and every password verifies against
      every hash. */
  lemma PasswordPlaceholders(p: string, q: string, h: string)
    ensures GetPasswordHash(p) == GetPasswordHash(q)
    ensures VerifyPassword(p, h) && VerifyPassword(q, GetPasswordHash(p))
  {
  }

  function Public(u: UserRecord): (p: PublicUser)
    ensures p.id == u.id && p.email == u.email && p.role == u.role
  {
    PublicUser(u.id, u.email, u.firstName, u.lastName, u.role, u.createdAt, u.updatedAt)
  }

  /** Present and non-empty: Python's truth test on a string field. */
  predicate Given(field: Option<string>) {
    field.Some? && field.value != ""
  }

  // ---------------------------------------------------------------------
  // The user table and its numbering
  // ---------------------------------------------------------------------

  /** Each email occurs once in `order`. */
  ghost predicate Distinct(order: seq<string>) {
    forall i, j :: 0 <= i < j < |order| ==> order[i] != order[j]
  }

  /** `order` lists exactly the table's keys. */
  ghost predicate SameKeys(users: map<string, UserRecord>, order: seq<string>) {
    forall e :: e in users <==> e in order
  }

  /** The id of the user at position k (from 0): "k+1". */
  function UserId(k: nat): string {
    NatToString(k + 1)
  }

  /** The user at position k is keyed by its own email and has id `idOf(k)`. */
  ghost predicate Positioned(users: map<string, UserRecord>, order: seq<string>, idOf: nat -> string) {
    forall k :: 0 <= k < |order| ==> order[k] in users && users[order[k]].id == idOf(k) && users[order[k]].email == order[k]
  }

  /** The invariant the table keeps: `order` lists the emails in insertion
      order, each once, and numbers them from 1. */
  ghost predicate Numbered(users: map<string, UserRecord>, order: seq<string>) {
    |order| == |users| && Distinct(order) && SameKeys(users, order) && Positioned(users, order, UserId)
  }

  /** The position of a stored email, and the id it gives. */
  lemma NumberedPosition(users: map<string, UserRecord>, order: seq<string>, e: string) returns (i: nat)
    requires SameKeys(users, order) && Positioned(users, order, UserId)
    requires e in users
    ensures i < |order| && order[i] == e && users[e].id == NatToString(i + 1)
  {
    assert e in order;
    i :| 0 <= i < |order| && order[i] == e;
    assert users[e].id == UserId(i);
  }

  /** Ids are pairwise distinct. */
  lemma NumberedIdsDistinct(users: map<string, UserRecord>, order: seq<string>, a: string, b: string)
    requires Numbered(users, order)
    requires a in users && b in users && a != b
    ensures users[a].id != users[b].id
  {
    var i := NumberedPosition(users, order, a);
    var j := NumberedPosition(users, order, b);
    if users[a].id == users[b].id {
      NatToStringInjective(i + 1, j + 1);
    }
  }

  /** Each id is one of "1" .. "n" for a table of n users, so the next id
      "n+1" is not yet taken. */
  lemma NumberedIdsRange(users: map<string, UserRecord>, order: seq<string>, e: string)
    requires Numbered(users, order)
    requires e in users
    ensures exists k :: 1 <= k <= |users| && users[e].id == NatToString(k)
    ensures users[e].id != NatToString(|users| + 1)
  {
    var i := NumberedPosition(users, order, e);
    assert 1 <= i + 1 <= |users|;
    if users[e].id == NatToString(|users| + 1) {
      NatToStringInjective(i + 1, |users| + 1);
    }
  }

  /** Every key is the email of its record. */
  lemma NumberedKeys(users: map<string, UserRecord>, order: seq<string>, e: string)
    requires Numbered(users, order) && e in users
    ensures users[e].email == e
  {
    var i := NumberedPosition(users, order, e);
  }

  lemma DistinctAdd(order: seq<string>, e: string)
    requires Distinct(order) && e !in order
    ensures Distinct(order + [e])
  {
    var order' := order + [e];
    forall i, j | 0 <= i < j < |order'| ensures order'[i] != order'[j] {
      if j == |order| {
        assert order'[i] == order[i];
      } else {
        assert order'[i] == order[i] && order'[j] == order[j];
      }
    }
  }

  lemma SameKeysAdd(users: map<string, UserRecord>, order: seq<string>, u: UserRecord)
    requires SameKeys(users, order)
    ensures SameKeys(users[u.email := u], order + [u.email])
  {
    forall e ensures e in users[u.email := u] <==> e in order + [u.email] {
      assert e in order + [u.email] <==> e in order || e == u.email;
    }
  }

  lemma PositionedAdd(users: map<string, UserRecord>, order: seq<string>, u: UserRecord, idOf: nat -> string)
    requires Positioned(users, order, idOf)
    requires u.email !in order && u.id == idOf(|order|)
    ensures Positioned(users[u.email := u], order + [u.email], idOf)
  {
    var users', order' := users[u.email := u], order + [u.email];
    forall k | 0 <= k < |order'|
      ensures order'[k] in users' && users'[order'[k]].id == idOf(k) && users'[order'[k]].email == order'[k]
    {
      if k < |order| {
        assert order'[k] == order[k] && order[k] != u.email;
      }
    }
  }

  /** Adding a user under a new email with the next id keeps the numbering. */
  lemma NumberedAdd(users: map<string, UserRecord>, order: seq<string>, u: UserRecord)
    requires Numbered(users, order)
    requires u.email !in users && u.id == NatToString(|users| + 1)
    ensures Numbered(users[u.email := u], order + [u.email])
  {
    DistinctAdd(order, u.email);
    SameKeysAdd(users, order, u);
    assert u.id == UserId(|order|);
    PositionedAdd(users, order, u, UserId);
  }

  /** The record `register_user` stores. `createdAt` and `updatedAt` stand
      for the two separate `utcnow()` readings, which need not be equal. */
  function NewUser(email: string, firstName: string, lastName: string, password: string, id: string,
                   createdAt: string, updatedAt: string): (u: UserRecord)
    ensures u.email == email && u.id == id && u.isActive && u.role == DefaultRole
    ensures u.passwordHash == PlaceholderHash && u.createdAt == createdAt && u.updatedAt == updatedAt
  {
    UserRecord(id, email, firstName, lastName, GetPasswordHash(password), true, DefaultRole, createdAt, updatedAt)
  }

  /** The token for a user: `encode` stands for `create_access_token` over
      the claims `sub` (the email) and `user_id`. */
  function AccessToken(encode: (string, string) -> string, u: UserRecord): string {
    encode(u.email, u.id)
  }

  // ---------------------------------------------------------------------
  // Login
  // ---------------------------------------------------------------------

  datatype LoginData = LoginData(email: Option<string>, password: Option<string>)

  /** `login_user` against table `users`: missing fields are a 400; an
      unknown or inactive email a 401; otherwise a bearer token for that
      user. The password plays no part beyond being present. */
  function Login(users: map<string, UserRecord>, credentials: LoginData, encode: (string, string) -> string): (r: Result<AuthResponse, HttpError>)
    ensures !Given(credentials.email) || !Given(credentials.password) ==>
      r == Failure(HttpError(BadRequest, LoginFieldsMessage))
    ensures Given(credentials.email) && Given(credentials.password) ==>
      var email := credentials.email.value;
      (email !in users || !users[email].isActive ==> r == Failure(HttpError(Unauthorized, InvalidCredentialsMessage))) &&
      (email in users && users[email].isActive ==>
        r == Success(AuthResponse(AccessToken(encode, users[email]), TokenType, Public(users[email]))))
  {
    if !Given(credentials.email) || !Given(credentials.password) then
      Failure(HttpError(BadRequest, LoginFieldsMessage))
    else
      var email := credentials.email.value;
      if email !in users || !users[email].isActive then
        Failure(HttpError(Unauthorized, InvalidCredentialsMessage))
      else
        var user := users[email];
        Success(AuthResponse(AccessToken(encode, user), TokenType, Public(user)))
  }

  /** The password is never checked: any non-empty password gives the same
      reply, and an active user always gets in. */
  lemma LoginIgnoresPassword(users: map<string, UserRecord>, email: string, p: string, q: string, encode: (string, string) -> string)
    requires p != "" && q != ""
    ensures Login(users, LoginData(Some(email), Some(p)), encode) == Login(users, LoginData(Some(email), Some(q)), encode)
    ensures email != "" && email in users && users[email].isActive ==>
      Login(users, LoginData(Some(email), Some(p)), encode).Success?
  {
  }

  /** A registered user can log in at once, with any password, and gets
      the same user object that registration returned. */
  lemma LoginAfterRegister(users: map<string, UserRecord>, email: string, firstName: string, lastName: string,
                           password: string, other: string, createdAt: string, updatedAt: string,
                           encode: (string, string) -> string)
    requires email != "" && other != ""
    ensures var u := NewUser(email, firstName, lastName, password, NatToString(|users| + 1), createdAt, updatedAt);
      Login(users[email := u], LoginData(Some(email), Some(other)), encode)
        == Success(AuthResponse(AccessToken(encode, u), TokenType, Public(u)))
  {
  }

  // ---------------------------------------------------------------------
  // The current user
  // ---------------------------------------------------------------------

  /** `s.split(" ")`: the pieces between single spaces. */
  function SplitOnSpace(s: string): (parts: seq<string>)
    ensures |parts| >= 1
    ensures |parts| == 1 <==> ' ' !in s
    ensures forall k :: 0 <= k < |parts| ==> ' ' !in parts[k]
  {
    if s == [] then [""]
    else
      var rest := SplitOnSpace(s[1..]);
      assert s == [s[0]] + s[1..];
      if s[0] == ' ' then [""] + rest
      else
        assert forall k :: 1 <= k < |rest| ==> rest[1..][k - 1] == rest[k];
        [[s[0]] + rest[0]] + rest[1..]
  }

  /** Splitting loses nothing: joining with single spaces gives the input back. */
  lemma {:induction false} SplitOnSpaceJoin(s: string)
    ensures Join(SplitOnSpace(s), " ") == s
  {
    if s != [] {
      var rest := SplitOnSpace(s[1..]);
      SplitOnSpaceJoin(s[1..]);
      assert s == [s[0]] + s[1..];
      if s[0] == ' ' {
        JoinCons("", rest, " ");
      } else {
        JoinExtendHead([s[0]], rest, " ");
      }
    }
  }

  /** The token text `/me` decodes: `token.split(" ")[1]` when the token
      has a space, otherwise the token itself. */
  function BearerPart(token: string): (t: string)
    ensures ' ' !in t
    ensures ' ' !in token ==> t == token
  {
    if ' ' in token then SplitOnSpace(token)[1] else token
  }

  lemma {:induction false} BearerPartOfHeader(t: string)
    requires ' ' !in t
    ensures BearerPart("Bearer " + t) == t
  {
    var s := "Bearer " + t;
    assert s[1..] == "earer " + t;
    assert s[6..] == " " + t;
    assert s[7..] == t;
    var p7 := SplitOnSpace(s[7..]);
    var p6 := SplitOnSpace(s[6..]);
    assert s[6..][1..] == s[7..];
    assert p6 == [""] + p7;
    assert p7 == [t] by {
      assert |p7| == 1;
      SplitOnSpaceJoin(t);
    }
    SplitOnSpaceSkipsWord("Bearer", " " + t);
    assert s == "Bearer" + (" " + t);
  }

  /** A word without spaces at the front of `s` only extends the first piece. */
  lemma {:induction false} SplitOnSpaceSkipsWord(w: string, s: string)
    requires ' ' !in w
    ensures SplitOnSpace(w + s) == [w + SplitOnSpace(s)[0]] + SplitOnSpace(s)[1..]
    decreases |w|
  {
    if w != [] {
      var p := SplitOnSpace(s);
      assert (w + s)[0] == w[0] && (w + s)[1..] == w[1..] + s;
      SplitOnSpaceSkipsWord(w[1..], s);
      var rest := SplitOnSpace(w[1..] + s);
      assert rest[0] == w[1..] + p[0] && rest[1..] == p[1..];
      assert SplitOnSpace(w + s) == [[w[0]] + rest[0]] + rest[1..];
      assert [w[0]] + (w[1..] + p[0]) == w + p[0];
    } else {
      var p := SplitOnSpace(s);
      assert w + s == s && w + p[0] == p[0];
      assert [p[0]] + p[1..] == p;
    }
  }

  /** What `/me` returns: a user dictionary, with `passwordHash` `None`
      where the dictionary has no such key. */
  datatype UserView = UserView(
    id: string,
    email: string,
    firstName: string,
    lastName: string,
    role: string,
    createdAt: string,
    updatedAt: string,
    isActive: bool,
    passwordHash: Option<string>)

  /** The user `/me` returns when no token is given. */
  const SampleUser: UserView :=
    UserView("1", SeedEmail, "Test", "User", "student", SeedDate, SeedDate, true, None)

  /** A record exactly as stored, hash included. */
  function RawView(u: UserRecord): UserView {
    UserView(u.id, u.email, u.firstName, u.lastName, u.role, u.createdAt, u.updatedAt, u.isActive, Some(u.passwordHash))
  }

  /** A record without its hash, as the sample user is. */
  function SafeView(u: UserRecord): (v: UserView)
    ensures v.passwordHash.None? && v.id == u.id && v.email == u.email
  {
    UserView(u.id, u.email, u.firstName, u.lastName, u.role, u.createdAt, u.updatedAt, u.isActive, None)
  }

  /** The user a token names in `users`: `decode` stands for
      `decode_access_token` followed by reading the `sub` claim (`None` when
      the claim is absent, `Failure` when the token is expired or invalid).
      Every failure inside the handler's `try`, its own 401s included, is
      turned into the same 401. */
  function TokenUser(users: map<string, UserRecord>, token: string, decode: string -> Result<Option<string>, string>): (r: Result<UserRecord, HttpError>)
    ensures r.Failure? ==> r.error == HttpError(Unauthorized, CredentialsMessage)
    ensures r.Success? <==>
      decode(BearerPart(token)).Success? && decode(BearerPart(token)).value.Some? &&
      decode(BearerPart(token)).value.value in users
    ensures r.Success? ==> r.value == users[decode(BearerPart(token)).value.value]
  {
    match decode(BearerPart(token))
    case Failure(_) => Failure(HttpError(Unauthorized, CredentialsMessage))
    case Success(sub) =>
      if sub.None? || sub.value !in users then Failure(HttpError(Unauthorized, CredentialsMessage))
      else Success(users[sub.value])
  }

  /** `get_current_user` as written: no token gives the sample user; a
      token naming a stored user returns that record as stored, password
      hash included. */
  function MeAsWritten(users: map<string, UserRecord>, token: Option<string>, decode: string -> Result<Option<string>, string>): (r: Result<UserView, HttpError>)
    ensures !Given(token) ==> r == Success(SampleUser)
    ensures Given(token) ==> r == (match TokenUser(users, token.value, decode)
                                    case Success(u) => Success(RawView(u))
                                    case Failure(e) => Failure(e))
  {
    if !Given(token) then Success(SampleUser)
    else match TokenUser(users, token.value, decode)
      case Success(u) => Success(RawView(u))
      case Failure(e) => Failure(e)
  }

  /** The seed user's own token reveals the stored password hash. */
  lemma MeAsWrittenLeaksHash(token: string, decode: string -> Result<Option<string>, string>)
    requires token != "" && decode(BearerPart(token)) == Success(Some(SeedEmail))
    ensures MeAsWritten(map[SeedEmail := SeedUser], Some(token), decode) == Success(RawView(SeedUser))
    ensures MeAsWritten(map[SeedEmail := SeedUser], Some(token), decode).value.passwordHash == Some(PlaceholderHash)
  {
  }

  /** `get_current_user` as its other replies are shaped: the same cases,
      with the hash left out of the returned user. */
  function Me(users: map<string, UserRecord>, token: Option<string>, decode: string -> Result<Option<string>, string>): (r: Result<UserView, HttpError>)
    ensures !Given(token) ==> r == Success(SampleUser)
    ensures r.Success? ==> r.value.passwordHash.None?
    ensures Given(token) ==> (r.Success? <==> TokenUser(users, token.value, decode).Success?)
    ensures Given(token) && r.Success? ==> r.value == SafeView(TokenUser(users, token.value, decode).value)
    ensures r.Failure? ==> r.error == HttpError(Unauthorized, CredentialsMessage)
  {
    if !Given(token) then Success(SampleUser)
    else match TokenUser(users, token.value, decode)
      case Success(u) => Success(SafeView(u))
      case Failure(e) => Failure(e)
  }

  /** The corrected endpoint agrees with the original on every reply but
      the hash. */
  lemma MeMatchesAsWritten(users: map<string, UserRecord>, token: Option<string>, decode: string -> Result<Option<string>, string>)
    ensures Me(users, token, decode).Success? <==> MeAsWritten(users, token, decode).Success?
    ensures Me(users, token, decode).Success? ==>
      Me(users, token, decode).value == MeAsWritten(users, token, decode).value.(passwordHash := None)
  {
  }

  // ---------------------------------------------------------------------
  // Registration
  // ---------------------------------------------------------------------

  datatype RegisterData = RegisterData(
    email: Option<string>,
    password: Option<string>,
    firstName: Option<string>,
    lastName: Option<string>)

  predicate RegisterFields(d: RegisterData) {
    Given(d.email) && Given(d.password) && Given(d.firstName) && Given(d.lastName)
  }

  /** `USERS_DB` and the two endpoints that use it. */
  class UserStore {
    var users: map<string, UserRecord>
    /** The emails in the order they were added. */
    ghost var order: seq<string>

    ghost predicate Valid()
      reads this
    {
      Numbered(users, order)
    }

    constructor ()
      ensures Valid()
      ensures users == map[SeedEmail := SeedUser]
    {
      users := map[SeedEmail := SeedUser];
      order := [SeedEmail];
    }

    /** `register_user`: 400 for a missing or empty field and 409 for an
        email already present, both leaving the table as it was; otherwise
        one new active reader under the email, with the next id, and a
        bearer token. `createdAt` and `updatedAt` stand for the two
        `utcnow().isoformat()` readings. */
    method Register(userData: RegisterData, createdAt: string, updatedAt: string, encode: (string, string) -> string)
      returns (r: Result<AuthResponse, HttpError>)
      requires Valid()
      modifies this
      ensures Valid()
      ensures !RegisterFields(userData) ==>
        r == Failure(HttpError(BadRequest, RegisterFieldsMessage)) && users == old(users)
      ensures RegisterFields(userData) && userData.email.value in old(users) ==>
        r == Failure(HttpError(Conflict, DuplicateEmailMessage)) && users == old(users)
      ensures RegisterFields(userData) && userData.email.value !in old(users) ==>
        var u := NewUser(userData.email.value, userData.firstName.value, userData.lastName.value,
                         userData.password.value, NatToString(|old(users)| + 1), createdAt, updatedAt);
        users == old(users)[u.email := u] &&
        r == Success(AuthResponse(AccessToken(encode, u), TokenType, Public(u)))
    {
      if !RegisterFields(userData) {
        return Failure(HttpError(BadRequest, RegisterFieldsMessage));
      }
      var email := userData.email.value;
      if email in users {
        return Failure(HttpError(Conflict, DuplicateEmailMessage));
      }
      var passwordHash := GetPasswordHash(userData.password.value);
      var userId := NatToString(|users| + 1);
      var newUser := UserRecord(userId, email, userData.firstName.value, userData.lastName.value,
                                passwordHash, true, DefaultRole, createdAt, updatedAt);
      NumberedAdd(users, order, newUser);
      users := users[email := newUser];
      order := order + [email];
      r := Success(AuthResponse(AccessToken(encode, newUser), TokenType, Public(newUser)));
    }

    /** `login_user` on the current table; it changes nothing. */
    method LoginUser(credentials: LoginData, encode: (string, string) -> string)
      returns (r: Result<AuthResponse, HttpError>)
      ensures r == Login(users, credentials, encode)
    {
      r := Login(users, credentials, encode);
    }
  }
}
