/**
  The user routes: registration, login, and reading and updating the profile.
  Emails are checked with the pattern `^[^\s@]+@[^\s@]+\.[^\s@]+$`; password
  hashing and comparison are parameters.
 */
module UserRoute {
  import opened Common
  import opened UserModel

  /** The characters JavaScript's `\s` matches. */
  predicate IsJsWhitespace(c: char) {
    c == ' ' || c == '\t' || c == '\n' || c == '\r' || c == '\U{000B}' || c == '\U{000C}'
      || c == '\U{00A0}' || c == '\U{1680}' || ('\U{2000}' <= c <= '\U{200A}')
      || c == '\U{2028}' || c == '\U{2029}' || c == '\U{202F}' || c == '\U{205F}'
      || c == '\U{3000}' || c == '\U{FEFF}'
  }

  /** `[^\s@]` */
  predicate PlainChar(c: char) {
    !IsJsWhitespace(c) && c != '@'
  }

  /** `[^\s@]*` */
  predicate Plain(s: string) {
    forall k :: 0 <= k < |s| ==> PlainChar(s[k])
  }

  /** The email pattern: a non-empty plain local part, `@`, a non-empty plain
      name, `.`, and a non-empty plain tail. */
  predicate MatchesEmailPattern(s: string) {
    exists i, j :: 0 < i && i + 1 < j < |s| - 1 && s[i] == '@' && s[j] == '.'
      && Plain(s[..i]) && Plain(s[i + 1..j]) && Plain(s[j + 1..])
  }

  /** The same language stated field by field: exactly one `@`, no whitespace, a
      non-empty local part, and a `.` in the domain that is neither its first nor
      its last character. */
  predicate WellFormedEmail(s: string) {
    && multiset(s)['@'] == 1
    && (forall k :: 0 <= k < |s| ==> !IsJsWhitespace(s[k]))
    && exists i, j :: 0 < i && i + 1 < j < |s| - 1 && s[i] == '@' && s[j] == '.'
  }

  lemma PlainHasNoAt(s: string)
    requires Plain(s)
    ensures multiset(s)['@'] == 0
  {
    assert '@' !in s by {
      forall k | 0 <= k < |s| ensures s[k] != '@' {
        assert PlainChar(s[k]);
      }
    }
  }

  lemma TwoAtsCountTwice(s: string, a: int, b: int)
    requires 0 <= a < b < |s| && s[a] == '@' && s[b] == '@'
    ensures multiset(s)['@'] >= 2
  {
    assert s == s[..b] + s[b..];
    assert s[..b][a] == '@';
    assert s[b..][0] == '@';
    assert multiset(s) == multiset(s[..b]) + multiset(s[b..]);
  }

  /** Outside positions `i` and `j`, every character of a pattern match lies in a
      plain part. */
  lemma PatternHasNoWhitespace(s: string, i: int, j: int)
    requires 0 < i && i + 1 < j < |s| - 1 && s[i] == '@' && s[j] == '.'
    requires Plain(s[..i]) && Plain(s[i + 1..j]) && Plain(s[j + 1..])
    ensures forall k :: 0 <= k < |s| ==> !IsJsWhitespace(s[k])
  {
    forall k | 0 <= k < |s| ensures !IsJsWhitespace(s[k]) {
      if k < i {
        assert s[k] == s[..i][k];
      } else if i < k < j {
        assert s[k] == s[i + 1..j][k - i - 1];
      } else if k > j {
        assert s[k] == s[j + 1..][k - j - 1];
      }
    }
  }

  lemma PatternHasOneAt(s: string, i: int, j: int)
    requires 0 < i && i + 1 < j < |s| - 1 && s[i] == '@' && s[j] == '.'
    requires Plain(s[..i]) && Plain(s[i + 1..j]) && Plain(s[j + 1..])
    ensures multiset(s)['@'] == 1
  {
    var local, name, tail := s[..i], s[i + 1..j], s[j + 1..];
    assert s == local + ([s[i]] + name + [s[j]] + tail);
    assert [s[i]] + name + [s[j]] + tail == [s[i]] + (name + ([s[j]] + tail));
    PlainHasNoAt(local);
    PlainHasNoAt(name);
    PlainHasNoAt(tail);
    assert multiset([s[j]] + tail)['@'] == 0;
    assert multiset(name + ([s[j]] + tail))['@'] == 0;
    assert multiset([s[i]] + (name + ([s[j]] + tail)))['@'] == 1;
  }

  lemma PatternIsWellFormed(s: string)
    requires MatchesEmailPattern(s)
    ensures WellFormedEmail(s)
  {
    var i, j :| 0 < i && i + 1 < j < |s| - 1 && s[i] == '@' && s[j] == '.'
      && Plain(s[..i]) && Plain(s[i + 1..j]) && Plain(s[j + 1..]);
    PatternHasNoWhitespace(s, i, j);
    PatternHasOneAt(s, i, j);
  }

  lemma WellFormedMatchesPattern(s: string)
    requires WellFormedEmail(s)
    ensures MatchesEmailPattern(s)
  {
    var i, j :| 0 < i && i + 1 < j < |s| - 1 && s[i] == '@' && s[j] == '.';
    forall k | 0 <= k < |s| && k != i ensures s[k] != '@' {
      if s[k] == '@' {
        if k < i { TwoAtsCountTwice(s, k, i); } else { TwoAtsCountTwice(s, i, k); }
      }
    }
    var local, name, tail := s[..i], s[i + 1..j], s[j + 1..];
    forall k | 0 <= k < |local| ensures PlainChar(local[k]) { assert local[k] == s[k]; }
    forall k | 0 <= k < |name| ensures PlainChar(name[k]) { assert name[k] == s[k + i + 1]; }
    forall k | 0 <= k < |tail| ensures PlainChar(tail[k]) { assert tail[k] == s[k + j + 1]; }
    assert Plain(local) && Plain(name) && Plain(tail);
  }

  /** The pattern accepts exactly the well-formed emails. */
  lemma EmailPatternCharacterised(s: string)
    ensures MatchesEmailPattern(s) <==> WellFormedEmail(s)
  {
    if MatchesEmailPattern(s) {
      PatternIsWellFormed(s);
    }
    if WellFormedEmail(s) {
      WellFormedMatchesPattern(s);
    }
  }

  datatype UserError =
    | MissingFields
    | InvalidEmail
    | UserExists
    | PasswordRequired
    | UserNotFound
    | InvalidCredentials
    | ServerError

  function StatusCode(e: UserError): (code: int)
    ensures code == 404 <==> e == UserNotFound
    ensures code == 401 <==> e == InvalidCredentials
    ensures code == 500 <==> e == ServerError
    ensures code in {400, 401, 404, 500}
  {
    match e
    case MissingFields => 400
    case InvalidEmail => 400
    case UserExists => 400
    case PasswordRequired => 400
    case UserNotFound => 404
    case InvalidCredentials => 401
    case ServerError => 500
  }

  predicate Falsy(s: Option<string>) {
    s.None? || s.value == ""
  }

  /** The registration response: `id`, `fullName`, `email`, and `balance || 0`. */
  datatype UserView = UserView(id: string, fullName: string, email: string, balance: real)

  /** `POST /register`. `newId` is the id the store assigns and `hash` what the
      password hook makes of the password; an id already taken fails the insert. */
  function Register(users: seq<User>, fullName: Option<string>, email: Option<string>, password: Option<string>,
                    newId: string, hash: string -> string): (r: (seq<User>, Result<UserView, UserError>))
    ensures r.1.Err? ==> r.0 == users
    ensures Falsy(fullName) || Falsy(email) || Falsy(password) ==> r.1 == Err(MissingFields)
    ensures !(Falsy(fullName) || Falsy(email) || Falsy(password)) && !MatchesEmailPattern(email.value) ==> r.1 == Err(InvalidEmail)
    ensures (!(Falsy(fullName) || Falsy(email) || Falsy(password)) && MatchesEmailPattern(email.value)
             && FindByEmail(users, AsciiLower(email.value)) >= 0) ==> r.1 == Err(UserExists)
    ensures (!(Falsy(fullName) || Falsy(email) || Falsy(password)) && MatchesEmailPattern(email.value)
             && FindByEmail(users, AsciiLower(email.value)) == -1) ==>
      && (r.1.Ok? <==> FindById(users, newId) == -1)
      && (r.1.Err? ==> r.1 == Err(ServerError))
    ensures r.1.Ok? ==>
      && FindByEmail(users, AsciiLower(email.value)) == -1
      && r.0 == users + [User(newId, fullName.value, AsciiLower(email.value), hash(password.value), None, None, 0.0)]
      && r.1.value == UserView(newId, fullName.value, AsciiLower(email.value), 0.0)
  {
    if Falsy(fullName) || Falsy(email) || Falsy(password) then (users, Err(MissingFields))
    else if !MatchesEmailPattern(email.value) then (users, Err(InvalidEmail))
    else
      var lower := AsciiLower(email.value);
      if FindByEmail(users, lower) >= 0 then (users, Err(UserExists))
      else if FindById(users, newId) >= 0 then (users, Err(ServerError))
      else
        var user := User(newId, fullName.value, lower, hash(password.value), None, None, 0.0);
        (users + [user], Ok(UserView(user.id, user.fullName, user.email, user.balance)))
  }

  /** `POST /login`: the checks in the route's order; on success the user whose
      email is the lowercased one given. */
  function Login(users: seq<User>, email: Option<string>, password: Option<string>,
                 matches: (string, string) -> bool): (r: Result<User, UserError>)
    ensures Falsy(email) || !MatchesEmailPattern(email.value) ==> r == Err(InvalidEmail)
    ensures !Falsy(email) && MatchesEmailPattern(email.value) && Falsy(password) ==> r == Err(PasswordRequired)
    ensures r.Ok? <==>
      && !Falsy(email) && MatchesEmailPattern(email.value) && !Falsy(password)
      && FindByEmail(users, AsciiLower(email.value)) >= 0
      && matches(password.value, users[FindByEmail(users, AsciiLower(email.value))].passwordHash)
    ensures r.Ok? ==> r.value == users[FindByEmail(users, AsciiLower(email.value))]
    ensures (!Falsy(email) && MatchesEmailPattern(email.value) && !Falsy(password)
             && FindByEmail(users, AsciiLower(email.value)) == -1) ==> r == Err(UserNotFound)
    ensures (!Falsy(email) && MatchesEmailPattern(email.value) && !Falsy(password)
             && FindByEmail(users, AsciiLower(email.value)) >= 0
             && !matches(password.value, users[FindByEmail(users, AsciiLower(email.value))].passwordHash))
            ==> r == Err(InvalidCredentials)
  {
    if Falsy(email) || !MatchesEmailPattern(email.value) then Err(InvalidEmail)
    else if Falsy(password) then Err(PasswordRequired)
    else
      var k := FindByEmail(users, AsciiLower(email.value));
      if k == -1 then Err(UserNotFound)
      else if !matches(password.value, users[k].passwordHash) then Err(InvalidCredentials)
      else Ok(users[k])
  }

  /** `GET /profile` */
  function GetProfile(users: seq<User>, userId: string): (r: Result<User, UserError>)
    ensures r.Err? <==> FindById(users, userId) == -1
    ensures r.Err? ==> r.error == UserNotFound
    ensures r.Ok? ==> r.value.id == userId && r.value in users
  {
    var k := FindById(users, userId);
    if k == -1 then Err(UserNotFound) else Ok(users[k])
  }

  /** The body of `PUT /profile`; a key not sent is stripped from the update. */
  datatype ProfileUpdate = ProfileUpdate(fullName: Option<string>, email: Option<string>, phone: Option<int>, address: Option<string>)

  /** The user after the update: each sent field replaced as given, without
      validation or lowercasing. */
  function ApplyProfile(u: User, p: ProfileUpdate): User {
    u.(fullName := if p.fullName.Some? then p.fullName.value else u.fullName,
       email := if p.email.Some? then p.email.value else u.email,
       phone := if p.phone.Some? then p.phone else u.phone,
       address := if p.address.Some? then p.address else u.address)
  }

  /** Whether the update would give user `k` an email another user holds, which
      the unique index refuses. */
  predicate TakesOthersEmail(users: seq<User>, k: int, p: ProfileUpdate)
    requires 0 <= k < |users|
  {
    p.email.Some? && exists i :: 0 <= i < |users| && i != k && users[i].email == p.email.value
  }

  /** `PUT /profile` */
  function UpdateProfile(users: seq<User>, userId: string, p: ProfileUpdate): (r: (seq<User>, Result<User, UserError>))
    ensures r.1.Err? ==> r.0 == users
    ensures FindById(users, userId) == -1 ==> r.1 == Err(UserNotFound)
    ensures r.1.Ok? ==> var k := FindById(users, userId);
      && k >= 0
      && r.0 == users[k := r.1.value]
      && r.1.value.id == users[k].id
      && r.1.value.balance == users[k].balance
      && r.1.value.passwordHash == users[k].passwordHash
      && (p.email.Some? ==> r.1.value.email == p.email.value)
      && (p.email.None? ==> r.1.value.email == users[k].email)
      && (p.fullName.Some? ==> r.1.value.fullName == p.fullName.value)
      && (p.fullName.None? ==> r.1.value.fullName == users[k].fullName)
      && (p.phone.Some? ==> r.1.value.phone == p.phone)
      && (p.phone.None? ==> r.1.value.phone == users[k].phone)
      && (p.address.Some? ==> r.1.value.address == p.address)
      && (p.address.None? ==> r.1.value.address == users[k].address)
    ensures FindById(users, userId) >= 0 ==>
      && (r.1.Ok? <==> !TakesOthersEmail(users, FindById(users, userId), p))
      && (r.1.Err? ==> r.1 == Err(ServerError))
  {
    var k := FindById(users, userId);
    if k == -1 then (users, Err(UserNotFound))
    else if TakesOthersEmail(users, k, p) then (users, Err(ServerError))
    else
      var u := ApplyProfile(users[k], p);
      (users[k := u], Ok(u))
  }

  /** A record replaced by one with the same email is found at the same index. */
  lemma FindByEmailAfterUpdate(users: seq<User>, k: int, u: User, email: string)
    requires 0 <= k < |users| && FindByEmail(users, email) == k
    requires u.email == users[k].email
    ensures FindByEmail(users[k := u], email) == k
  {
    var users' := users[k := u];
    assert users'[k].email == email;
    forall i | 0 <= i < k ensures users'[i].email != email {
      assert users'[i] == users[i];
    }
  }

  /** With the hook as written, the `user.save()` that stores a new balance
      (`PATCH /balance`, `POST /`) hashes the stored hash again. bcrypt's compare
      accepts a password exactly against a hash of it, so a user who logged in
      before the save is refused as invalid credentials after it, unless their
      password equals its own hash. */
  lemma BalanceSaveLocksOutAsWritten(users: seq<User>, k: int, balance: real, email: string, password: string,
                                     hash: string -> string, matches: (string, string) -> bool)
    requires forall p, x :: matches(p, hash(x)) <==> p == x
    requires Login(users, Some(email), Some(password), matches).Ok?
    requires k == FindByEmail(users, AsciiLower(email)) && users[k].passwordHash == hash(password)
    ensures var users' := users[k := PreSaveAsWritten(users[k].(balance := balance), hash)];
      Login(users', Some(email), Some(password), matches)
      == if password == hash(password) then Ok(users'[k]) else Err(InvalidCredentials)
  {
    var u := PreSaveAsWritten(users[k].(balance := balance), hash);
    FindByEmailAfterUpdate(users, k, u, AsciiLower(email));
    assert u.passwordHash == hash(hash(password));
    assert matches(password, hash(hash(password))) <==> password == hash(password);
  }

  /** With the hook as intended, the balance save leaves the password alone, so
      whoever could log in before still can, and receives the record with the new
      balance. */
  lemma BalanceSaveKeepsLogin(users: seq<User>, k: int, balance: real, email: string, password: string,
                              hash: string -> string, matches: (string, string) -> bool)
    requires Login(users, Some(email), Some(password), matches).Ok?
    requires k == FindByEmail(users, AsciiLower(email))
    ensures var users' := users[k := PreSave(users[k].(balance := balance), false, hash)];
      && users' == users[k := users[k].(balance := balance)]
      && Login(users', Some(email), Some(password), matches) == Ok(users[k].(balance := balance))
  {
    var u := PreSave(users[k].(balance := balance), false, hash);
    FindByEmailAfterUpdate(users, k, u, AsciiLower(email));
  }

  /** Registration keeps ids and emails unique. */
  lemma RegisterKeepsUniqueKeys(users: seq<User>, fullName: Option<string>, email: Option<string>,
                                password: Option<string>, newId: string, hash: string -> string)
    requires UniqueKeys(users)
    ensures UniqueKeys(Register(users, fullName, email, password, newId, hash).0)
  {
    var r := Register(users, fullName, email, password, newId, hash);
    if r.1.Ok? {
      AppendKeepsUniqueKeys(users, r.0[|users|]);
    }
  }

  /** Profile updates keep ids and emails unique. */
  lemma UpdateProfileKeepsUniqueKeys(users: seq<User>, userId: string, p: ProfileUpdate)
    requires UniqueKeys(users)
    ensures UniqueKeys(UpdateProfile(users, userId, p).0)
  {
    var r := UpdateProfile(users, userId, p);
    if r.1.Ok? {
      var k := FindById(users, userId);
      UpdateKeepsUniqueKeys(users, k, r.1.value);
    }
  }

  /** Registration stores the email lowercased, so whoever registers can log in
      with the same email in any letter case, given the matching password. */
  lemma RegisteredUserCanLogIn(users: seq<User>, fullName: Option<string>, email: Option<string>,
                               password: Option<string>, newId: string, hash: string -> string,
                               matches: (string, string) -> bool, typed: string)
    requires UniqueKeys(users)
    requires Register(users, fullName, email, password, newId, hash).1.Ok?
    requires AsciiLower(typed) == AsciiLower(email.value) && MatchesEmailPattern(typed)
    requires matches(password.value, hash(password.value))
    ensures Login(Register(users, fullName, email, password, newId, hash).0, Some(typed), password, matches).Ok?
    ensures Login(Register(users, fullName, email, password, newId, hash).0, Some(typed), password, matches).value.id == newId
  {
    var users' := Register(users, fullName, email, password, newId, hash).0;
    var lower := AsciiLower(email.value);
    assert users'[|users|].email == lower;
    assert FindByEmail(users', lower) == |users| by {
      forall i | 0 <= i < |users| ensures users'[i].email != lower {
        assert users'[i] == users[i];
      }
    }
  }

  /** Login looks users up by the lowercased email, so a user whose stored email has
      an upper-case letter (which only a profile update can store) can never log
      in. */
  lemma UppercaseEmailLocksOut(users: seq<User>, email: Option<string>, password: Option<string>,
                               matches: (string, string) -> bool)
    requires Login(users, email, password, matches).Ok?
    ensures !HasAsciiUpper(Login(users, email, password, matches).value.email)
  {
    AsciiLowerNormal(email.value);
  }

  /** A profile update stores the email exactly as sent, so an upper-case letter in
      it survives, and the user is then locked out. */
  lemma ProfileUpdateCanLockOut(users: seq<User>, userId: string, p: ProfileUpdate,
                                 email: Option<string>, password: Option<string>, matches: (string, string) -> bool)
    requires UniqueKeys(users)
    requires UpdateProfile(users, userId, p).1.Ok?
    requires p.email.Some? && HasAsciiUpper(p.email.value)
    ensures var users' := UpdateProfile(users, userId, p).0;
      Login(users', email, password, matches).Ok? ==> Login(users', email, password, matches).value.id != userId
  {
    var users' := UpdateProfile(users, userId, p).0;
    UpdateProfileKeepsUniqueKeys(users, userId, p);
    var k := FindById(users, userId);
    if Login(users', email, password, matches).Ok? {
      UppercaseEmailLocksOut(users', email, password, matches);
      var j := FindByEmail(users', AsciiLower(email.value));
      assert users'[k].email == p.email.value;
      assert j != k;
      assert users'[k].id == userId;
    }
  }

  /** `POST /register` */
  method RegisterRoute(store: UserStore, fullName: Option<string>, email: Option<string>, password: Option<string>,
                       newId: string, hash: string -> string) returns (r: Result<UserView, UserError>)
    modifies store
    ensures (store.users, r) == Register(old(store.users), fullName, email, password, newId, hash)
  {
    if Falsy(fullName) || Falsy(email) || Falsy(password) {
      return Err(MissingFields);
    }
    if !MatchesEmailPattern(email.value) {
      return Err(InvalidEmail);
    }
    var lower := AsciiLower(email.value);
    if FindByEmail(store.users, lower) >= 0 {
      return Err(UserExists);
    }
    if FindById(store.users, newId) >= 0 {
      return Err(ServerError);
    }
    var user := User(newId, fullName.value, lower, hash(password.value), None, None, 0.0);
    store.users := store.users + [user];
    r := Ok(UserView(user.id, user.fullName, user.email, user.balance));
  }

  /** `PUT /profile` */
  method UpdateProfileRoute(store: UserStore, userId: string, p: ProfileUpdate) returns (r: Result<User, UserError>)
    modifies store
    ensures (store.users, r) == UpdateProfile(old(store.users), userId, p)
  {
    var k := FindById(store.users, userId);
    if k == -1 {
      return Err(UserNotFound);
    }
    if TakesOthersEmail(store.users, k, p) {
      return Err(ServerError);
    }
    var u := ApplyProfile(store.users[k], p);
    store.users := store.users[k := u];
    r := Ok(u);
  }
}
