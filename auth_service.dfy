/** The account logic of `AuthService`: the input checks of registration and login, the salted
    password digest, and the session held in `currentUser`. The user table, the session storage
    and the digest algorithm are collaborators: the table is passed in as a map from stored
    username to user record, a stored or looked-up record is passed in as an option, and the digest
    is a function parameter. */
module Auth {
  import opened Strings
  import opened Validation

  datatype RegisterCredentials = RegisterCredentials(username: string, password: string, fullName: string)
  datatype LoginCredentials = LoginCredentials(username: string, password: string)

  /** A row of the users table; `password` is the stored "salt:digest" text. */
  datatype User = User(id: int, username: string, password: string, fullName: string, createdAt: string)

  datatype UserSession = UserSession(id: int, username: string, fullName: string, createdAt: string)

  /** The users table as `getUserByUsername` sees it: keyed by the stored username. */
  type Users = map<string, User>

  /** What the public operations resolve to: `{ success, message, user? }`. */
  datatype Outcome = Outcome(success: bool, message: string, user: Option<UserSession>)

  const UserNotFound := "User tidak ditemukan"
  const UsernameTaken := "Username sudah digunakan"
  const WrongCredentials := "Username atau password salah"
  const RegisterSucceeded := "Registrasi berhasil! Selamat datang di Timbang Cerdas."
  const LogoutSucceeded := "Logout berhasil"
  const ProfileUpdated := "Profil berhasil diperbarui"
  const OldPasswordRequired := "Password lama harus diisi"
  const NewPasswordRequired := "Password baru harus diisi"
  const NewPasswordTooShort := "Password baru minimal 6 karakter"
  const OldPasswordWrong := "Password lama tidak sesuai"
  const PasswordChanged := "Password berhasil diubah"

  function Welcome(fullName: string): string {
    "Selamat datang kembali, " + fullName + "!"
  }

  /** `validateRegisterInput`: seven checks in a fixed order; the first that fails gives the
      message. The length of the full name is that of the untrimmed text. */
  function ValidateRegisterInput(c: RegisterCredentials): (r: ValidationResult)
    ensures r.Valid? <==> !IsBlank(c.username) && !IsBlank(c.password) && !IsBlank(c.fullName)
                          && |c.username| >= 3 && AllChars(c.username, IsWordChar)
                          && |c.password| >= 6 && |c.fullName| >= 2
    ensures r == Invalid(UsernameRequired) <==> IsBlank(c.username)
    ensures r == Invalid(PasswordRequired) <==> !IsBlank(c.username) && IsBlank(c.password)
    ensures r == Invalid(NameRequired) <==> !IsBlank(c.username) && !IsBlank(c.password) && IsBlank(c.fullName)
    ensures r == Invalid(UsernameTooShort) <==> (!IsBlank(c.username) && !IsBlank(c.password)
                                               && !IsBlank(c.fullName) && |c.username| < 3)
    ensures r == Invalid(UsernameCharset) <==> (!IsBlank(c.username) && !IsBlank(c.password)
                                              && !IsBlank(c.fullName) && |c.username| >= 3
                                              && !AllChars(c.username, IsWordChar))
    ensures r == Invalid(PasswordTooShort) <==> (!IsBlank(c.username) && !IsBlank(c.password)
                                               && !IsBlank(c.fullName) && |c.username| >= 3
                                               && AllChars(c.username, IsWordChar) && |c.password| < 6)
    ensures r == Invalid(NameTooShort) <==> (!IsBlank(c.username) && !IsBlank(c.password)
                                           && !IsBlank(c.fullName) && |c.username| >= 3
                                           && AllChars(c.username, IsWordChar) && |c.password| >= 6
                                           && |c.fullName| < 2)
  {
    if IsBlank(c.username) then Invalid(UsernameRequired)
    else if IsBlank(c.password) then Invalid(PasswordRequired)
    else if IsBlank(c.fullName) then Invalid(NameRequired)
    else if |c.username| < 3 then Invalid(UsernameTooShort)
    else if !AllChars(c.username, IsWordChar) then Invalid(UsernameCharset)
    else if |c.password| < 6 then Invalid(PasswordTooShort)
    else if |c.fullName| < 2 then Invalid(NameTooShort)
    else Valid
  }

  /** `validateLoginInput`: the username is checked before the password. */
  function ValidateLoginInput(c: LoginCredentials): (r: ValidationResult)
    ensures r.Valid? <==> !IsBlank(c.username) && !IsBlank(c.password)
    ensures r == Invalid(UsernameRequired) <==> IsBlank(c.username)
    ensures r == Invalid(PasswordRequired) <==> !IsBlank(c.username) && IsBlank(c.password)
  {
    if IsBlank(c.username) then Invalid(UsernameRequired)
    else if IsBlank(c.password) then Invalid(PasswordRequired)
    else Valid
  }

  /** Credentials that pass registration pass the login check too. */
  lemma RegisteredCredentialsLogIn(c: RegisterCredentials)
    requires ValidateRegisterInput(c).Valid?
    ensures ValidateLoginInput(LoginCredentials(c.username, c.password)).Valid?
  {
  }

  /** Input accepted by the form validators `validateUsername`, `validatePassword` and
      `validateFullName` is accepted by `validateRegisterInput`. */
  lemma FormValidatorsSuffice(c: RegisterCredentials)
    requires ValidateUsername(c.username).Valid?
    requires ValidatePassword(c.password).Valid?
    requires ValidateFullName(c.fullName).Valid?
    ensures ValidateRegisterInput(c).Valid?
  {
    assert |TrimStart(c.fullName)| <= |c.fullName|;
  }

  /** Registration measures the untrimmed full name: a space and one letter pass, and the name
      then stored is the single letter that `validateFullName` refuses. */
  lemma PaddedShortNameRegisters(username: string, password: string, letter: char)
    requires ValidateUsername(username).Valid? && ValidatePassword(password).Valid?
    requires IsLetter(letter)
    ensures ValidateRegisterInput(RegisterCredentials(username, password, [' ', letter])).Valid?
    ensures Trim([' ', letter]) == [letter]
    ensures ValidateFullName([' ', letter]) == Invalid(NameTooShort)
  {
    var name := [' ', letter];
    assert !IsSpace(name[1]);
    assert name[1..] == [letter];
    assert TrimStart(name) == [letter];
  }

  /** The text before the first ':' (the first element of `split(':')`). */
  function Field(s: string): (r: string)
    ensures |r| <= |s| && r == s[..|r|]
    ensures forall i :: 0 <= i < |r| ==> r[i] != ':'
    ensures |r| < |s| ==> s[|r|] == ':'
  {
    if s == [] || s[0] == ':' then [] else [s[0]] + Field(s[1..])
  }

  /** `hashPassword` for a given salt: the salt, a ':' and the digest of password and salt. The
      salt is `Math.random().toString(36).substring(2, 15)`, taken here as a parameter. */
  function HashPassword(password: string, salt: string, digest: string -> string): (r: string)
    ensures |r| == |salt| + 1 + |digest(password + salt)|
    ensures r[..|salt|] == salt && r[|salt|] == ':' && r[|salt| + 1..] == digest(password + salt)
  {
    salt + ":" + digest(password + salt)
  }

  predicate NoColon(s: string) {
    forall i :: 0 <= i < |s| ==> s[i] != ':'
  }

  /** `comparePassword`: the salt is the text before the first ':', the stored digest the text
      between the first and the second; a missing or empty part refuses every password. */
  function ComparePassword(password: string, stored: string, digest: string -> string): (r: bool)
    ensures r <==> exists salt, hash :: Written(stored, salt, hash)
                     && salt != [] && hash != [] && NoColon(salt) && NoColon(hash)
                     && digest(password + salt) == hash
  {
    var salt := Field(stored);
    var hash := if |salt| < |stored| then Field(stored[|salt| + 1..]) else [];
    SplitStored(stored, salt, hash);
    salt != [] && hash != [] && digest(password + salt) == hash
  }

  /** The two fields `split(':')` yields first are the only salt and hash that `stored` can be
      written with: exactly "salt:hash", or "salt:hash:" followed by more. */
  lemma SplitStored(stored: string, salt: string, hash: string)
    requires salt == Field(stored)
    requires hash == if |salt| < |stored| then Field(stored[|salt| + 1..]) else []
    ensures salt != [] && hash != [] ==> Written(stored, salt, hash)
    ensures forall a, b :: Written(stored, a, b) && NoColon(a) && NoColon(b) && a != [] && b != []
                           ==> a == salt && b == hash
  {
    if salt != [] && hash != [] {
      SplitFound(stored, salt, hash);
    }
    forall a, b | Written(stored, a, b) && NoColon(a) && NoColon(b) && a != [] && b != []
      ensures a == salt && b == hash
    {
      SplitUnique(stored, a, b);
    }
  }

  /** `stored` is "a:b", or starts with "a:b:". */
  predicate Written(stored: string, a: string, b: string) {
    stored == a + ":" + b || StartsWith(stored, a + ":" + b + ":")
  }

  lemma SplitFound(stored: string, salt: string, hash: string)
    requires salt == Field(stored) && salt != [] && |salt| < |stored|
    requires hash == Field(stored[|salt| + 1..]) && hash != []
    ensures Written(stored, salt, hash)
  {
    Recompose(stored, salt, ':', hash);
    if |hash| < |stored| - |salt| - 1 {
      assert stored[|salt| + 1..][|hash|] == ':';
      assert salt + [':'] + hash + [':'] == salt + ":" + hash + ":";
    }
  }

  /** A sequence read as `a`, a separator `c` and `b` is `a + [c] + b`, or starts with
      `a + [c] + b + [c]` when `c` follows `b`. */
  lemma Recompose<T>(s: seq<T>, a: seq<T>, c: T, b: seq<T>)
    requires |a| < |s| && s[..|a|] == a && s[|a|] == c
    requires |b| <= |s| - |a| - 1 && s[|a| + 1..][..|b|] == b
    ensures |b| == |s| - |a| - 1 ==> s == a + [c] + b
    ensures |b| < |s| - |a| - 1 && s[|a| + 1..][|b|] == c ==>
              |a| + |b| + 2 <= |s| && s[..|a| + |b| + 2] == a + [c] + b + [c]
  {
    if |b| == |s| - |a| - 1 {
      assert forall i :: 0 <= i < |s| ==> s[i] == (a + [c] + b)[i];
    }
    if |b| < |s| - |a| - 1 && s[|a| + 1..][|b|] == c {
      var t := a + [c] + b + [c];
      assert forall i :: 0 <= i < |t| ==> s[i] == t[i];
    }
  }

  /** A sequence that starts with `p` is `p` and what follows. */
  lemma StartThenRest<T>(s: seq<T>, p: seq<T>)
    requires |p| <= |s| && s[..|p|] == p
    ensures s == p + s[|p|..]
  {
  }

  lemma Regroup<T>(a: seq<T>, x: seq<T>, b: seq<T>, m: seq<T>)
    ensures a + x + b + x + m == a + x + (b + x + m)
  {
  }

  lemma SplitUnique(stored: string, a: string, b: string)
    requires NoColon(a) && NoColon(b) && a != [] && b != []
    requires Written(stored, a, b)
    ensures Field(stored) == a && |a| < |stored| && Field(stored[|a| + 1..]) == b
  {
    var tail := stored[|a| + 1..];
    if stored == a + ":" + b {
      assert tail == b;
      FieldBeforeColon(a, b);
      FieldWithoutColon(b);
    } else {
      var more := stored[|a| + 1 + |b| + 1..];
      StartThenRest(stored, a + ":" + b + ":");
      Regroup(a, ":", b, more);
      FieldBeforeColon(a, b + ":" + more);
      assert tail == b + ":" + more;
      FieldBeforeColon(b, more);
    }
  }

  /** A salt without ':' is read back whole from "salt:rest". */
  lemma FieldBeforeColon(a: string, rest: string)
    requires forall i :: 0 <= i < |a| ==> a[i] != ':'
    ensures Field(a + ":" + rest) == a
  {
    var s := a + ":" + rest;
    assert s[|a|] == ':';
    assert forall i :: 0 <= i < |a| ==> s[i] == a[i];
  }

  lemma FieldWithoutColon(d: string)
    requires forall i :: 0 <= i < |d| ==> d[i] != ':'
    ensures Field(d) == d
  {
  }

  /** With a non-empty salt and digest that hold no ':', a stored hash accepts exactly the
      passwords whose digest with that salt is the stored one. */
  lemma CompareHashed(password: string, attempt: string, salt: string, digest: string -> string)
    requires salt != [] && forall i :: 0 <= i < |salt| ==> salt[i] != ':'
    requires var d := digest(password + salt); d != [] && forall i :: 0 <= i < |d| ==> d[i] != ':'
    ensures ComparePassword(attempt, HashPassword(password, salt, digest), digest)
            <==> digest(attempt + salt) == digest(password + salt)
  {
    var d := digest(password + salt);
    var stored := HashPassword(password, salt, digest);
    FieldBeforeColon(salt, d);
    assert stored[|salt| + 1..] == d;
    FieldWithoutColon(d);
  }

  /** The password that was hashed is accepted by its own hash. */
  lemma PasswordRoundTrip(password: string, salt: string, digest: string -> string)
    requires salt != [] && forall i :: 0 <= i < |salt| ==> salt[i] != ':'
    requires var d := digest(password + salt); d != [] && forall i :: 0 <= i < |d| ==> d[i] != ':'
    ensures ComparePassword(password, HashPassword(password, salt, digest), digest)
  {
    CompareHashed(password, password, salt, digest);
  }

  /** An empty salt (when `Math.random()` yields 0) gives a hash that accepts no password. */
  lemma EmptySaltAcceptsNothing(password: string, attempt: string, digest: string -> string)
    ensures !ComparePassword(attempt, HashPassword(password, "", digest), digest)
  {
    assert HashPassword(password, "", digest)[0] == ':';
  }

  /** Lower-casing changes only the letters A-Z, so it keeps white space and the class `\w`. */
  lemma LowerKeepsClasses(s: string)
    ensures IsBlank(ToLower(s)) <==> IsBlank(s)
    ensures AllChars(ToLower(s), IsWordChar) <==> AllChars(s, IsWordChar)
  {
    assert forall i :: 0 <= i < |s| ==> (IsSpace(ToLower(s)[i]) <==> IsSpace(s[i]));
    assert forall i :: 0 <= i < |s| ==> (IsWordChar(ToLower(s)[i]) <==> IsWordChar(s[i]));
  }

  /** The stored (lower-cased) username of a valid registration passes the same username checks. */
  lemma StoredUsernameValid(c: RegisterCredentials)
    requires ValidateRegisterInput(c).Valid?
    ensures var u := ToLower(c.username);
            !IsBlank(u) && |u| >= 3 && AllChars(u, IsWordChar)
  {
    LowerKeepsClasses(c.username);
  }

  function SessionOf(u: User): UserSession {
    UserSession(u.id, u.username, u.fullName, u.createdAt)
  }

  /** The decision of `login`: the input check, then the lookup of the lower-cased username, then
      the password check. An unknown user and a wrong password give the same message. */
  function Authenticate(c: LoginCredentials, users: Users, digest: string -> string): (r: Result<User>)
    ensures ValidateLoginInput(c).Invalid? ==> r == Err(ValidateLoginInput(c).message)
    ensures ValidateLoginInput(c).Valid? ==>
              (r.Ok? <==> ToLower(c.username) in users
                          && ComparePassword(c.password, users[ToLower(c.username)].password, digest))
    ensures ValidateLoginInput(c).Valid? && r.Err? ==> r.message == WrongCredentials
    ensures r.Ok? ==> ToLower(c.username) in users && r.value == users[ToLower(c.username)]
  {
    var v := ValidateLoginInput(c);
    if v.Invalid? then Err(v.message)
    else
      var key := ToLower(c.username);
      if key !in users then Err(WrongCredentials)
      else if !ComparePassword(c.password, users[key].password, digest) then Err(WrongCredentials)
      else Ok(users[key])
  }

  /** Usernames that differ only in the case of letters log in the same way. */
  lemma LoginIgnoresCase(a: string, b: string, password: string, users: Users, digest: string -> string)
    requires ToLower(a) == ToLower(b)
    ensures Authenticate(LoginCredentials(a, password), users, digest)
            == Authenticate(LoginCredentials(b, password), users, digest)
  {
    LowerKeepsClasses(a);
    LowerKeepsClasses(b);
  }

  /** The decision of `register`: the input check, then the lookup of the lower-cased username;
      the record created holds the lower-cased username, the salted hash and the trimmed name.
      `id` and `createdAt` are what the database assigns. */
  function NewUser(c: RegisterCredentials, users: Users, salt: string, digest: string -> string,
                   id: int, createdAt: string): (r: Result<User>)
    ensures ValidateRegisterInput(c).Invalid? ==> r == Err(ValidateRegisterInput(c).message)
    ensures r.Ok? <==> ValidateRegisterInput(c).Valid? && ToLower(c.username) !in users
    ensures ValidateRegisterInput(c).Valid? && r.Err? ==> r.message == UsernameTaken
    ensures r.Ok? ==> r.value.username == ToLower(c.username) && r.value.fullName == Trim(c.fullName)
                      && r.value.password == HashPassword(c.password, salt, digest)
                      && r.value.id == id && r.value.createdAt == createdAt
  {
    var v := ValidateRegisterInput(c);
    if v.Invalid? then Err(v.message)
    else if ToLower(c.username) in users then Err(UsernameTaken)
    else Ok(User(id, ToLower(c.username), HashPassword(c.password, salt, digest), Trim(c.fullName), createdAt))
  }

  /** A user who has just registered logs in with the same credentials, whatever the case of the
      letters in the username, given a salt and digest without ':'. */
  lemma RegisterThenLogin(c: RegisterCredentials, users: Users, salt: string, digest: string -> string,
                          id: int, createdAt: string, typed: string)
    requires NewUser(c, users, salt, digest, id, createdAt).Ok?
    requires salt != [] && forall i :: 0 <= i < |salt| ==> salt[i] != ':'
    requires var d := digest(c.password + salt); d != [] && forall i :: 0 <= i < |d| ==> d[i] != ':'
    requires ToLower(typed) == ToLower(c.username)
    ensures var u := NewUser(c, users, salt, digest, id, createdAt).value;
            Authenticate(LoginCredentials(typed, c.password), users[u.username := u], digest) == Ok(u)
  {
    var u := NewUser(c, users, salt, digest, id, createdAt).value;
    var table := users[u.username := u];
    PasswordRoundTrip(c.password, salt, digest);
    LoginIgnoresCase(typed, c.username, c.password, table, digest);
  }

  /** The decision of `updateProfile`. A username is checked and used only when it is given and
      not empty; otherwise the session keeps its username. */
  function ProfileUpdate(current: Option<UserSession>, fullName: string, username: Option<string>,
                         users: Users): (r: Result<UserSession>)
    ensures current.None? ==> r == Err(UserNotFound)
    ensures current.Some? && IsBlank(fullName) ==> r == Err(NameRequired)
    ensures r.Ok? <==> current.Some? && !IsBlank(fullName) && |Trim(fullName)| >= 2
                       && (username.Some? && username.value != [] ==>
                             |username.value| >= 3 && AllChars(username.value, IsWordChar)
                             && (ToLower(username.value) in users ==>
                                   users[ToLower(username.value)].id == current.value.id))
    ensures r.Ok? ==> r.value.id == current.value.id && r.value.createdAt == current.value.createdAt
                      && r.value.fullName == Trim(fullName)
    ensures r.Ok? && (username.None? || username.value == []) ==> r.value.username == current.value.username
    ensures r.Ok? && username.Some? && username.value != [] ==> r.value.username == ToLower(username.value)
  {
    if current.None? then Err(UserNotFound)
    else if IsBlank(fullName) then Err(NameRequired)
    else if |Trim(fullName)| < 2 then Err(NameTooShort)
    else if username.Some? && username.value != [] then
      var name := username.value;
      if |name| < 3 then Err(UsernameTooShort)
      else if !AllChars(name, IsWordChar) then Err(UsernameCharset)
      else if ToLower(name) in users && users[ToLower(name)].id != current.value.id then Err(UsernameTaken)
      else Ok(current.value.(fullName := Trim(fullName), username := ToLower(name)))
    else Ok(current.value.(fullName := Trim(fullName)))
  }

  /** The decision of `changePassword`: the new stored hash, or the message of the first failed
      check. `record` is the row `getUserById` returns for the session's id. */
  function PasswordChange(current: Option<UserSession>, currentPassword: string, newPassword: string,
                          record: Option<User>, salt: string, digest: string -> string): (r: Result<string>)
    ensures current.None? ==> r == Err(UserNotFound)
    ensures r.Ok? <==> current.Some? && !IsBlank(currentPassword) && !IsBlank(newPassword)
                       && |newPassword| >= 6 && record.Some?
                       && ComparePassword(currentPassword, record.value.password, digest)
    ensures current.Some? && record.Some? && !IsBlank(currentPassword) && !IsBlank(newPassword)
            && |newPassword| >= 6 && !ComparePassword(currentPassword, record.value.password, digest)
            ==> r == Err(OldPasswordWrong)
    ensures r.Ok? ==> r.value == HashPassword(newPassword, salt, digest)
  {
    if current.None? then Err(UserNotFound)
    else if IsBlank(currentPassword) then Err(OldPasswordRequired)
    else if IsBlank(newPassword) then Err(NewPasswordRequired)
    else if |newPassword| < 6 then Err(NewPasswordTooShort)
    else if record.None? then Err(UserNotFound)
    else if !ComparePassword(currentPassword, record.value.password, digest) then Err(OldPasswordWrong)
    else Ok(HashPassword(newPassword, salt, digest))
  }

  /** After a change the new password is accepted, and the old one only if its digest with the new
      salt happens to equal the new password's. */
  lemma ChangedPasswordAccepted(current: Option<UserSession>, currentPassword: string, newPassword: string,
                                record: Option<User>, salt: string, digest: string -> string)
    requires PasswordChange(current, currentPassword, newPassword, record, salt, digest).Ok?
    requires salt != [] && forall i :: 0 <= i < |salt| ==> salt[i] != ':'
    requires var d := digest(newPassword + salt); d != [] && forall i :: 0 <= i < |d| ==> d[i] != ':'
    ensures var h := PasswordChange(current, currentPassword, newPassword, record, salt, digest).value;
            ComparePassword(newPassword, h, digest)
            && (ComparePassword(currentPassword, h, digest) <==>
                  digest(currentPassword + salt) == digest(newPassword + salt))
  {
    CompareHashed(newPassword, newPassword, salt, digest);
    CompareHashed(newPassword, currentPassword, salt, digest);
  }

  /** The service object: `currentUser` is the logged-in session or none. Writing the session to
      storage is not modelled; reading it back is the `stored` parameter. */
  class AuthService {
    var currentUser: Option<UserSession>

    constructor()
      ensures currentUser == None
    {
      currentUser := None;
    }

    function GetCurrentUser(): (r: Option<UserSession>)
      reads this
      ensures r == currentUser
    {
      currentUser
    }

    predicate IsAuthenticated(): (r: bool)
      reads this
      ensures r <==> GetCurrentUser().Some?
    {
      currentUser.Some?
    }

    /** `saveSession`. */
    method SaveSession(user: UserSession)
      modifies this
      ensures currentUser == Some(user) && IsAuthenticated()
    {
      currentUser := Some(user);
    }

    /** `clearSession`. */
    method ClearSession()
      modifies this
      ensures currentUser == None && !IsAuthenticated()
    {
      currentUser := None;
    }

    /** `getStoredSession`: a stored session becomes the current one. */
    method GetStoredSession(stored: Option<UserSession>) returns (r: Option<UserSession>)
      modifies this
      ensures r == stored
      ensures stored.Some? ==> currentUser == stored
      ensures stored.None? ==> currentUser == old(currentUser)
    {
      if stored.Some? {
        currentUser := stored;
      }
      r := stored;
    }

    /** `register`: on success the new user is logged in; `created` is the row written. */
    method Register(c: RegisterCredentials, users: Users, salt: string, digest: string -> string,
                    id: int, createdAt: string) returns (r: Outcome, created: Option<User>)
      modifies this
      ensures var n := NewUser(c, users, salt, digest, id, createdAt);
              (n.Ok? ==> r == Outcome(true, RegisterSucceeded, Some(SessionOf(n.value)))
                         && created == Some(n.value) && currentUser == Some(SessionOf(n.value)))
              && (n.Err? ==> r == Outcome(false, n.message, None) && created == None
                             && currentUser == old(currentUser))
    {
      var n := NewUser(c, users, salt, digest, id, createdAt);
      if n.Err? {
        return Outcome(false, n.message, None), None;
      }
      var session := SessionOf(n.value);
      SaveSession(session);
      r, created := Outcome(true, RegisterSucceeded, Some(session)), Some(n.value);
    }

    /** `login`: on success the user's row becomes the session. */
    method Login(c: LoginCredentials, users: Users, digest: string -> string) returns (r: Outcome)
      modifies this
      ensures var a := Authenticate(c, users, digest);
              (a.Ok? ==> r == Outcome(true, Welcome(a.value.fullName), Some(SessionOf(a.value)))
                         && currentUser == Some(SessionOf(a.value)))
              && (a.Err? ==> r == Outcome(false, a.message, None) && currentUser == old(currentUser))
    {
      var a := Authenticate(c, users, digest);
      if a.Err? {
        return Outcome(false, a.message, None);
      }
      var session := SessionOf(a.value);
      SaveSession(session);
      r := Outcome(true, Welcome(a.value.fullName), Some(session));
    }

    /** `logout`. */
    method Logout() returns (r: Outcome)
      modifies this
      ensures r == Outcome(true, LogoutSucceeded, None) && !IsAuthenticated()
    {
      ClearSession();
      r := Outcome(true, LogoutSucceeded, None);
    }

    /** `updateProfile`: on success the session takes the new name and, when one is given, the new
      username. The database row is updated the same way; that write is not modelled. */
    method UpdateProfile(fullName: string, username: Option<string>, users: Users) returns (r: Outcome)
      modifies this
      ensures var p := ProfileUpdate(old(currentUser), fullName, username, users);
              (p.Ok? ==> r == Outcome(true, ProfileUpdated, None) && currentUser == Some(p.value))
              && (p.Err? ==> r == Outcome(false, p.message, None) && currentUser == old(currentUser))
    {
      var p := ProfileUpdate(currentUser, fullName, username, users);
      if p.Err? {
        return Outcome(false, p.message, None);
      }
      SaveSession(p.value);
      r := Outcome(true, ProfileUpdated, None);
    }

    /** `changePassword`: `newHash` is the stored text written for the user, if any. The session
      does not change. */
    method ChangePassword(currentPassword: string, newPassword: string, record: Option<User>,
                          salt: string, digest: string -> string) returns (r: Outcome, newHash: Option<string>)
      ensures var p := PasswordChange(currentUser, currentPassword, newPassword, record, salt, digest);
              (p.Ok? ==> r == Outcome(true, PasswordChanged, None) && newHash == Some(p.value))
              && (p.Err? ==> r == Outcome(false, p.message, None) && newHash == None)
    {
      var p := PasswordChange(currentUser, currentPassword, newPassword, record, salt, digest);
      if p.Err? {
        return Outcome(false, p.message, None), None;
      }
      r, newHash := Outcome(true, PasswordChanged, None), Some(p.value);
    }

    /** `initialize`: a stored session is kept only while its user still exists. */
    method Initialize(stored: Option<UserSession>, userExists: bool)
      modifies this
      ensures stored.Some? && userExists ==> currentUser == stored
      ensures stored.Some? && !userExists ==> currentUser == None
      ensures stored.None? ==> currentUser == old(currentUser)
    {
      var session := GetStoredSession(stored);
      if session.Some? {
        if userExists {
          currentUser := session;
        } else {
          ClearSession();
        }
      }
    }

    /** `refreshSession`: the session is reloaded from the user's row, or dropped when the row is
      gone. `record` is what `getUserById` returns. */
    method RefreshSession(record: Option<User>)
      modifies this
      ensures old(currentUser).None? ==> currentUser == None
      ensures old(currentUser).Some? && record.Some? ==> currentUser == Some(SessionOf(record.value))
      ensures old(currentUser).Some? && record.None? ==> currentUser == None
    {
      if currentUser.None? {
        return;
      }
      if record.Some? {
        SaveSession(SessionOf(record.value));
      } else {
        ClearSession();
      }
    }
  }
}
