/** The authentication routes of goyo-backend/app/api/auth.py over the
    `users` table. Password hashing, password checking and token creation
    live in a helper module that is not part of this model; they are
    function parameters here, and the generated verification token is an
    argument. */
module Auth {
  import opened Wrappers
  import opened Users

  /** Shortest password `signup` accepts. */
  const MIN_PASSWORD_LENGTH: nat := 8

  datatype AuthError =
    | EmailRegistered        // 400 "Email already registered"
    | PasswordTooShort       // 400 "Password must be at least 8 characters"
    | InvalidCredentials     // 401 "Invalid email or password"
    | EmailNotVerified       // 403 "Email not verified. Please check your inbox."
    | InvalidToken           // 400 "Invalid verification token"

  /** No two users share an email (the column is unique). */
  predicate EmailsUnique(t: UserTable)
  {
    forall i, j :: 0 <= i < j < |t.rows| ==> t.rows[i].email != t.rows[j].email
  }

  /** The new row `signup` stores: inactive, unverified, ANC off at the
      default level, holding the hash and the token. */
  function NewUser(id: int, email: string, hashed: string, name: string, token: string): (u: User)
    ensures u.id == id && u.email == email && u.hashedPassword == hashed && u.name == name
    ensures !u.isActive && !u.isVerified && u.verificationToken == Some(token)
    ensures !u.ancEnabled && u.suppressionLevel == DEFAULT_SUPPRESSION_LEVEL
  {
    User(id, email, hashed, name, false, false, Some(token), false, DEFAULT_SUPPRESSION_LEVEL)
  }

  /** `signup`: a registered email is refused before the password is
      looked at; a short password is refused; otherwise one user is added. */
  function Registration(t: UserTable, email: string, password: string, name: string, token: string,
                        hash: string -> string)
    : (r: (Result<User, AuthError>, UserTable))
    ensures r.0 == Failure(EmailRegistered) <==> exists j :: 0 <= j < |t.rows| && t.rows[j].email == email
    ensures r.0 == Failure(PasswordTooShort) <==>
      (forall j :: 0 <= j < |t.rows| ==> t.rows[j].email != email) && |password| < MIN_PASSWORD_LENGTH
    // a new email with a long enough password is always registered
    ensures (forall j :: 0 <= j < |t.rows| ==> t.rows[j].email != email) && |password| >= MIN_PASSWORD_LENGTH
            ==> r.0.Success?
    ensures r.0.Failure? ==> r.1 == t
    ensures r.0.Success? ==>
      && r.0.value == NewUser(t.nextId, email, hash(password), name, token)
      && r.1 == UserTable(t.rows + [r.0.value], t.nextId + 1)
  {
    if FindByEmail(t.rows, email).Some? then (Failure(EmailRegistered), t)
    else if |password| < MIN_PASSWORD_LENGTH then (Failure(PasswordTooShort), t)
    else
      var u := NewUser(t.nextId, email, hash(password), name, token);
      (Success(u), UserTable(t.rows + [u], t.nextId + 1))
  }

  /** Signing up keeps emails unique. */
  lemma RegistrationKeepsEmailsUnique(t: UserTable, email: string, password: string, name: string, token: string,
                                      hash: string -> string)
    requires EmailsUnique(t)
    ensures EmailsUnique(Registration(t, email, password, name, token, hash).1)
  {
  }

  method Signup(db: UserDb, email: string, password: string, name: string, token: string, hash: string -> string)
    returns (r: Result<User, AuthError>)
    modifies db
    ensures (r, db.Contents()) == Registration(old(db.Contents()), email, password, name, token, hash)
  {
    var existing := FindByEmail(db.rows, email);
    if existing.Some? {
      return Failure(EmailRegistered);
    }
    if |password| < MIN_PASSWORD_LENGTH {
      return Failure(PasswordTooShort);
    }
    var user := NewUser(db.nextId, email, hash(password), name, token);
    db.rows := db.rows + [user];
    db.nextId := db.nextId + 1;
    return Success(user);
  }

  // ---------------------------------------------------------------------------
  // login
  // ---------------------------------------------------------------------------

  datatype Tokens = Tokens(accessToken: string, refreshToken: string, tokenType: string)

  /** `login`: an unknown email and a wrong password give the same error; a
      correct password on an unverified account is refused next; otherwise
      tokens for the account's email. */
  function Login(t: UserTable, email: string, password: string, verify: (string, string) -> bool,
                 access: string -> string, refresh: string -> string)
    : (r: Result<Tokens, AuthError>)
    ensures r == Failure(InvalidCredentials) <==>
      match FindByEmail(t.rows, email)
      case None => true
      case Some(i) => !verify(password, t.rows[i].hashedPassword)
    ensures r == Failure(EmailNotVerified) <==>
      match FindByEmail(t.rows, email)
      case None => false
      case Some(i) => verify(password, t.rows[i].hashedPassword) && !t.rows[i].isVerified
    // a verified account with a matching password always gets tokens
    ensures r.Success? <==>
      match FindByEmail(t.rows, email)
      case None => false
      case Some(i) => verify(password, t.rows[i].hashedPassword) && t.rows[i].isVerified
    ensures r.Success? ==>
      var u := t.rows[FindByEmail(t.rows, email).value];
      && verify(password, u.hashedPassword) && u.isVerified
      && r.value == Tokens(access(email), refresh(email), "bearer")
    ensures r.Failure? ==> r.error == InvalidCredentials || r.error == EmailNotVerified
  {
    match FindByEmail(t.rows, email)
    case None => Failure(InvalidCredentials)
    case Some(i) =>
      var u := t.rows[i];
      if !verify(password, u.hashedPassword) then Failure(InvalidCredentials)
      else if !u.isVerified then Failure(EmailNotVerified)
      else Success(Tokens(access(u.email), refresh(u.email), "bearer"))
  }

  // ---------------------------------------------------------------------------
  // verify_email
  // ---------------------------------------------------------------------------

  function Verified(u: User): User
  {
    u.(isVerified := true, isActive := true, verificationToken := None)
  }

  /** `verify_email`: the first user holding the token is verified, activated
      and loses the token. */
  function Verification(t: UserTable, token: string): (r: (Result<(), AuthError>, UserTable))
    ensures r.0.Failure? <==> forall j :: 0 <= j < |t.rows| ==> t.rows[j].verificationToken != Some(token)
    ensures r.0.Failure? ==> r.1 == t && r.0.error == InvalidToken
    ensures r.0.Success? ==>
      var i := FindByToken(t.rows, token).value;
      && r.1 == UserTable(t.rows[i := Verified(t.rows[i])], t.nextId)
      && r.1.rows[i].isVerified && r.1.rows[i].isActive && r.1.rows[i].verificationToken.None?
  {
    match FindByToken(t.rows, token)
    case None => (Failure(InvalidToken), t)
    case Some(i) => (Success(()), UserTable(t.rows[i := Verified(t.rows[i])], t.nextId))
  }

  /** A token held by one user verifies once: a second use is refused. */
  lemma TokenVerifiesOnce(t: UserTable, token: string)
    requires forall i, j ::
      (0 <= i < |t.rows| && 0 <= j < |t.rows| && t.rows[i].verificationToken == Some(token)
       && t.rows[j].verificationToken == Some(token)) ==> i == j
    requires Verification(t, token).0.Success?
    ensures Verification(Verification(t, token).1, token).0 == Failure(InvalidToken)
  {
    var i := FindByToken(t.rows, token).value;
    var t' := Verification(t, token).1;
    forall j | 0 <= j < |t'.rows| ensures t'.rows[j].verificationToken != Some(token) {
      if j != i { assert t'.rows[j] == t.rows[j]; }
    }
  }

  method VerifyEmail(db: UserDb, token: string) returns (r: Result<(), AuthError>)
    modifies db
    ensures (r, db.Contents()) == Verification(old(db.Contents()), token)
  {
    var found := FindByToken(db.rows, token);
    if found.None? {
      return Failure(InvalidToken);
    }
    var i := found.value;
    db.rows := db.rows[i := db.rows[i].(isVerified := true, isActive := true, verificationToken := None)];
    return Success(());
  }

  // ---------------------------------------------------------------------------
  // The account life cycle
  // ---------------------------------------------------------------------------

  /** A fresh account cannot log in with its own password until its email is
      verified with the token it was given; after that it can, and the token
      is spent. */
  lemma SignupVerifyLogin(t: UserTable, email: string, password: string, name: string, token: string,
                          hash: string -> string, verify: (string, string) -> bool,
                          access: string -> string, refresh: string -> string)
    requires Registration(t, email, password, name, token, hash).0.Success?
    requires verify(password, hash(password))
    requires forall j :: 0 <= j < |t.rows| ==> t.rows[j].verificationToken != Some(token)
    ensures var t1 := Registration(t, email, password, name, token, hash).1;
      && Login(t1, email, password, verify, access, refresh) == Failure(EmailNotVerified)
      && Verification(t1, token).0.Success?
      && var t2 := Verification(t1, token).1;
      && Login(t2, email, password, verify, access, refresh)
           == Success(Tokens(access(email), refresh(email), "bearer"))
      && Verification(t2, token).0 == Failure(InvalidToken)
  {
    var t1 := Registration(t, email, password, name, token, hash).1;
    var n := |t.rows|;
    assert t1.rows[n].email == email && t1.rows[n].verificationToken == Some(token);
    assert FindByEmail(t1.rows, email) == Some(n) by {
      forall j | 0 <= j < n ensures t1.rows[j].email != email { assert t1.rows[j] == t.rows[j]; }
    }
    assert FindByToken(t1.rows, token) == Some(n) by {
      forall j | 0 <= j < n ensures t1.rows[j].verificationToken != Some(token) { assert t1.rows[j] == t.rows[j]; }
    }
    var t2 := Verification(t1, token).1;
    assert t2.rows[n].email == email;
    assert FindByEmail(t2.rows, email) == Some(n) by {
      forall j | 0 <= j < n ensures t2.rows[j].email != email { assert t2.rows[j] == t.rows[j]; }
    }
    TokenVerifiesOnce(t1, token);
  }
}
