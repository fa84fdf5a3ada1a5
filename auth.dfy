/**
 * The credential endpoints (`authController.js`): signup (duplicate check,
 * hash, save) and login (lower-cased lookup, one generic failure).
 *
 * bcrypt and JWT are opaque here: the salted hash and the hash comparison are
 * function parameters, the salt that `genSalt` draws is a parameter, and a token
 * is the user id it is signed for.
 */
module Auth {
  import opened Wrappers
  import opened Text
  import opened UserModel

  /** A signed session token; only its subject (the `id` claim) is modelled. */
  datatype Token = Token(subject: UserId)

  /** `generateToken`: a token whose `id` claim is the given user. */
  function GenerateToken(userId: UserId): (t: Token)
    ensures t.subject == userId
  {
    Token(userId)
  }

  /** The user as the responses show it: no password field. */
  datatype PublicUser = PublicUser(id: UserId, name: string, email: string)

  /** The `user` object of both success responses: id, name and email, never the password hash. */
  function Public(u: User): (p: PublicUser)
    ensures p.id == u.id && p.name == u.name && p.email == u.email
  {
    PublicUser(u.id, u.name, u.email)
  }

  datatype SignupResponse =
    | Registered(token: Token, user: PublicUser)
    | AlreadyExists
    | SignupFailed

  /** The status code `signupUser` answers with. */
  function SignupStatus(r: SignupResponse): (status: int)
    ensures status == 201 <==> r.Registered?
    ensures status == 400 <==> r == AlreadyExists
    ensures status == 500 <==> r == SignupFailed
  {
    match r
    case Registered(_, _) => 201
    case AlreadyExists => 400
    case SignupFailed => 500
  }

  /** The `message` of the answer; each outcome has its own. */
  function SignupMessage(r: SignupResponse): (m: string)
    ensures m != ""
    ensures m == "User already exists" <==> r == AlreadyExists
    ensures m == "Server error" <==> r == SignupFailed
  {
    match r
    case Registered(_, _) => "User registered successfully \U{1F389}"
    case AlreadyExists => "User already exists"
    case SignupFailed => "Server error"
  }

  /**
   * What `signupUser` answers and what the users collection holds afterwards,
   * for the body `{ name, email, password }` whose password hashed to `hashed`.
   * Mongoose casts the filter of `findOne({ email })` through the path's
   * setters, so the duplicate check looks up the lower-cased email, which is
   * also what the stored document holds.
   */
  function SignupResult(users: seq<User>, nextId: UserId, name: string, email: string, hashed: string)
    : (r: (SignupResponse, seq<User>))
    ensures r.0 == AlreadyExists <==> EmailTaken(users, Lower(email))
    ensures r.0 == SignupFailed <==>
      !EmailTaken(users, Lower(email)) && (Trim(name) == "" || email == "" || hashed == "")
    ensures r.0.Registered? ==>
      && r.0 == Registered(Token(nextId), PublicUser(nextId, Trim(name), Lower(email)))
      && r.1 == users + [User(nextId, Trim(name), Lower(email), hashed)]
    ensures !r.0.Registered? ==> r.1 == users
  {
    if FindByEmail(users, Lower(email)).Some? then (AlreadyExists, users)
    else
      var u := NewUser(nextId, name, email, hashed);
      match Save(users, u)
      case Err(_) => (SignupFailed, users)
      case Ok(saved) => (Registered(GenerateToken(u.id), Public(u)), saved)
  }

  /** Whatever the body, signup keeps the collection's invariant: in particular no two users share an email. */
  lemma SignupKeepsInvariant(users: seq<User>, nextId: UserId, name: string, email: string, hashed: string)
    requires StoreInvariant(users, nextId)
    ensures var r := SignupResult(users, nextId, name, email, hashed);
      StoreInvariant(r.1, if r.0.Registered? then nextId + 1 else nextId)
  {
    if !EmailTaken(users, Lower(email)) && Save(users, NewUser(nextId, name, email, hashed)).Ok? {
      SaveKeepsInvariant(users, nextId, name, email, hashed);
    }
  }

  /**
   * Once an email is registered, a second signup with the same email in any
   * letter case is answered 400 "User already exists" and adds no user.
   */
  lemma SignupCaseVariantRejected(users: seq<User>, nextId: UserId, name: string, email: string, hashed: string,
                                  name2: string, email2: string, hashed2: string)
    requires SignupResult(users, nextId, name, email, hashed).0.Registered?
    requires Lower(email2) == Lower(email)
    ensures var after := SignupResult(users, nextId, name, email, hashed).1;
      SignupResult(after, nextId + 1, name2, email2, hashed2) == (AlreadyExists, after)
  {
    var after := SignupResult(users, nextId, name, email, hashed).1;
    assert after[|users|].email == Lower(email2);
  }

  datatype LoginResponse =
    | LoggedIn(token: Token, user: PublicUser)
    | InvalidCredentials
    | LoginFailed

  /** The status code `loginUser` answers with. */
  function LoginStatus(r: LoginResponse): (status: int)
    ensures status == 200 <==> r.LoggedIn?
    ensures status == 401 <==> r == InvalidCredentials
    ensures status == 500 <==> r == LoginFailed
  {
    match r
    case LoggedIn(_, _) => 200
    case InvalidCredentials => 401
    case LoginFailed => 500
  }

  /** The `message` of the answer: the one generic text for every credential failure. */
  function LoginMessage(r: LoginResponse): (m: string)
    ensures m != ""
    ensures m == "Invalid email or password" <==> r == InvalidCredentials
    ensures m == "Server error" <==> r == LoginFailed
  {
    match r
    case LoggedIn(_, _) => "Login successful \U{1F389}"
    case InvalidCredentials => "Invalid email or password"
    case LoginFailed => "Server error"
  }

  /**
   * `loginUser` as written: the lookup lower-cases the email, and a found user
   * is then asked `user.matchPassword(password)`, a method the User schema does
   * not define; the call throws and the handler answers 500. No login succeeds.
   */
  function LoginAsWritten(users: seq<User>, email: string, password: string): (r: LoginResponse)
    ensures !r.LoggedIn?
    ensures r == InvalidCredentials <==> !EmailTaken(users, Lower(email))
  {
    match FindByEmail(users, Lower(email))
    case None => InvalidCredentials
    case Some(_) => LoginFailed
  }

  /**
   * `loginUser` with the password check it intends, `compare(password, hash)`
   * standing for `bcrypt.compare`: an unknown email and a wrong password give
   * the same 401, and a success carries a token for the user found.
   */
  function Login(users: seq<User>, email: string, password: string, compare: (string, string) -> bool)
    : (r: LoginResponse)
    ensures r != LoginFailed
    ensures !EmailTaken(users, Lower(email)) ==> r == InvalidCredentials
    ensures r.LoggedIn? ==>
      exists i :: 0 <= i < |users| && users[i].email == Lower(email) && compare(password, users[i].password)
        && r == LoggedIn(Token(users[i].id), Public(users[i]))
    ensures UniqueEmails(users) ==>
      forall i :: 0 <= i < |users| && users[i].email == Lower(email) ==>
        r == if compare(password, users[i].password)
             then LoggedIn(Token(users[i].id), Public(users[i]))
             else InvalidCredentials
  {
    match FindByEmail(users, Lower(email))
    case None => InvalidCredentials
    case Some(u) =>
      if !compare(password, u.password) then InvalidCredentials
      else LoggedIn(GenerateToken(u.id), Public(u))
  }

  /**
   * Under unique emails, a login is answered 401 "Invalid email or password"
   * exactly when the lower-cased email is unknown or the stored hash rejects
   * the password: the two failures cannot be told apart.
   */
  lemma LoginRejectsAlike(users: seq<User>, email: string, password: string, compare: (string, string) -> bool)
    requires UniqueEmails(users)
    ensures var r := Login(users, email, password, compare);
      && (LoginStatus(r) == 401 <==> LoginMessage(r) == "Invalid email or password")
      && (LoginStatus(r) == 401 <==>
            || !EmailTaken(users, Lower(email))
            || exists i :: 0 <= i < |users| && users[i].email == Lower(email) && !compare(password, users[i].password))
  {
    var r := Login(users, email, password, compare);
    if EmailTaken(users, Lower(email)) {
      var u := FindByEmail(users, Lower(email)).value;
      var i :| 0 <= i < |users| && users[i] == u;
      assert r == if compare(password, users[i].password) then LoggedIn(Token(users[i].id), Public(users[i]))
                  else InvalidCredentials;
    }
  }

  /**
   * Signing up and then logging in with the same credentials (in any letter
   * case) succeeds with a token for the new user, provided the hash comparison
   * accepts the password it hashed.
   */
  lemma SignupThenLogin(users: seq<User>, nextId: UserId, name: string, email: string, loginEmail: string,
                        password: string, hashed: string, compare: (string, string) -> bool)
    requires StoreInvariant(users, nextId)
    requires SignupResult(users, nextId, name, email, hashed).0.Registered?
    requires Lower(loginEmail) == Lower(email)
    requires compare(password, hashed)
    ensures Login(SignupResult(users, nextId, name, email, hashed).1, loginEmail, password, compare)
         == LoggedIn(Token(nextId), PublicUser(nextId, Trim(name), Lower(email)))
  {
    var after := SignupResult(users, nextId, name, email, hashed).1;
    SignupKeepsInvariant(users, nextId, name, email, hashed);
    assert after[|users|].email == Lower(loginEmail);
  }

  /** The same sign-up followed by the same login, through the login as written: the 500. */
  lemma SignupThenLoginAsWritten(users: seq<User>, nextId: UserId, name: string, email: string,
                                 password: string, hashed: string)
    requires StoreInvariant(users, nextId)
    requires SignupResult(users, nextId, name, email, hashed).0.Registered?
    ensures LoginAsWritten(SignupResult(users, nextId, name, email, hashed).1, email, password) == LoginFailed
  {
    var after := SignupResult(users, nextId, name, email, hashed).1;
    assert after[|users|].email == Lower(email);
  }

  /** The users collection behind the two endpoints. */
  class CredentialStore {
    var users: seq<User>
    var nextId: UserId

    ghost predicate Valid()
      reads this
    {
      StoreInvariant(users, nextId)
    }

    constructor ()
      ensures Valid() && users == []
    {
      users := [];
      nextId := 0;
    }

    /**
     * `signupUser`: look the email up (lower-cased by the query cast), hash the password with the
     * drawn salt, build the document and save it.
     */
    method Signup(name: string, email: string, password: string, salt: string,
                  hash: (string, string) -> string) returns (resp: SignupResponse)
      requires Valid()
      modifies this
      ensures Valid()
      ensures (resp, users) == SignupResult(old(users), old(nextId), name, email, hash(password, salt))
      ensures nextId == if resp.Registered? then old(nextId) + 1 else old(nextId)
    {
      ghost var expected := SignupResult(users, nextId, name, email, hash(password, salt));
      var existing := FindByEmail(users, Lower(email));
      if existing.Some? {
        assert expected == (AlreadyExists, users);
        return AlreadyExists;
      }
      var hashed := hash(password, salt);
      var u := NewUser(nextId, name, email, hashed);
      var saved := Save(users, u);
      if saved.Err? {
        assert expected == (SignupFailed, users);
        return SignupFailed;
      }
      resp := Registered(GenerateToken(u.id), Public(u));
      assert expected == (resp, saved.value);
      SaveKeepsInvariant(users, nextId, name, email, hashed);
      var after, next := saved.value, nextId + 1;
      assert StoreInvariant(after, next);
      users, nextId := after, next;
    }
  }
}
