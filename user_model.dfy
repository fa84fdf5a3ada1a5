/**
 * The User schema (`User.js`): the setters applied when a document is built
 * (`trim` on name, `lowercase` on email), the `required` validators, the unique
 * index on email, and the `findOne({ email })` query the controller runs.
 */
module UserModel {
  import opened Wrappers
  import opened Text

  type UserId = nat

  /** A stored user; `password` holds the bcrypt hash, never the plain text. */
  datatype User = User(id: UserId, name: string, email: string, password: string)

  /** `new User({ name, email, password })`: the schema's setters trim the name and lowercase the email. */
  function NewUser(id: UserId, name: string, email: string, password: string): (u: User)
    ensures u.id == id && u.password == password
    ensures u.name == Trim(name) && u.email == Lower(email)
    ensures IsTrimmed(u.name) && IsLower(u.email)
    ensures IsTrimmed(name) ==> u.name == name
    ensures IsLower(email) ==> u.email == email
  {
    User(id, Trim(name), Lower(email), password)
  }

  /** The three `required: true` validators: no field is missing or empty. */
  predicate HasRequired(u: User) {
    u.name != "" && u.email != "" && u.password != ""
  }

  /**
   * The setters run before the validators: a name of only white space fails
   * `required`, and an email or password fails it only when empty.
   */
  lemma RequiredAfterSetters(id: UserId, name: string, email: string, password: string)
    ensures HasRequired(NewUser(id, name, email, password)) <==> Trim(name) != "" && email != "" && password != ""
  {
  }

  /** What the schema guarantees of every stored user. */
  predicate WellFormed(u: User) {
    HasRequired(u) && IsTrimmed(u.name) && IsLower(u.email)
  }

  predicate EmailTaken(users: seq<User>, email: string) {
    exists i :: 0 <= i < |users| && users[i].email == email
  }

  /** The unique index on email. */
  predicate UniqueEmails(users: seq<User>) {
    forall i, j :: 0 <= i < j < |users| ==> users[i].email != users[j].email
  }

  /** The invariant of the users collection; `nextId` is the identity the next document receives. */
  predicate StoreInvariant(users: seq<User>, nextId: UserId) {
    && UniqueEmails(users)
    && (forall i :: 0 <= i < |users| ==> WellFormed(users[i]) && users[i].id < nextId)
    && (forall i, j :: 0 <= i < j < |users| ==> users[i].id != users[j].id)
  }

  /** Why `save()` threw. */
  datatype SaveError = ValidationFailed | DuplicateKey

  /** `save()`: schema validation first, then the unique index; on success the document is appended. */
  function Save(users: seq<User>, u: User): (r: Result<seq<User>, SaveError>)
    ensures r == Err(ValidationFailed) <==> !HasRequired(u)
    ensures r.Ok? <==> HasRequired(u) && !EmailTaken(users, u.email)
    ensures r.Ok? ==> r.value == users + [u]
  {
    if !HasRequired(u) then Err(ValidationFailed)
    else if EmailTaken(users, u.email) then Err(DuplicateKey)
    else Ok(users + [u])
  }

  /** A document built by the schema and accepted by `save()` keeps the collection's invariant. */
  lemma SaveKeepsInvariant(users: seq<User>, nextId: UserId, name: string, email: string, password: string)
    requires StoreInvariant(users, nextId)
    requires Save(users, NewUser(nextId, name, email, password)).Ok?
    ensures StoreInvariant(Save(users, NewUser(nextId, name, email, password)).value, nextId + 1)
  {
    var u := NewUser(nextId, name, email, password);
    var after := users + [u];
    forall i, j | 0 <= i < j < |after| ensures after[i].email != after[j].email {
      if j == |users| {
        assert after[i] == users[i];
      }
    }
  }

  /** `User.findOne({ email })`: the first user with exactly this email. */
  function FindByEmail(users: seq<User>, email: string): (r: Option<User>)
    ensures r.None? <==> !EmailTaken(users, email)
    ensures r.Some? ==> r.value in users && r.value.email == email
    ensures UniqueEmails(users) ==>
      forall i :: 0 <= i < |users| && users[i].email == email ==> r == Some(users[i])
  {
    if users == [] then None
    else if users[0].email == email then Some(users[0])
    else
      var r := FindByEmail(users[1..], email);
      assert forall i :: 1 <= i < |users| ==> users[i] == users[1..][i - 1];
      assert UniqueEmails(users) ==> UniqueEmails(users[1..]);
      r
  }
}
