/** The user accounts (Backend/src/models/User.js): the two roles, the stored record, its
    validators and setters, and what `user.save()` does to the collection.

    Passwords are bcrypt's business. A save that modifies the password validates the
    plaintext and then stores the hash the `pre('save')` hook computes; the model takes that
    hash as a parameter (60 characters, as bcrypt produces). `comparePassword` is an oracle
    `check(candidate, storedHash)` supplied by the caller. */
module Identity {
  import opened Common
  import opened Text
  import Store
  import ErrorHandler

  // ---------------------------------------------------------------- roles

  /** The `enum` of the `role` path. */
  datatype Role = Admin | Coordinador

  /** The string a role is stored as. */
  function RoleName(role: Role): (s: string)
    ensures ParseRole(s) == Some(role)
  {
    match role
    case Admin => "admin"
    case Coordinador => "coordinador"
  }

  /** The enum validator: exactly the two names, compared as written (no case folding). */
  function ParseRole(s: string): (r: Option<Role>)
    ensures r == Some(Admin) <==> s == "admin"
    ensures r == Some(Coordinador) <==> s == "coordinador"
  {
    if s == "admin" then Some(Admin)
    else if s == "coordinador" then Some(Coordinador)
    else None
  }

  /** A stored role string names exactly one role, and it is that role's name. */
  lemma ParseRoleInverse(s: string)
    ensures ParseRole(s).Some? ==> RoleName(ParseRole(s).value) == s
    ensures ParseRole(s).None? ==> forall role: Role :: RoleName(role) != s
  {
    if ParseRole(s).None? {
      forall role: Role ensures RoleName(role) != s {
        assert ParseRole(RoleName(role)) == Some(role);
      }
    }
  }

  // ---------------------------------------------------------------- the record

  /** A user document. `password` holds the bcrypt hash once stored; during validation of a
      save that changed it, it holds the plaintext. */
  datatype User = User(
    username: string,
    email: string,
    password: string,
    firstName: Option<string>,
    lastName: string,
    role: string,
    isActive: bool,
    phone: Option<string>,
    lastlogin: Option<int>,
    createdBy: Option<Id>,
    updatedBy: Option<Id>)

  const USERNAME_MIN: nat := 3
  const USERNAME_MAX: nat := 50
  const PASSWORD_MIN: nat := 6
  const NAME_MAX: nat := 50
  /** The length of a bcrypt hash (`$2a$12$` and 53 characters of salt and digest). */
  const HASH_LENGTH: nat := 60

  /** `match: /^\d{10}$/`, which lets an empty string through. */
  predicate PhoneOk(phone: Option<string>) {
    phone.None? || phone.value == ""
    || (|phone.value| == 10 && forall i | 0 <= i < 10 :: IsDigit(phone.value[i]))
  }

  /** The paths whose validators fail, in schema order; a user that passes
      has one of the two roles and a password of at least six characters. The email pattern
      is not modelled: only `required` is. */
  function UserErrors(u: User): (r: seq<string>)
    ensures r == [] ==> ParseRole(u.role).Some? && |u.password| >= PASSWORD_MIN
  {
    (if USERNAME_MIN <= |u.username| <= USERNAME_MAX then [] else ["username"])
    + (if u.email != "" then [] else ["email"])
    + (if |u.password| >= PASSWORD_MIN then [] else ["password"])
    + (if u.firstName.None? || |u.firstName.value| <= NAME_MAX then [] else ["firstName"])
    + (if u.lastName != "" && |u.lastName| <= NAME_MAX then [] else ["lastName"])
    + (if ParseRole(u.role).Some? then [] else ["role"])
    + (if PhoneOk(u.phone) then [] else ["phone"])
  }

  /** A user passes validation exactly when every path does; a role outside the enum, a
      password under six characters and a phone that is not ten digits are each reported. */
  lemma UserErrorsSpec(u: User)
    ensures UserErrors(u) == [] <==>
      USERNAME_MIN <= |u.username| <= USERNAME_MAX && u.email != "" && |u.password| >= PASSWORD_MIN
      && (u.firstName.None? || |u.firstName.value| <= NAME_MAX)
      && u.lastName != "" && |u.lastName| <= NAME_MAX
      && (u.role == "admin" || u.role == "coordinador") && PhoneOk(u.phone)
    ensures "role" in UserErrors(u) <==> u.role != "admin" && u.role != "coordinador"
    ensures "password" in UserErrors(u) <==> |u.password| < PASSWORD_MIN
    ensures "phone" in UserErrors(u) <==> !PhoneOk(u.phone)
  {
  }

  /** The `email` setters, `trim` then `lowercase`. */
  function EmailSetter(email: string): (r: string)
    ensures Lower(r) == r
    ensures |r| <= |email|
  {
    LowerSpec(Trim(email));
    Lower(Trim(email))
  }

  // ---------------------------------------------------------------- the collection

  /** A stored user passed its validators, its email went through the setters (so it has no
      upper-case letter), and its password is a hash, never a plaintext shorter than one. */
  predicate StoredUser(u: User) {
    UserErrors(u) == [] && Lower(u.email) == u.email && |u.password| == HASH_LENGTH
  }

  /** Every stored user is valid, and usernames and emails are unique (the two unique indexes).
      So every stored account has one of the two roles, and an email or a username names at
      most one account. */
  predicate UsersOk(users: map<Id, User>)
    ensures UsersOk(users) ==> forall id | id in users :: ParseRole(users[id].role).Some?
    ensures UsersOk(users) ==> forall a, b | a in users && b in users && users[a].email == users[b].email :: a == b
    ensures UsersOk(users) ==> forall a, b | a in users && b in users && users[a].username == users[b].username :: a == b
  {
    (forall id | id in users :: StoredUser(users[id]))
    && (forall a, b | a in users && b in users && a != b ::
          users[a].username != users[b].username && users[a].email != users[b].email)
  }

  /** The users collection. */
  class Directory {
    var users: map<Id, User>

    predicate Valid()
      reads this
    {
      UsersOk(users)
    }

    constructor ()
      ensures Valid()
      ensures users == map[]
    {
      users := map[];
    }
  }

  /** What the save hook leaves in `password`: the hash when the password was modified. */
  function Hashed(u: User, hash: Option<string>): (r: User)
    ensures r.(password := u.password) == u
    ensures hash.Some? ==> r.password == hash.value
    ensures hash.None? ==> r == u
  {
    if hash.Some? then u.(password := hash.value) else u
  }

  /** `user.save()` of `u` under `id`: the validators (on the plaintext when `hash` is given,
      meaning the password was modified), then the hashing hook, then the unique indexes,
      username before email. */
  function UserSave(users: map<Id, User>, id: Id, u: User, hash: Option<string>): (r: Store.SaveResult<User>)
    ensures UserErrors(u) != [] ==> r == Store.Failed(ErrorHandler.ValidationError(UserErrors(u)))
    ensures r.Failed? ==> ErrorHandler.StatusOf(r.error) == BAD_REQUEST
    ensures r.Saved? ==> r.record == Hashed(u, hash)
    ensures r.Saved? <==> (UserErrors(u) == [] &&
      forall o | o in users && o != id :: users[o].username != u.username && users[o].email != u.email)
  {
    var errors := UserErrors(u);
    if errors != [] then Store.Failed(ErrorHandler.ValidationError(errors))
    else if exists o | o in users && o != id :: users[o].username == u.username then
      Store.Failed(ErrorHandler.DuplicateKey("username"))
    else if exists o | o in users && o != id :: users[o].email == u.email then
      Store.Failed(ErrorHandler.DuplicateKey("email"))
    else Store.Saved(Hashed(u, hash))
  }

  /** A successful save keeps the collection valid, provided the stored password ends up a
      hash and the email went through the setters. */
  lemma UserSaveKeepsValid(users: map<Id, User>, id: Id, u: User, hash: Option<string>)
    requires UsersOk(users)
    requires UserSave(users, id, u, hash).Saved?
    requires hash.Some? ==> |hash.value| == HASH_LENGTH
    requires hash.None? ==> |u.password| == HASH_LENGTH
    requires Lower(u.email) == u.email
    ensures UsersOk(users[id := UserSave(users, id, u, hash).record])
  {
    var saved := Hashed(u, hash);
    assert UserErrors(saved) == UserErrors(u) by {
      assert |saved.password| >= PASSWORD_MIN;
    }
  }

  /** A save that keeps username, email and password and whose record is valid always
      succeeds on a valid collection: no unique index can refuse it. */
  lemma SameIdentitySaves(users: map<Id, User>, id: Id, u: User)
    requires UsersOk(users)
    requires id in users
    requires u.username == users[id].username && u.email == users[id].email
    requires u.password == users[id].password
    requires UserErrors(u) == []
    ensures UserSave(users, id, u, None) == Store.Saved(u)
    ensures UsersOk(users[id := u])
  {
    UserSaveKeepsValid(users, id, u, None);
  }
}
