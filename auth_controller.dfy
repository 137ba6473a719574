/**
 * Registration and the two login handlers.  Users are stored by their
 * lower-cased e-mail; password hashing (`hash`), hash comparison
 * (`matches`) and token signing (`sign`, `None` when it throws) are
 * parameters standing for bcrypt and jsonwebtoken.
 */
module AuthController {
  import opened Wrappers
  import opened Strings
  import opened Js

  datatype User = User(id: string, name: string, email: string, passwordHash: string, role: string, blocked: bool)

  /** The public view of a user: both the token claims and the `user` of a reply. */
  datatype Profile = Profile(id: string, name: string, email: string, role: string)

  datatype Reply = Failure(status: int, message: string) | Success(status: int, token: string, user: Profile)

  const AllRequired := "All fields are required"
  const Exists := "User already exists"
  const RegisterError := "Server error during registration"
  const CredentialsRequired := "Email and password are required"
  const InvalidCredentials := "Invalid email or password"
  const Blocked := "Your account is blocked. Please contact admin."
  const LoginError := "Server error during login"
  const NotAdmin := "Access denied: Not an admin or user not found"
  const AdminLoginError := "Server error during admin login"

  function ProfileOf(u: User): Profile {
    Profile(u.id, u.name, u.email, u.role)
  }

  /** Sign the claims of `u` and answer with the token and the same claims as `user`. */
  function Issue(status: int, u: User, sign: Profile -> Option<string>, error: string): (r: Reply)
    ensures r.Success? <==> sign(ProfileOf(u)).Some?
    ensures r.Success? ==> r == Success(status, sign(ProfileOf(u)).value, ProfileOf(u))
    ensures r.Failure? ==> r == Failure(500, error)
  {
    match sign(ProfileOf(u))
    case Some(t) => Success(status, t, ProfileOf(u))
    case None => Failure(500, error)
  }

  /** `role === 'admin' ? 'admin' : 'user'`. */
  function StoredRole(role: Option<string>): (r: string)
    ensures r == "admin" <==> role == Some("admin")
    ensures r == "admin" || r == "user"
  {
    if role == Some("admin") then "admin" else "user"
  }

  /** The users, keyed by stored e-mail; every stored e-mail is lower-case. */
  ghost predicate Valid(users: map<string, User>) {
    forall e :: e in users ==> users[e].email == e && ToLower(e) == e
  }

  /** What `register` decides: the reply, and the user it inserts (if any). */
  datatype Registration = Registration(reply: Reply, inserted: Option<User>)

  function RegisterDecision(users: map<string, User>, name: Option<string>, email: Option<string>,
                            password: Option<string>, role: Option<string>, newId: string,
                            hash: string -> string, sign: Profile -> Option<string>): (d: Registration)
    ensures !Truthy(name) || !Truthy(email) || !Truthy(password) ==>
      d == Registration(Failure(400, AllRequired), None)
    ensures Truthy(name) && Truthy(email) && Truthy(password) && ToLower(email.value) in users ==>
      d == Registration(Failure(400, Exists), None)
    ensures d.inserted.Some? <==>
      Truthy(name) && Truthy(email) && Truthy(password) && ToLower(email.value) !in users
    ensures d.inserted.Some? ==>
      && d.inserted.value == User(newId, name.value, ToLower(email.value), hash(password.value), StoredRole(role), false)
      && d.reply == Issue(201, d.inserted.value, sign, RegisterError)
  {
    if !Truthy(name) || !Truthy(email) || !Truthy(password) then
      Registration(Failure(400, AllRequired), None)
    else if ToLower(email.value) in users then
      Registration(Failure(400, Exists), None)
    else
      var u := User(newId, name.value, ToLower(email.value), hash(password.value), StoredRole(role), false);
      Registration(Issue(201, u, sign, RegisterError), Some(u))
  }

  /** `login`: missing field 400, unknown e-mail 401, blocked 403, wrong password 401. */
  function Login(users: map<string, User>, email: Option<string>, password: Option<string>,
                 matches: (string, string) -> bool, sign: Profile -> Option<string>): (r: Reply)
    ensures !Truthy(email) || !Truthy(password) ==> r == Failure(400, CredentialsRequired)
    ensures Truthy(email) && Truthy(password) && ToLower(email.value) !in users ==>
      r == Failure(401, InvalidCredentials)
    ensures Truthy(email) && Truthy(password) && ToLower(email.value) in users ==>
      var u := users[ToLower(email.value)];
      && (u.blocked ==> r == Failure(403, Blocked))
      && (!u.blocked && !matches(password.value, u.passwordHash) ==> r == Failure(401, InvalidCredentials))
      && (!u.blocked && matches(password.value, u.passwordHash) ==> r == Issue(200, u, sign, LoginError))
    ensures r.Success? ==>
      && Truthy(email) && Truthy(password) && ToLower(email.value) in users
      && var u := users[ToLower(email.value)];
         && !u.blocked && matches(password.value, u.passwordHash)
         && r == Success(200, sign(ProfileOf(u)).value, ProfileOf(u))
  {
    if !Truthy(email) || !Truthy(password) then Failure(400, CredentialsRequired)
    else
      var key := ToLower(email.value);
      if key !in users then Failure(401, InvalidCredentials)
      else if users[key].blocked then Failure(403, Blocked)
      else if !matches(password.value, users[key].passwordHash) then Failure(401, InvalidCredentials)
      else Issue(200, users[key], sign, LoginError)
  }

  /** `adminLogin`: an unknown user or a non-admin is refused (403) before the blocked and
      password checks. */
  function AdminLogin(users: map<string, User>, email: Option<string>, password: Option<string>,
                      matches: (string, string) -> bool, sign: Profile -> Option<string>): (r: Reply)
    ensures !Truthy(email) || !Truthy(password) ==> r == Failure(400, CredentialsRequired)
    ensures Truthy(email) && Truthy(password)
            && (ToLower(email.value) !in users || users[ToLower(email.value)].role != "admin") ==>
      r == Failure(403, NotAdmin)
    ensures Truthy(email) && Truthy(password) && ToLower(email.value) in users
            && users[ToLower(email.value)].role == "admin" ==>
      var u := users[ToLower(email.value)];
      && (u.blocked ==> r == Failure(403, Blocked))
      && (!u.blocked && !matches(password.value, u.passwordHash) ==> r == Failure(401, InvalidCredentials))
      && (!u.blocked && matches(password.value, u.passwordHash) ==> r == Issue(200, u, sign, AdminLoginError))
    ensures r.Success? ==>
      && Truthy(email) && Truthy(password) && ToLower(email.value) in users
      && var u := users[ToLower(email.value)];
         && u.role == "admin" && !u.blocked && matches(password.value, u.passwordHash)
         && r == Success(200, sign(ProfileOf(u)).value, ProfileOf(u))
  {
    if !Truthy(email) || !Truthy(password) then Failure(400, CredentialsRequired)
    else
      var key := ToLower(email.value);
      if key !in users || users[key].role != "admin" then Failure(403, NotAdmin)
      else if users[key].blocked then Failure(403, Blocked)
      else if !matches(password.value, users[key].passwordHash) then Failure(401, InvalidCredentials)
      else Issue(200, users[key], sign, AdminLoginError)
  }

  /** A blocked user is refused with 403 whether or not the password is right. */
  lemma BlockedBeatsPassword(users: map<string, User>, email: string, password: string,
                             matches: (string, string) -> bool, matches': (string, string) -> bool,
                             sign: Profile -> Option<string>)
    requires email != "" && password != "" && ToLower(email) in users && users[ToLower(email)].blocked
    ensures Login(users, Some(email), Some(password), matches, sign) == Failure(403, Blocked)
    ensures Login(users, Some(email), Some(password), matches', sign) == Failure(403, Blocked)
  {
  }

  /** With both fields given, the 401 reply is the same for an unknown e-mail as for a wrong
      password, so a client cannot tell which one failed. */
  lemma UnknownAndWrongPasswordAlike(users: map<string, User>, email: string, password: string,
                                     matches: (string, string) -> bool, sign: Profile -> Option<string>)
    requires email != "" && password != ""
    ensures var r := Login(users, Some(email), Some(password), matches, sign);
      r == Failure(401, InvalidCredentials) <==>
        ToLower(email) !in users ||
        (!users[ToLower(email)].blocked && !matches(password, users[ToLower(email)].passwordHash))
  {
  }

  /** adminLogin refuses an unknown user or a non-admin with 403, whatever the blocked flag,
      the password and the signer. */
  lemma NonAdminRefusedFirst(users: map<string, User>, email: string, password: string,
                             matches: (string, string) -> bool, sign: Profile -> Option<string>)
    requires email != "" && password != ""
    requires ToLower(email) !in users || users[ToLower(email)].role != "admin"
    ensures AdminLogin(users, Some(email), Some(password), matches, sign) == Failure(403, NotAdmin)
  {
  }

  /** Whatever an admin login grants, a plain login grants too, with the same claims. */
  lemma AdminLoginImpliesLogin(users: map<string, User>, email: Option<string>, password: Option<string>,
                               matches: (string, string) -> bool, sign: Profile -> Option<string>)
    requires AdminLogin(users, email, password, matches, sign).Success?
    ensures Login(users, email, password, matches, sign) == AdminLogin(users, email, password, matches, sign)
  {
  }

  /** The e-mail is matched without regard to case. */
  lemma LoginIgnoresEmailCase(users: map<string, User>, email: string, email': string, password: Option<string>,
                              matches: (string, string) -> bool, sign: Profile -> Option<string>)
    requires ToLower(email) == ToLower(email') && email != "" && email' != ""
    ensures Login(users, Some(email), password, matches, sign) == Login(users, Some(email'), password, matches, sign)
    ensures AdminLogin(users, Some(email), password, matches, sign) == AdminLogin(users, Some(email'), password, matches, sign)
  {
  }

  /** The user store. */
  class UserStore {
    var users: map<string, User>

    constructor ()
      ensures users == map[] && Valid(users)
    {
      users := map[];
    }

    /**
     * `register`: the user is saved before the token is signed, so a
     * signing failure still leaves the new user stored.
     */
    method Register(name: Option<string>, email: Option<string>, password: Option<string>,
                    role: Option<string>, newId: string, hash: string -> string,
                    sign: Profile -> Option<string>) returns (r: Reply)
      requires Valid(users)
      modifies this
      ensures Valid(users)
      ensures var d := RegisterDecision(old(users), name, email, password, role, newId, hash, sign);
        && r == d.reply
        && users == if d.inserted.Some? then old(users)[d.inserted.value.email := d.inserted.value] else old(users)
    {
      var d := RegisterDecision(users, name, email, password, role, newId, hash, sign);
      if d.inserted.Some? {
        var u := d.inserted.value;
        ToLowerIdempotent(email.value);
        users := users[u.email := u];
      }
      r := d.reply;
    }
  }

  /** After a successful registration, logging in with the same password and any casing of the
      e-mail issues a token for the stored user, with a lower-cased e-mail and normalised role. */
  lemma RegisterThenLogin(users: map<string, User>, name: string, email: string, email': string,
                          password: string, role: Option<string>, newId: string,
                          hash: string -> string, matches: (string, string) -> bool,
                          sign: Profile -> Option<string>)
    requires Valid(users)
    requires name != "" && email != "" && password != "" && ToLower(email) !in users
    requires ToLower(email') == ToLower(email)
    requires matches(password, hash(password))
    requires sign(Profile(newId, name, ToLower(email), StoredRole(role))).Some?
    ensures var d := RegisterDecision(users, Some(name), Some(email), Some(password), role, newId, hash, sign);
      && d.inserted.Some?
      && (var users' := users[d.inserted.value.email := d.inserted.value];
          && Valid(users')
          && Login(users', Some(email'), Some(password), matches, sign)
             == Success(200, sign(Profile(newId, name, ToLower(email), StoredRole(role))).value,
                        Profile(newId, name, ToLower(email), StoredRole(role))))
  {
    var d := RegisterDecision(users, Some(name), Some(email), Some(password), role, newId, hash, sign);
    var u := d.inserted.value;
    ToLowerIdempotent(email);
    InsertKeepsValid(users, u);
    assert |email'| == |ToLower(email')|;
    LoginStored(users[u.email := u], email', password, u, matches, sign);
  }

  /** Storing a user under its own lower-case e-mail keeps the store valid. */
  lemma InsertKeepsValid(users: map<string, User>, u: User)
    requires Valid(users) && ToLower(u.email) == u.email
    ensures Valid(users[u.email := u])
  {
  }

  /** A stored, unblocked user with the right password gets a token for its own profile,
      whatever the casing of the e-mail it logs in with. */
  lemma LoginStored(users: map<string, User>, email: string, password: string, u: User,
                    matches: (string, string) -> bool, sign: Profile -> Option<string>)
    requires email != "" && password != ""
    requires ToLower(email) in users && users[ToLower(email)] == u
    requires !u.blocked && matches(password, u.passwordHash) && sign(ProfileOf(u)).Some?
    ensures Login(users, Some(email), Some(password), matches, sign)
      == Success(200, sign(ProfileOf(u)).value, ProfileOf(u))
  {
  }
}
