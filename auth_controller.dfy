/**
 * The account handlers: `register`, `login` and `getMe` over the user
 * collection. Password hashing, password comparison, the user document's own
 * field rules and token signing are passed in as functions.
 */
module AuthController {
  import opened Wrappers
  import opened Text
  import opened AuthGuard

  /** A stored user; `passwordHash` is what the store keeps in place of the password. */
  datatype User = User(id: nat, email: string, passwordHash: string, name: string)

  /** What the handlers send back about a user: no password of any kind. */
  datatype PublicUser = PublicUser(id: nat, email: string, name: string)

  function Public(u: User): (r: PublicUser)
    ensures r.id == u.id && r.email == u.email && r.name == u.name
  {
    PublicUser(u.id, u.email, u.name)
  }

  /** An account handler's answer. */
  datatype AuthReply =
    | Authenticated(status: nat, message: string, token: string, user: PublicUser)
    | Profile(user: PublicUser)
    | AuthFailed(status: nat, error: string)

  const MissingRegisterFields := AuthFailed(400, "Please provide email, password and name")
  const EmailTaken := AuthFailed(400, "User with this email already exists")
  const RegisterServerError := AuthFailed(500, "Server error during registration")
  const MissingLoginFields := AuthFailed(400, "Please provide email and password")
  const InvalidCredentials := AuthFailed(401, "Invalid credentials")
  const LoginServerError := AuthFailed(500, "Server error during login")
  const UserNotFound := AuthFailed(404, "User not found")

  /** The position of the user with exactly this email, if any. */
  function FindByEmail(users: seq<User>, email: string): (r: Option<nat>)
    ensures r.Some? ==> r.value < |users| && users[r.value].email == email
    ensures r.None? <==> forall i :: 0 <= i < |users| ==> users[i].email != email
  {
    if users == [] then None
    else if users[0].email == email then Some(0)
    else
      var rest := FindByEmail(users[1..], email);
      if rest.None? then None else Some(rest.value + 1)
  }

  /** The position of the user with this id, if any. */
  function FindById(users: seq<User>, id: nat): (r: Option<nat>)
    ensures r.Some? ==> r.value < |users| && users[r.value].id == id
    ensures r.None? <==> forall i :: 0 <= i < |users| ==> users[i].id != id
  {
    if users == [] then None
    else if users[0].id == id then Some(0)
    else
      var rest := FindById(users[1..], id);
      if rest.None? then None else Some(rest.value + 1)
  }

  /** The user collection, with a supply of fresh ids. */
  class UserRegistry {
    var users: seq<User>
    var nextId: nat

    /** Ids are fresh and unique, and no two users share an email. */
    ghost predicate Valid()
      reads this
    {
      && (forall i :: 0 <= i < |users| ==> users[i].id < nextId)
      && (forall i, j :: 0 <= i < j < |users| ==> users[i].id != users[j].id && users[i].email != users[j].email)
    }

    constructor ()
      ensures Valid() && users == [] && nextId == 0
    {
      users := [];
      nextId := 0;
    }

    /**
     * `register`: 400 when a field is missing or empty; 400 when the email
     * is taken; 400 with the user document's rule messages joined by ", "
     * when it breaks them; otherwise exactly one user is added, holding the
     * hashed password, and a token is issued for its id and email. When
     * signing fails (no signing secret) the user is already stored and the
     * answer is 500.
     */
    method Register(email: Option<string>, password: Option<string>, name: Option<string>,
                    hash: string -> string, rules: (string, string, string) -> seq<string>,
                    sign: Identity -> Option<string>)
      returns (reply: AuthReply)
      requires Valid()
      modifies this
      ensures Valid()
      ensures !Truthy(email) || !Truthy(password) || !Truthy(name) ==>
        reply == MissingRegisterFields && users == old(users) && nextId == old(nextId)
      ensures Truthy(email) && Truthy(password) && Truthy(name) ==>
        if FindByEmail(old(users), email.value).Some? then
          reply == EmailTaken && users == old(users) && nextId == old(nextId)
        else if rules(email.value, password.value, name.value) != [] then
          reply == AuthFailed(400, Join(rules(email.value, password.value, name.value), ", "))
          && users == old(users) && nextId == old(nextId)
        else
          var u := User(old(nextId), email.value, hash(password.value), name.value);
          && users == old(users) + [u] && nextId == old(nextId) + 1
          && reply == match sign(Identity(u.id, u.email))
                      case None => RegisterServerError
                      case Some(t) => Authenticated(201, "User registered successfully", t, Public(u))
    {
      if !Truthy(email) || !Truthy(password) || !Truthy(name) {
        return MissingRegisterFields;
      }
      var existing := FindByEmail(users, email.value);
      if existing.Some? {
        return EmailTaken;
      }
      var problems := rules(email.value, password.value, name.value);
      if problems != [] {
        return AuthFailed(400, Join(problems, ", "));
      }
      var u := User(nextId, email.value, hash(password.value), name.value);
      users := users + [u];
      nextId := nextId + 1;
      var token := sign(Identity(u.id, u.email));
      if token.None? {
        return RegisterServerError;
      }
      reply := Authenticated(201, "User registered successfully", token.value, Public(u));
    }

    /**
     * `login`: 400 when a field is missing or empty; the same 401 for an
     * unknown email and for a wrong password; otherwise a token for the
     * stored user's id and email. Nothing is changed.
     */
    method Login(email: Option<string>, password: Option<string>,
                 matches: (string, string) -> bool, sign: Identity -> Option<string>)
      returns (reply: AuthReply)
      ensures !Truthy(email) || !Truthy(password) ==> reply == MissingLoginFields
      ensures Truthy(email) && Truthy(password) && FindByEmail(users, email.value).None? ==>
        reply == InvalidCredentials
      ensures Truthy(email) && Truthy(password) && FindByEmail(users, email.value).Some? ==>
        var u := users[FindByEmail(users, email.value).value];
        if !matches(password.value, u.passwordHash) then reply == InvalidCredentials
        else reply == match sign(Identity(u.id, u.email))
                      case None => LoginServerError
                      case Some(t) => Authenticated(200, "Login successful", t, Public(u))
      ensures reply.Authenticated? ==> exists i :: 0 <= i < |users| && reply.user == Public(users[i]) && users[i].email == email.value
    {
      if !Truthy(email) || !Truthy(password) {
        return MissingLoginFields;
      }
      var k := FindByEmail(users, email.value);
      if k.None? {
        return InvalidCredentials;
      }
      var u := users[k.value];
      var isMatch := matches(password.value, u.passwordHash);
      if !isMatch {
        return InvalidCredentials;
      }
      var token := sign(Identity(u.id, u.email));
      if token.None? {
        return LoginServerError;
      }
      reply := Authenticated(200, "Login successful", token.value, Public(u));
    }

    /** `getMe`: the public view of the guard's user, or 404 when that id no longer resolves (or is absent). */
    method GetMe(id: Option<nat>) returns (reply: AuthReply)
      ensures id.None? || FindById(users, id.value).None? <==> reply == UserNotFound
      ensures reply.Profile? ==> id.Some? && exists i :: 0 <= i < |users| && users[i].id == id.value && reply.user == Public(users[i])
      ensures reply.Profile? || reply == UserNotFound
    {
      if id.None? {
        return UserNotFound;
      }
      var k := FindById(users, id.value);
      if k.None? {
        return UserNotFound;
      }
      reply := Profile(Public(users[k.value]));
    }
  }

  /**
   * Registering the same email twice: the first call stores the user (its
   * answer is 201, or 500 when signing fails), the second is refused, and
   * the collection grows by exactly one.
   */
  method RegisterTwice(reg: UserRegistry, email: string, password: string, name: string,
                       hash: string -> string, rules: (string, string, string) -> seq<string>,
                       sign: Identity -> Option<string>)
    returns (first: AuthReply, second: AuthReply)
    requires reg.Valid()
    requires email != [] && password != [] && name != []
    requires FindByEmail(reg.users, email).None? && rules(email, password, name) == []
    modifies reg
    ensures reg.Valid() && |reg.users| == |old(reg.users)| + 1
    ensures first.Authenticated? || first == RegisterServerError
    ensures first.Authenticated? ==> first.status == 201 && first.user.email == email && first.user.name == name
    ensures second == EmailTaken
  {
    first := reg.Register(Some(email), Some(password), Some(name), hash, rules, sign);
    assert reg.users[|reg.users| - 1].email == email;
    second := reg.Register(Some(email), Some(password), Some(name), hash, rules, sign);
  }

  /**
   * With a hash that the comparison accepts and a working signer, a user
   * who has just registered can log in with the same email and password,
   * and is answered with the same public view.
   */
  method RegisterThenLogin(reg: UserRegistry, email: string, password: string, name: string,
                           hash: string -> string, matches: (string, string) -> bool,
                           rules: (string, string, string) -> seq<string>,
                           sign: Identity -> Option<string>)
    returns (registered: AuthReply, loggedIn: AuthReply)
    requires reg.Valid()
    requires email != [] && password != [] && name != []
    requires FindByEmail(reg.users, email).None? && rules(email, password, name) == []
    requires matches(password, hash(password))
    requires forall p :: sign(p).Some?
    modifies reg
    ensures registered.Authenticated? && loggedIn.Authenticated?
    ensures loggedIn.user == registered.user && loggedIn.token == registered.token
  {
    registered := reg.Register(Some(email), Some(password), Some(name), hash, rules, sign);
    var last := |reg.users| - 1;
    assert reg.users[last].email == email;
    assert FindByEmail(reg.users, email) == Some(last);
    loggedIn := reg.Login(Some(email), Some(password), matches, sign);
  }
}
