/** The public authentication routes over the user collection, which is
    looked up by email: registration of a new user and login, which issues
    the claims of a signed token. */
module AuthRoutes {
  import opened Common

  /** A User document as these routes use it. `password` is the secret
      the User model receives; how that model hashes it is not part of
      this model, and neither is its password comparison. */
  datatype User = User(id: UserId, name: string, email: string, password: string)

  /** The user collection, keyed by email (`User.findOne({email})`). */
  type Users = map<string, User>

  /** Every user is filed under its own email and no two share an `_id`. */
  ghost predicate WellFormed(t: Users) {
    && (forall e | e in t :: t[e].email == e)
    && (forall e1, e2 | e1 in t && e2 in t && e1 != e2 :: t[e1].id != t[e2].id)
  }

  /** The user object a registration answers with: no password. */
  datatype Summary = Summary(id: UserId, name: string, email: string)

  /** The user collection after a registration, with its answer. */
  datatype Registration = Registration(users: Users, result: Result<Summary>)

  /** The public view of a stored user. */
  function Summarize(u: User): Summary {
    Summary(u.id, u.name, u.email)
  }

  /** Some user already has the document id `id`. */
  predicate IdInUse(t: Users, id: UserId) {
    exists e | e in t :: t[e].id == id
  }

  /** POST /register: a known email is refused with "User already exists"
      and nothing stored; otherwise the user is saved under the fresh `id`
      (a clash is the duplicate-key failure, answered 500). */
  function Register(t: Users, name: string, email: string, password: string, id: UserId): (r: Registration)
    ensures r.result == Err(UserExists) <==> email in t
    ensures email !in t && IdInUse(t, id) ==> r.result == Err(ServerError)
    ensures r.result.Ok? <==> email !in t && !IdInUse(t, id)
    ensures r.result.Err? ==> r.users == t
    ensures r.result.Ok? ==>
      && r.users == t[email := User(id, name, email, password)]
      && |r.users| == |t| + 1
      && r.result.value == Summarize(r.users[email])
    ensures WellFormed(t) ==> WellFormed(r.users)
  {
    if email in t then Registration(t, Err(UserExists))
    else if IdInUse(t, id) then Registration(t, Err(ServerError))
    else Registration(t[email := User(id, name, email, password)], Ok(Summary(id, name, email)))
  }

  /** The `expiresIn: "24h"` of a login token, in seconds. */
  const TokenLifetime: nat := 24 * 60 * 60

  /** The payload `{user: {id}}` of a login token, with its lifetime. */
  datatype Claims = Claims(user: UserId, expiresIn: nat)

  /** POST /login: an unknown email and a wrong password both answer
      "Invalid credentials"; a match yields the user's token claims.
      `matches(stored, given)` stands for the User model's password check. */
  function Login(t: Users, email: string, password: string, matches: (string, string) -> bool): (r: Result<Claims>)
    ensures r.Ok? <==> email in t && matches(t[email].password, password)
    ensures r.Err? ==> r.error == InvalidCredentials && r.error.Status() == 400
    ensures r.Ok? ==> r.value.user == t[email].id && r.value.expiresIn == 86400
  {
    if email !in t then Err(InvalidCredentials)
    else if !matches(t[email].password, password) then Err(InvalidCredentials)
    else Ok(Claims(t[email].id, TokenLifetime))
  }

  /** An unknown email and a wrong password are indistinguishable: both
      attempts get the identical answer. */
  lemma LoginFailuresAlike(t: Users, unknown: string, p1: string, known: string, p2: string, matches: (string, string) -> bool)
    requires unknown !in t
    requires known in t && !matches(t[known].password, p2)
    ensures Login(t, unknown, p1, matches) == Login(t, known, p2, matches)
  {
  }

  /** A second registration of the same email is refused whatever its
      other fields, and leaves the collection as the first one left it. */
  lemma RegisterTwiceRejected(t: Users, name: string, email: string, password: string, id: UserId,
                              name2: string, password2: string, id2: UserId)
    requires Register(t, name, email, password, id).result.Ok?
    ensures var t1 := Register(t, name, email, password, id).users;
      Register(t1, name2, email, password2, id2) == Registration(t1, Err(UserExists))
  {
  }

  /** Registering and then logging in with the same password issues a
      token for the newly created user, valid for 24 hours. */
  lemma RegisterThenLogin(t: Users, name: string, email: string, password: string, id: UserId,
                          matches: (string, string) -> bool)
    requires Register(t, name, email, password, id).result.Ok?
    requires matches(password, password)
    ensures Login(Register(t, name, email, password, id).users, email, password, matches)
      == Ok(Claims(id, TokenLifetime))
  {
  }
}
