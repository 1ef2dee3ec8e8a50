/**
 * The server's authentication handlers over the user collection: register,
 * login, getMe and updatePassword.
 *
 * bcrypt is modelled by its shape: a stored hash carries its cost factor
 * and its salt beside the digest, and comparing a password with a hash
 * recomputes the digest with that salt. The key-derivation function itself
 * is a parameter (`kdf`), and the salt each hashing call draws is a
 * parameter of the handler that hashes. A JSON Web Token is modelled by
 * its claims: the user id, the issue time and an expiry one hour later.
 */
module AuthController {
  import opened Wrappers

  type UserId = nat
  type Salt = seq<bv8>
  type Digest = seq<bv8>

  /** The password-hashing function behind bcrypt: (password, cost, salt) to digest. */
  type Kdf = (string, nat, Salt) -> Digest

  /** `bcrypt.genSalt(10)`. */
  const SaltRounds: nat := 10
  /** `expiresIn: '1h'`, in seconds. */
  const TokenLifetime: int := 3600

  const UserExists := "User already exists"
  const InvalidCredentials := "Invalid Credentials"
  const WrongCurrentPassword := "Current password is incorrect"
  const PasswordUpdated := "Password updated successfully"

  /** A bcrypt hash string: cost factor, salt and digest. */
  datatype PasswordHash = Bcrypt(cost: nat, salt: Salt, digest: Digest)

  /** `bcrypt.hash(password, salt)` with a salt of `SaltRounds` rounds. */
  function Hash(kdf: Kdf, password: string, salt: Salt): (h: PasswordHash)
    ensures h.cost == SaltRounds && h.salt == salt
  {
    Bcrypt(SaltRounds, salt, kdf(password, SaltRounds, salt))
  }

  /** `bcrypt.compare(password, h)`: rehash with the salt and cost stored in `h`. */
  predicate Compare(kdf: Kdf, password: string, h: PasswordHash) {
    kdf(password, h.cost, h.salt) == h.digest
  }

  /** The idealised assumption on the hash: two passwords never share a digest under one salt. */
  ghost predicate CollisionFree(kdf: Kdf) {
    forall p, q, c, s :: kdf(p, c, s) == kdf(q, c, s) ==> p == q
  }

  /**
   * A hash matches the password it was made from, whatever the salt; under
   * the idealised assumption it matches no other.
   */
  lemma CompareHash(kdf: Kdf, p: string, q: string, salt: Salt)
    ensures Compare(kdf, p, Hash(kdf, p, salt))
    ensures CollisionFree(kdf) ==> (Compare(kdf, p, Hash(kdf, q, salt)) <==> p == q)
  {
  }

  /** A stored user document. */
  datatype User = User(id: UserId, name: string, email: string, password: PasswordHash)

  /** The user as the API shows it: every field but the password. */
  datatype UserProfile = UserProfile(id: UserId, name: string, email: string)

  function ProfileOf(u: User): UserProfile {
    UserProfile(u.id, u.name, u.email)
  }

  /** The claims of a signed token: `{ user: { id } }` and its issue and expiry times. */
  datatype Token = Token(userId: UserId, issuedAt: int, expiresAt: int)

  /** `jwt.sign({ user: { id } }, secret, { expiresIn: '1h' })` at time `now`. */
  function Sign(id: UserId, now: int): (t: Token)
    ensures t.userId == id && t.issuedAt == now && t.expiresAt - t.issuedAt == TokenLifetime
  {
    Token(id, now, now + TokenLifetime)
  }

  /** One entry of `validationResult(req).array()`. */
  datatype FieldError = FieldError(path: string, msg: string)

  datatype ErrorBody = Msg(msg: string) | Errors(errors: seq<FieldError>)

  /** What a handler answers. */
  datatype Reply =
    | TokenReply(token: Token, user: UserProfile)   // 200 { token, user: { id, name, email } }
    | MessageReply(msg: string)                     // 200 { msg }
    | ErrorReply(status: int, body: ErrorBody)      // 400 { msg } or 400 { errors }
    | ServerError                                   // 500 'Server Error'

  /** No two users share an email. */
  ghost predicate UniqueEmails(users: seq<User>) {
    forall i, j :: 0 <= i < j < |users| ==> users[i].email != users[j].email
  }

  /** `User.findOne({ email })`: the first user with that email. */
  function FindByEmail(users: seq<User>, email: string): (r: Option<UserId>)
    ensures r.Some? ==> r.value < |users| && users[r.value].email == email
    ensures r.Some? ==> forall i :: 0 <= i < r.value ==> users[i].email != email
    ensures r.None? <==> forall i :: 0 <= i < |users| ==> users[i].email != email
  {
    if users == [] then None
    else if users[0].email == email then Some(0)
    else match FindByEmail(users[1..], email)
      case Some(i) => Some(i + 1)
      case None => None
  }

  /** The user collection. Users are never deleted, so a user's id is its position. */
  class UserTable {
    const kdf: Kdf
    var users: seq<User>

    ghost predicate Valid()
      reads this
    {
      && (forall i :: 0 <= i < |users| ==> users[i].id == i)
      && UniqueEmails(users)
    }

    constructor (kdf: Kdf)
      ensures Valid() && this.kdf == kdf && users == []
    {
      this.kdf := kdf;
      users := [];
    }

    /** POST /auth/register, after the route's validators have produced `errors`. */
    method Register(errors: seq<FieldError>, name: string, email: string, password: string, salt: Salt, now: int)
      returns (reply: Reply)
      requires Valid()
      modifies this
      ensures Valid()
      ensures errors != [] ==> reply == ErrorReply(400, Errors(errors)) && users == old(users)
      ensures errors == [] && (exists i :: 0 <= i < |old(users)| && old(users)[i].email == email) ==>
                reply == ErrorReply(400, Msg(UserExists)) && users == old(users)
      ensures errors == [] && (forall i :: 0 <= i < |old(users)| ==> old(users)[i].email != email) ==>
                var id := |old(users)|;
                && users == old(users) + [User(id, name, email, Hash(kdf, password, salt))]
                && Compare(kdf, password, users[id].password)
                && reply == TokenReply(Sign(id, now), UserProfile(id, name, email))
    {
      if errors != [] {
        return ErrorReply(400, Errors(errors));
      }
      if FindByEmail(users, email).Some? {
        return ErrorReply(400, Msg(UserExists));
      }
      var id := |users|;
      var user := User(id, name, email, Hash(kdf, password, salt));
      users := users + [user];
      CompareHash(kdf, password, password, salt);
      reply := TokenReply(Sign(user.id, now), ProfileOf(user));
    }

    /** POST /auth/login: one and the same answer for an unknown email and for a wrong password. */
    method Login(email: string, password: string, now: int) returns (reply: Reply)
      requires Valid()
      ensures reply.TokenReply? || reply == ErrorReply(400, Msg(InvalidCredentials))
      ensures reply.TokenReply? <==>
                exists i :: 0 <= i < |users| && users[i].email == email && Compare(kdf, password, users[i].password)
      ensures reply.TokenReply? ==>
                var id := reply.user.id;
                && id < |users| && users[id].email == email && Compare(kdf, password, users[id].password)
                && reply == TokenReply(Sign(id, now), ProfileOf(users[id]))
    {
      var found := FindByEmail(users, email);
      if found.None? {
        return ErrorReply(400, Msg(InvalidCredentials));
      }
      var user := users[found.value];
      var isMatch := Compare(kdf, password, user.password);
      if !isMatch {
        return ErrorReply(400, Msg(InvalidCredentials));
      }
      reply := TokenReply(Sign(user.id, now), ProfileOf(user));
    }

    /** GET /auth/me: the record without its password, or `null` when the id resolves to nobody. */
    method GetMe(id: UserId) returns (profile: Option<UserProfile>)
      requires Valid()
      ensures profile.Some? <==> id < |users|
      ensures profile.Some? ==> profile.value.id == id && profile.value == ProfileOf(users[id])
    {
      if id < |users| {
        profile := Some(ProfileOf(users[id]));
      } else {
        profile := None;
      }
    }

    /**
     * PUT /auth/update-password, after the route's validators have produced
     * `errors`; `oldPassword` is None when the body has no such key. No new
     * token is issued.
     */
    method UpdatePassword(errors: seq<FieldError>, id: UserId, oldPassword: Option<string>, newPassword: string, salt: Salt)
      returns (reply: Reply)
      requires Valid()
      modifies this
      ensures Valid()
      ensures errors != [] ==> reply == ErrorReply(400, Errors(errors)) && users == old(users)
      ensures errors == [] && (id >= |old(users)| || oldPassword.None?) ==> reply == ServerError && users == old(users)
      ensures errors == [] && id < |old(users)| && oldPassword.Some?
              && !Compare(kdf, oldPassword.value, old(users)[id].password) ==>
                reply == ErrorReply(400, Msg(WrongCurrentPassword)) && users == old(users)
      ensures errors == [] && id < |old(users)| && oldPassword.Some?
              && Compare(kdf, oldPassword.value, old(users)[id].password) ==>
                && users == old(users)[id := old(users)[id].(password := Hash(kdf, newPassword, salt))]
                && Compare(kdf, newPassword, users[id].password)
                && reply == MessageReply(PasswordUpdated)
    {
      if errors != [] {
        return ErrorReply(400, Errors(errors));
      }
      if id >= |users| {
        // findById yields null and reading its password throws: the catch answers 500
        return ServerError;
      }
      if oldPassword.None? {
        // bcrypt.compare refuses an undefined password: the catch answers 500
        return ServerError;
      }
      var user := users[id];
      var isMatch := Compare(kdf, oldPassword.value, user.password);
      if !isMatch {
        return ErrorReply(400, Msg(WrongCurrentPassword));
      }
      user := user.(password := Hash(kdf, newPassword, salt));
      users := users[id := user];
      CompareHash(kdf, newPassword, newPassword, salt);
      reply := MessageReply(PasswordUpdated);
    }
  }
}
