/**
 * The authentication routes: which validators and which authentication gate
 * guard each handler, and the express-validator rules themselves.
 *
 * The validator library is abstract here: its email check and the four
 * character classes that `isStrongPassword` counts are parameters
 * (`Validators`). What the routes fix is the policy built from them: at
 * least 8 characters with at least one lower-case letter, one upper-case
 * letter, one number and one symbol, for `password` at registration and
 * for `newPassword` at password update alike.
 */
module AuthRoutes {
  import opened Wrappers
  import AC = AuthController

  /** The character classes the strength check counts. */
  datatype CharClasses = CharClasses(lower: char -> bool, upper: char -> bool, digit: char -> bool, symbol: char -> bool)

  /** The library checks the rules call. */
  datatype Validators = Validators(isEmail: string -> bool, classes: CharClasses)

  /** The options object given to `isStrongPassword`. */
  datatype StrongOptions = StrongOptions(minLength: nat, minLowercase: nat, minUppercase: nat, minNumbers: nat, minSymbols: nat)

  const PasswordOptions := StrongOptions(8, 1, 1, 1, 1)
  const PasswordMessage := "Password must be 8+ chars, include uppercase, lowercase, number, and special char"

  /** Number of characters of `s` in class `p`. */
  function Count(s: string, p: char -> bool): (n: nat)
    ensures n <= |s|
  {
    if s == [] then 0 else (if p(s[0]) then 1 else 0) + Count(s[1..], p)
  }

  /** A class is counted at least once exactly when some character of `s` is in it. */
  lemma {:induction false} CountPositiveIff(s: string, p: char -> bool)
    ensures Count(s, p) >= 1 <==> exists i :: 0 <= i < |s| && p(s[i])
  {
    if s != [] {
      CountPositiveIff(s[1..], p);
      if exists i :: 0 <= i < |s| && p(s[i]) {
        var i :| 0 <= i < |s| && p(s[i]);
        if i > 0 {
          assert p(s[1..][i - 1]);
        }
      }
      if exists i :: 0 <= i < |s[1..]| && p(s[1..][i]) {
        var i :| 0 <= i < |s[1..]| && p(s[1..][i]);
        assert p(s[i + 1]);
      }
    }
  }

  /** `isStrongPassword(s, opts)`: the length and every class count reach their minimum. */
  predicate IsStrongPassword(cc: CharClasses, opts: StrongOptions, s: string) {
    && |s| >= opts.minLength
    && Count(s, cc.lower) >= opts.minLowercase
    && Count(s, cc.upper) >= opts.minUppercase
    && Count(s, cc.digit) >= opts.minNumbers
    && Count(s, cc.symbol) >= opts.minSymbols
  }

  /** The password policy of these routes, stated as occurrences rather than counts. */
  lemma PasswordPolicy(cc: CharClasses, s: string)
    ensures IsStrongPassword(cc, PasswordOptions, s) <==>
              && |s| >= 8
              && (exists i :: 0 <= i < |s| && cc.lower(s[i]))
              && (exists i :: 0 <= i < |s| && cc.upper(s[i]))
              && (exists i :: 0 <= i < |s| && cc.digit(s[i]))
              && (exists i :: 0 <= i < |s| && cc.symbol(s[i]))
  {
    CountPositiveIff(s, cc.lower);
    CountPositiveIff(s, cc.upper);
    CountPositiveIff(s, cc.digit);
    CountPositiveIff(s, cc.symbol);
  }

  /** What one rule tests. */
  datatype Test = NotEmpty | IsEmail | StrongPassword(opts: StrongOptions)

  /** `check(path, msg).<test>`. */
  datatype Rule = Rule(path: string, msg: string, test: Test)

  const PasswordRule := Rule("password", PasswordMessage, StrongPassword(PasswordOptions))
  const NewPasswordRule := Rule("newPassword", PasswordMessage, StrongPassword(PasswordOptions))

  const RegisterValidation := [
    Rule("name", "Name is required", NotEmpty),
    Rule("email", "Please include a valid email", IsEmail),
    PasswordRule
  ]

  const PasswordUpdateValidation := [NewPasswordRule]

  /** A request body: field name to string value. */
  type Body = map<string, string>

  /** The value a rule sees: a missing field reads as "". */
  function Field(body: Body, path: string): string {
    if path in body then body[path] else ""
  }

  predicate Passes(v: Validators, test: Test, value: string) {
    match test
    case NotEmpty => value != ""
    case IsEmail => v.isEmail(value)
    case StrongPassword(opts) => IsStrongPassword(v.classes, opts, value)
  }

  /** `validationResult(req).array()`: one error per failing rule, in the order of the rules. */
  function RunRules(v: Validators, rules: seq<Rule>, body: Body): (errs: seq<AC.FieldError>)
    ensures |errs| <= |rules|
    ensures errs == [] <==> forall i :: 0 <= i < |rules| ==> Passes(v, rules[i].test, Field(body, rules[i].path))
    ensures forall i :: 0 <= i < |rules| && !Passes(v, rules[i].test, Field(body, rules[i].path)) ==>
              AC.FieldError(rules[i].path, rules[i].msg) in errs
    ensures forall e :: e in errs ==>
              exists i :: 0 <= i < |rules| && e == AC.FieldError(rules[i].path, rules[i].msg)
                                          && !Passes(v, rules[i].test, Field(body, rules[i].path))
  {
    if rules == [] then []
    else
      var rest := RunRules(v, rules[1..], body);
      var r := rules[0];
      var errs := if Passes(v, r.test, Field(body, r.path)) then rest else [AC.FieldError(r.path, r.msg)] + rest;
      assert forall e :: e in rest ==>
        exists i :: 1 <= i < |rules| && e == AC.FieldError(rules[i].path, rules[i].msg)
                                     && !Passes(v, rules[i].test, Field(body, rules[i].path)) by {
        forall e | e in rest
          ensures exists i :: 1 <= i < |rules| && e == AC.FieldError(rules[i].path, rules[i].msg)
                                             && !Passes(v, rules[i].test, Field(body, rules[i].path))
        {
          var j :| 0 <= j < |rules[1..]| && e == AC.FieldError(rules[1..][j].path, rules[1..][j].msg)
                                       && !Passes(v, rules[1..][j].test, Field(body, rules[1..][j].path));
          assert rules[1..][j] == rules[j + 1];
        }
      }
      assert forall i :: 1 <= i < |rules| ==> rules[i] == rules[1..][i - 1];
      errs
  }

  /** Registration passes validation exactly when the name is non-empty, the email well formed and the password strong. */
  lemma RegisterValidationIff(v: Validators, body: Body)
    ensures RunRules(v, RegisterValidation, body) == [] <==>
              && Field(body, "name") != ""
              && v.isEmail(Field(body, "email"))
              && IsStrongPassword(v.classes, PasswordOptions, Field(body, "password"))
  {
    assert RegisterValidation[0].path == "name" && RegisterValidation[1].path == "email";
    assert RegisterValidation[2] == PasswordRule;
  }

  /**
   * Password update checks `newPassword` by the registration policy and
   * nothing else: `oldPassword` is never format-checked.
   */
  lemma PasswordUpdateValidationIff(v: Validators, body: Body, oldPassword: string)
    ensures RunRules(v, PasswordUpdateValidation, body) == [] <==>
              IsStrongPassword(v.classes, PasswordOptions, Field(body, "newPassword"))
    ensures RunRules(v, PasswordUpdateValidation, body) ==
              RunRules(v, PasswordUpdateValidation, body["oldPassword" := oldPassword])
    ensures NewPasswordRule.test == PasswordRule.test
  {
  }

  /** The four routes. */
  datatype Route = PostRegister | PostLogin | GetMe | PutUpdatePassword

  /** One step of a route's middleware chain. */
  datatype Stage = AuthGate | Validate(rules: seq<Rule>) | Handler

  /** The chain each route runs, in order. */
  function Chain(route: Route): (c: seq<Stage>)
    ensures |c| >= 1 && c[|c| - 1] == Handler
    ensures AuthGate in c <==> route == GetMe || route == PutUpdatePassword
    ensures AuthGate in c ==> c[0] == AuthGate
    ensures (exists rules :: Validate(rules) in c) <==> route == PostRegister || route == PutUpdatePassword
  {
    match route
    case PostRegister => [Validate(RegisterValidation), Handler]
    case PostLogin => [Handler]
    case GetMe => [AuthGate, Handler]
    case PutUpdatePassword => [AuthGate, Validate(PasswordUpdateValidation), Handler]
  }

  /** What a route answers: the gate's 401, or what the handler sends. */
  datatype Response = Unauthenticated | Sent(reply: AC.Reply) | UserJson(user: Option<AC.UserProfile>)

  /** `router.post('/register', registerValidation, register)`. */
  method Register(users: AC.UserTable, v: Validators, body: Body, salt: AC.Salt, now: int) returns (res: Response)
    requires users.Valid()
    modifies users
    ensures users.Valid()
    ensures RunRules(v, RegisterValidation, body) != [] ==>
              res == Sent(AC.ErrorReply(400, AC.Errors(RunRules(v, RegisterValidation, body))))
              && users.users == old(users.users)
    ensures !IsStrongPassword(v.classes, PasswordOptions, Field(body, "password")) ==>
              && res.Sent? && res.reply.ErrorReply? && res.reply.body.Errors?
              && AC.FieldError("password", PasswordMessage) in res.reply.body.errors
              && users.users == old(users.users)
    ensures res.Sent? && res.reply.TokenReply? ==>
              Field(body, "name") != "" && v.isEmail(Field(body, "email"))
              && IsStrongPassword(v.classes, PasswordOptions, Field(body, "password"))
    ensures RunRules(v, RegisterValidation, body) == []
            && (exists i :: 0 <= i < |old(users.users)| && old(users.users)[i].email == Field(body, "email")) ==>
              res == Sent(AC.ErrorReply(400, AC.Msg(AC.UserExists))) && users.users == old(users.users)
    ensures RunRules(v, RegisterValidation, body) == []
            && (forall i :: 0 <= i < |old(users.users)| ==> old(users.users)[i].email != Field(body, "email")) ==>
              var id := |old(users.users)|;
              && users.users == old(users.users) +
                   [AC.User(id, Field(body, "name"), Field(body, "email"), AC.Hash(users.kdf, Field(body, "password"), salt))]
              && res == Sent(AC.TokenReply(AC.Sign(id, now), AC.UserProfile(id, Field(body, "name"), Field(body, "email"))))
    ensures res != Unauthenticated
  {
    var errors := RunRules(v, RegisterValidation, body);
    RegisterValidationIff(v, body);
    assert RegisterValidation[2] == PasswordRule;
    var reply := users.Register(errors, Field(body, "name"), Field(body, "email"), Field(body, "password"), salt, now);
    res := Sent(reply);
  }

  /** `router.post('/login', login)`: no validation and no gate. */
  method Login(users: AC.UserTable, email: string, password: string, now: int) returns (res: Response)
    requires users.Valid()
    ensures res.Sent?
    ensures res.reply.TokenReply? || res.reply == AC.ErrorReply(400, AC.Msg(AC.InvalidCredentials))
    ensures res.reply.TokenReply? <==>
              exists i :: 0 <= i < |users.users| && users.users[i].email == email
                          && AC.Compare(users.kdf, password, users.users[i].password)
    ensures res.reply.TokenReply? ==>
              var id := res.reply.user.id;
              && id < |users.users| && users.users[id].email == email
              && AC.Compare(users.kdf, password, users.users[id].password)
              && res.reply == AC.TokenReply(AC.Sign(id, now), AC.ProfileOf(users.users[id]))
  {
    var reply := users.Login(email, password, now);
    res := Sent(reply);
  }

  /** `router.get('/me', auth, getMe)`: the gate runs before the handler. */
  method Me(users: AC.UserTable, identity: Option<AC.UserId>) returns (res: Response)
    requires users.Valid()
    ensures res == Unauthenticated <==> identity.None?
    ensures identity.Some? ==> res.UserJson? && (res.user.Some? <==> identity.value < |users.users|)
    ensures identity.Some? && res.user.Some? ==> res.user.value == AC.ProfileOf(users.users[identity.value])
  {
    if identity.None? {
      return Unauthenticated;
    }
    var profile := users.GetMe(identity.value);
    res := UserJson(profile);
  }

  /** `router.put('/update-password', [auth, passwordUpdateValidation], updatePassword)`. */
  method UpdatePassword(users: AC.UserTable, v: Validators, identity: Option<AC.UserId>, body: Body, salt: AC.Salt)
    returns (res: Response)
    requires users.Valid()
    modifies users
    ensures users.Valid()
    ensures identity.None? ==> res == Unauthenticated && users.users == old(users.users)
    ensures identity.Some? && !IsStrongPassword(v.classes, PasswordOptions, Field(body, "newPassword")) ==>
              res == Sent(AC.ErrorReply(400, AC.Errors([AC.FieldError("newPassword", PasswordMessage)])))
              && users.users == old(users.users)
    ensures res.Sent? && res.reply == AC.MessageReply(AC.PasswordUpdated) ==>
              identity.Some? && IsStrongPassword(v.classes, PasswordOptions, Field(body, "newPassword"))
    ensures res == Unauthenticated <==> identity.None?
    ensures identity.Some? && IsStrongPassword(v.classes, PasswordOptions, Field(body, "newPassword"))
            && (identity.value >= |old(users.users)| || "oldPassword" !in body) ==>
              res == Sent(AC.ServerError) && users.users == old(users.users)
    ensures identity.Some? && IsStrongPassword(v.classes, PasswordOptions, Field(body, "newPassword"))
            && identity.value < |old(users.users)| && "oldPassword" in body
            && !AC.Compare(users.kdf, body["oldPassword"], old(users.users)[identity.value].password) ==>
              res == Sent(AC.ErrorReply(400, AC.Msg(AC.WrongCurrentPassword))) && users.users == old(users.users)
    ensures identity.Some? && IsStrongPassword(v.classes, PasswordOptions, Field(body, "newPassword"))
            && identity.value < |old(users.users)| && "oldPassword" in body
            && AC.Compare(users.kdf, body["oldPassword"], old(users.users)[identity.value].password) ==>
              var id := identity.value;
              && users.users == old(users.users)[id := old(users.users)[id].(password := AC.Hash(users.kdf, Field(body, "newPassword"), salt))]
              && res == Sent(AC.MessageReply(AC.PasswordUpdated))
  {
    if identity.None? {
      return Unauthenticated;
    }
    var errors := RunRules(v, PasswordUpdateValidation, body);
    PasswordUpdateValidationIff(v, body, "");
    if errors != [] {
      assert errors == [AC.FieldError("newPassword", PasswordMessage)];
    }
    var oldPassword := if "oldPassword" in body then Some(body["oldPassword"]) else None;
    var reply := users.UpdatePassword(errors, identity.value, oldPassword, Field(body, "newPassword"), salt);
    res := Sent(reply);
  }
}
