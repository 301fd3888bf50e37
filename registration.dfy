/** routes/api/user.js: registration. Validate, refuse a taken email, derive
    the avatar, hash the password, save the user and return a token for it. */
module Registration {
  import opened Js
  import opened Http
  import opened Validation
  import opened Accounts
  import UserChecksByField

  /** The registration rules; they carry no flags, only field names. */
  const Rules := [
    Rule("name", "Name is required", false, false, false),
    Rule("email", "Please include a valid email", false, false, false),
    Rule("password", "Please enter a password with 6 or more characters", false, false, false)
  ]

  const AvatarOptions := GravatarOptions("200", "pg", "mm")
  const SaltRounds := 10
  const UserExists := "User already exists"

  /** `req.body`: `{ name, email, password }`. */
  datatype Registrant = Registrant(name: string, email: string, password: string)

  /** The reply and the users collection after a request. */
  datatype Outcome = Outcome(reply: Sent<()>, users: seq<User>)

  /** The file's own `getChecks` dispatches on the field name: a not-empty
      name, a well-formed email and a password of at least 6 characters. */
  lemma RulesChecks()
    ensures UserChecksByField.GetChecks(Rules) == [
      Some(Check(NotEmpty, "name", "Name is required")),
      Some(Check(IsEmail, "email", "Please include a valid email")),
      Some(Check(MinLength(6), "password", "Please enter a password with 6 or more characters"))
    ]
  {
    assert UserChecksByField.GetChecks(Rules)[0] == UserChecksByField.HandleField(Rules[0]);
    assert UserChecksByField.GetChecks(Rules)[1] == UserChecksByField.HandleField(Rules[1]);
    assert UserChecksByField.GetChecks(Rules)[2] == UserChecksByField.HandleField(Rules[2]);
  }

  /** `bcrypt.hash(password, await bcrypt.genSalt(10))`. */
  function HashPassword(libs: Libraries, password: string): (r: Either<Error, string>)
    ensures libs.genSalt(SaltRounds).Left? ==> r == Left(libs.genSalt(SaltRounds).left)
    ensures libs.genSalt(SaltRounds).Right? ==> r == libs.hash(password, libs.genSalt(SaltRounds).right)
  {
    match libs.genSalt(SaltRounds)
    case Left(e) => Left(e)
    case Right(salt) => libs.hash(password, salt)
  }

  /** The document saved: the registrant with the gravatar of the email
      (and of nothing else) and the hash in place of the password. */
  function NewUser(r: Registrant, libs: Libraries, newId: string, hashed: string): (u: User)
    ensures u.id == newId && u.name == r.name && u.email == r.email && u.password == hashed
    ensures u.avatar == libs.gravatar(r.email, GravatarOptions("200", "pg", "mm"))
  {
    User(newId, r.name, r.email, hashed, libs.gravatar(r.email, AvatarOptions))
  }

  /** What the handler does; `newId` is the id Mongoose gives the new
      document. A signing error is thrown inside the jwt callback, outside
      the `try`: the user stays saved and no response is written. */
  function Registered(errors: seq<ErrorItem>, r: Registrant, db: UserDb, libs: Libraries, config: Config, newId: string): (o: Outcome)
    ensures errors != [] ==> o == Outcome(Sent(400, Some(Errors(errors))), db.users)
    ensures errors == [] && db.fault.Some? ==> o == Outcome(ErrorReply(500, db.fault.value.message), db.users)
    ensures errors == [] && db.fault.None? && FirstWithEmail(db.users, r.email).Some? ==> o == Outcome(ErrorReply(400, UserExists), db.users)
    ensures errors == [] && db.fault.None? && FirstWithEmail(db.users, r.email).None? && HashPassword(libs, r.password).Left?
            ==> o == Outcome(ErrorReply(500, HashPassword(libs, r.password).left.message), db.users)
    ensures o.users == db.users
         || (errors == [] && db.fault.None? && db.writeFault.None? && FirstWithEmail(db.users, r.email).None?
             && HashPassword(libs, r.password).Right?
             && o.users == db.users + [NewUser(r, libs, newId, HashPassword(libs, r.password).right)])
    ensures o.reply.body.Some? && o.reply.body.value.TokenJson? ==>
            o.users != db.users
            && libs.sign(Claims(Identity(newId)), config.configSecret, GetExpiration(config.mode)) == Right(o.reply.body.value.token)
    ensures errors == [] && db.fault.None? && FirstWithEmail(db.users, r.email).None? && HashPassword(libs, r.password).Right? ==>
      var user := NewUser(r, libs, newId, HashPassword(libs, r.password).right);
      var signed := libs.sign(Claims(Identity(newId)), config.configSecret, GetExpiration(config.mode));
      (db.writeFault.Some? ==> o == Outcome(ErrorReply(500, db.writeFault.value.message), db.users))
      && (db.writeFault.None? && signed.Right? ==> o == Outcome(Sent(200, Some(TokenJson(signed.right))), db.users + [user]))
      && (db.writeFault.None? && signed.Left? ==> o == Outcome(NoReply(), db.users + [user]))
  {
    if errors != [] then Outcome(Sent(400, Some(Errors(errors))), db.users)
    else match FindOneByEmail(db, r.email)
      case Left(e) => Outcome(ErrorReply(500, e.message), db.users)
      case Right(Some(_)) => Outcome(ErrorReply(400, UserExists), db.users)
      case Right(None) =>
        match HashPassword(libs, r.password)
        case Left(e) => Outcome(ErrorReply(500, e.message), db.users)
        case Right(hashed) =>
          match db.writeFault
          case Some(e) => Outcome(ErrorReply(500, e.message), db.users)
          case None =>
            var user := NewUser(r, libs, newId, hashed);
            var users := db.users + [user];
            assert users != db.users by { assert |users| == |db.users| + 1; }
            match libs.sign(Claims(Identity(user.id)), config.configSecret, GetExpiration(config.mode))
            case Left(_) => Outcome(NoReply(), users)
            case Right(token) => Outcome(Sent(200, Some(TokenJson(token))), users)
  }

  /** `router.post("/", ...)` */
  method Register(res: Response<()>, errors: seq<ErrorItem>, r: Registrant, store: UserStore, libs: Libraries, config: Config, newId: string)
    requires res.Fresh()
    modifies res, store`users
    ensures Outcome(res.Snapshot(), store.users) == Registered(errors, r, old(store.Db()), libs, config, newId)
  {
    if errors != [] {
      res.SetStatus(400);
      res.Json(Errors(errors));
      return;
    }
    var user := store.FindOne(r.email);
    if user.Left? {
      res.SetStatus(500);
      res.Json(Errors([Msg(user.left.message)]));
      return;
    }
    if user.right.Some? {
      res.SetStatus(400);
      res.Json(Errors([Msg(UserExists)]));
      return;
    }
    var avatar := libs.gravatar(r.email, AvatarOptions);
    var newUser := User(newId, r.name, r.email, r.password, avatar);
    var salt := libs.genSalt(SaltRounds);
    if salt.Left? {
      res.SetStatus(500);
      res.Json(Errors([Msg(salt.left.message)]));
      return;
    }
    var hashed := libs.hash(r.password, salt.right);
    if hashed.Left? {
      res.SetStatus(500);
      res.Json(Errors([Msg(hashed.left.message)]));
      return;
    }
    newUser := newUser.(password := hashed.right);
    var saved := store.Save(newUser);
    if saved.Some? {
      res.SetStatus(500);
      res.Json(Errors([Msg(saved.value.message)]));
      return;
    }
    var payload := Claims(Identity(newUser.id));
    var token := libs.sign(payload, config.configSecret, GetExpiration(config.mode));
    if token.Right? {
      res.Json(TokenJson(token.right));
    }
  }

  /** Registering an email a second time, right after it was saved, is
      refused with "User already exists" and saves nothing. */
  lemma SecondRegistrationRefused(r: Registrant, again: Registrant, db: UserDb, libs: Libraries, config: Config, newId: string, otherId: string)
    requires Registered([], r, db, libs, config, newId).users != db.users
    requires again.email == r.email
    ensures var after := UserDb(Registered([], r, db, libs, config, newId).users, db.fault, db.writeFault);
      Registered([], again, after, libs, config, otherId) == Outcome(ErrorReply(400, "User already exists"), after.users)
  {
    var o := Registered([], r, db, libs, config, newId);
    var saved := NewUser(r, libs, newId, HashPassword(libs, r.password).right);
    assert o.users[|db.users|] == saved;
    assert FirstWithEmail(o.users, again.email).Some?;
  }
}
