/** server/routes/api/auth.ts: sign-in as an fp-ts TaskEither chain
    (validate, find by email, exists, password match) folded into a
    response, and the identity endpoint `GET /`. Every failure of the chain
    is answered with status 500. */
module SignInPipeline {
  import opened Js
  import opened Http
  import opened Validation
  import opened Accounts
  import UserChecks

  /** The sign-in rules, built with the flag dispatcher. */
  const Rules := [
    Rule("email", "Please include a valid email", false, true, false),
    Rule("password", "Password is required", true, false, false)
  ]

  const InvalidCreds := "Invalid credentials!"

  /** `req.body.email` and `req.body.password`. */
  datatype Credentials = Credentials(email: string, password: string)

  /** The Left of the chain: the validation error array, or an Error. */
  datatype Failure = Invalid(errors: seq<ErrorItem>) | Thrown(err: Error)

  /** The checks the route installs: an email check and a not-empty check. */
  lemma RulesChecks()
    ensures UserChecks.BuildChecks(Rules) == [
      Some(Check(IsEmail, "email", "Please include a valid email")),
      Some(Check(NotEmpty, "password", "Password is required"))
    ]
  {
    assert UserChecks.BuildChecks(Rules)[0] == UserChecks.HandleField(Rules[0]);
    assert UserChecks.BuildChecks(Rules)[1] == UserChecks.HandleField(Rules[1]);
  }

  /** Only emptiness is checked on the password here: a five-character
      password with a well-formed email passes validation. */
  lemma ShortPasswordPasses(email: string, isEmail: string -> bool)
    requires isEmail(email)
    ensures Run(UserChecks.BuildChecks(Rules), map["email" := email, "password" := "12345"], isEmail) == []
  {
    RulesChecks();
  }

  /** `tryValidateResult`: a non-empty error array is the Left. */
  function TryValidateResult(errors: seq<ErrorItem>, creds: Credentials): (r: Either<Failure, Credentials>)
    ensures r.Left? <==> errors != []
    ensures r.Left? ==> r.left == Invalid(errors)
    ensures r.Right? ==> r.right == creds
  {
    if errors != [] then Left(Invalid(errors)) else Right(creds)
  }

  /** `tryFindUserByEmail`: the query's error, or the user or null. */
  function TryFindUserByEmail(db: UserDb, creds: Credentials): (r: Either<Failure, Option<User>>)
    ensures db.fault.Some? ==> r == Left(Thrown(db.fault.value))
    ensures db.fault.None? ==> r == Right(FirstWithEmail(db.users, creds.email))
  {
    match FindOneByEmail(db, creds.email)
    case Left(e) => Left(Thrown(e))
    case Right(u) => Right(u)
  }

  /** `tryUserExists`: null becomes "Invalid credentials!". */
  function TryUserExists(user: Option<User>): (r: Either<Failure, User>)
    ensures user.None? ==> r == Left(Thrown(Err(InvalidCreds)))
    ensures user.Some? ==> r == Right(user.value)
  {
    match user
    case None => Left(Thrown(Err(InvalidCreds)))
    case Some(u) => Right(u)
  }

  /** `tryPasswordMatch`: a mismatch becomes "Invalid credentials!", an error
      thrown by bcrypt stays itself. */
  function TryPasswordMatch(libs: Libraries, creds: Credentials, user: User): (r: Either<Failure, User>)
    ensures libs.compare(creds.password, user.password) == Right(true) <==> r == Right(user)
    ensures libs.compare(creds.password, user.password) == Right(false) ==> r == Left(Thrown(Err(InvalidCreds)))
    ensures libs.compare(creds.password, user.password).Left? ==> r == Left(Thrown(libs.compare(creds.password, user.password).left))
  {
    match libs.compare(creds.password, user.password)
    case Left(e) => Left(Thrown(e))
    case Right(valid) => if valid then Right(user) else Left(Thrown(Err(InvalidCreds)))
  }

  /** The chain of `signInUser`: each step runs only after the previous one
      succeeded, and the first Left is the result. */
  function SignInUser(errors: seq<ErrorItem>, creds: Credentials, db: UserDb, libs: Libraries): (r: Either<Failure, User>)
    ensures errors != [] ==> r == Left(Invalid(errors))
    ensures errors == [] && db.fault.Some? ==> r == Left(Thrown(db.fault.value))
    ensures errors == [] && db.fault.None? && FirstWithEmail(db.users, creds.email).None? ==> r == Left(Thrown(Err(InvalidCreds)))
    ensures r.Right? <==> errors == [] && db.fault.None? && FirstWithEmail(db.users, creds.email).Some?
                          && libs.compare(creds.password, FirstWithEmail(db.users, creds.email).value.password) == Right(true)
    ensures r.Right? ==> r.right.email == creds.email && r.right in db.users
  {
    match TryValidateResult(errors, creds)
    case Left(f) => Left(f)
    case Right(c) =>
      match TryFindUserByEmail(db, c)
      case Left(f) => Left(f)
      case Right(found) =>
        match TryUserExists(found)
        case Left(f) => Left(f)
        case Right(user) => TryPasswordMatch(libs, c, user)
  }

  /** The body `sendErrorRes` writes: an array as it is, an Error as `[{ msg }]`. */
  function ErrorBody(f: Failure): (b: Body<()>)
    ensures f.Invalid? ==> b == Errors(f.errors)
    ensures f.Thrown? ==> b == Errors([Msg(f.err.message)])
  {
    match f
    case Invalid(es) => Errors(es)
    case Thrown(e) => Errors([Msg(e.message)])
  }

  /** The claims and the expiry a successful sign-in signs. */
  function SignedToken(libs: Libraries, config: Config, user: User): Either<Error, string>
  {
    libs.sign(Claims(Identity(user.id)), config.jwtSecret, GetExpiration(config.mode))
  }

  /** What `signInUser` writes. Every failure, validation included, is a
      500; an unknown email and a wrong password are both "Invalid
      credentials!"; success is `{ token }` for the payload `{ user: { id } }`. */
  function SignInReply(errors: seq<ErrorItem>, creds: Credentials, db: UserDb, libs: Libraries, config: Config): (r: Sent<()>)
    ensures r.status == 200 || r.status == 500
    ensures r.body.Some?
    ensures errors != [] ==> r == Sent(500, Some(Errors(errors)))
    ensures errors == [] && db.fault.Some? ==> r == ErrorReply(500, db.fault.value.message)
    ensures errors == [] && db.fault.None? && FirstWithEmail(db.users, creds.email).None? ==> r == ErrorReply(500, InvalidCreds)
    ensures errors == [] && db.fault.None? && FirstWithEmail(db.users, creds.email).Some?
            && libs.compare(creds.password, FirstWithEmail(db.users, creds.email).value.password) == Right(false)
            ==> r == ErrorReply(500, InvalidCreds)
    ensures errors == [] && db.fault.None? && FirstWithEmail(db.users, creds.email).Some?
            && libs.compare(creds.password, FirstWithEmail(db.users, creds.email).value.password).Left?
            ==> r == ErrorReply(500, libs.compare(creds.password, FirstWithEmail(db.users, creds.email).value.password).left.message)
    ensures SignInUser(errors, creds, db, libs).Right? && SignedToken(libs, config, SignInUser(errors, creds, db, libs).right).Left?
            ==> r == ErrorReply(500, SignedToken(libs, config, SignInUser(errors, creds, db, libs).right).left.message)
    ensures r.status == 200 <==> SignInUser(errors, creds, db, libs).Right?
                                 && SignedToken(libs, config, SignInUser(errors, creds, db, libs).right).Right?
    ensures r.status == 200 ==> r.body == Some(TokenJson(SignedToken(libs, config, SignInUser(errors, creds, db, libs).right).right))
  {
    match SignInUser(errors, creds, db, libs)
    case Left(f) => Sent(500, Some(ErrorBody(f)))
    case Right(user) =>
      match SignedToken(libs, config, user)
      case Left(e) => ErrorReply(500, e.message)
      case Right(token) => Sent(200, Some(TokenJson(token)))
  }

  /** An unknown email and a wrong password give the same answer. */
  lemma CredentialFailuresAlike(creds: Credentials, unknown: UserDb, known: UserDb, libs: Libraries, config: Config)
    requires unknown.fault.None? && FirstWithEmail(unknown.users, creds.email).None?
    requires known.fault.None? && FirstWithEmail(known.users, creds.email).Some?
    requires libs.compare(creds.password, FirstWithEmail(known.users, creds.email).value.password) == Right(false)
    ensures SignInReply([], creds, unknown, libs, config) == SignInReply([], creds, known, libs, config)
         == ErrorReply(500, "Invalid credentials!")
  {
  }

  /** `sendErrorRes(res, code)` */
  method SendErrorRes(res: Response<()>, code: int, f: Failure)
    modifies res
    ensures res.Snapshot() == Sent(code, Some(ErrorBody(f)))
  {
    res.SetStatus(code);
    match f
    case Invalid(es) => res.Json(Errors(es));
    case Thrown(e) => res.Json(Errors([Msg(e.message)]));
  }

  /** `handleErrorRes`: every failure of the chain is a 500. */
  method HandleErrorRes(res: Response<()>, f: Failure)
    modifies res
    ensures res.Snapshot() == Sent(500, Some(ErrorBody(f)))
  {
    SendErrorRes(res, 500, f);
  }

  /** `signAndRes`: sign `{ user: { id } }` and send `{ token }`, or a 500. */
  method SignAndRes(res: Response<()>, libs: Libraries, config: Config, user: User)
    requires res.Fresh()
    modifies res
    ensures SignedToken(libs, config, user).Left? ==> res.Snapshot() == ErrorReply(500, SignedToken(libs, config, user).left.message)
    ensures SignedToken(libs, config, user).Right? ==> res.Snapshot() == Sent(200, Some(TokenJson(SignedToken(libs, config, user).right)))
  {
    var signed := libs.sign(Claims(Identity(user.id)), config.jwtSecret, GetExpiration(config.mode));
    match signed
    case Left(err) => SendErrorRes(res, 500, Thrown(err));
    case Right(token) => res.Json(TokenJson(token));
  }

  /** `signInUser(req, res)` */
  method SignIn(res: Response<()>, errors: seq<ErrorItem>, creds: Credentials, db: UserDb, libs: Libraries, config: Config)
    requires res.Fresh()
    modifies res
    ensures res.Snapshot() == SignInReply(errors, creds, db, libs, config)
  {
    var outcome := SignInUser(errors, creds, db, libs);
    match outcome
    case Left(f) => HandleErrorRes(res, f);
    case Right(user) => SignAndRes(res, libs, config, user);
  }

  /** `getUser`: the user with the token's id, without its password (null
      when there is none), or 400 with the lookup's error. */
  method GetUser(res: Response<Option<PublicUser>>, db: UserDb, id: string)
    requires res.Fresh()
    modifies res
    ensures FindById(db, id).Left? ==> res.Snapshot() == ErrorReply(400, FindById(db, id).left.message)
    ensures FindById(db, id).Right? ==> res.Snapshot() == JsonReply(
      match FindById(db, id).right case None => None case Some(u) => Some(WithoutPassword(u)))
  {
    var found := FindById(db, id);
    match found
    case Left(err) =>
      res.SetStatus(400);
      res.Json(Errors([Msg(err.message)]));
    case Right(None) => res.Json(Json(None));
    case Right(Some(u)) => res.Json(Json(Some(WithoutPassword(u))));
  }
}
