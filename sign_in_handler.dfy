/** routes/api/auth.ts: sign-in as an early-return handler, and `GET /`.
    Its rules go through the field-name dispatcher, and its credential
    failures are answered with 400 "Invalid credentials". */
module SignInHandler {
  import opened Js
  import opened Http
  import opened Validation
  import opened Accounts
  import UserChecks
  import UserChecksByField
  import SignInPipeline

  /** The same rule objects as the pipeline's. */
  const Rules := SignInPipeline.Rules

  const InvalidCreds := "Invalid credentials"

  /** Dispatching on the field name makes the password rule a length check
      of at least 6, under the message "Password is required". */
  lemma RulesChecks()
    ensures UserChecksByField.GetChecks(Rules) == [
      Some(Check(IsEmail, "email", "Please include a valid email")),
      Some(Check(MinLength(6), "password", "Password is required"))
    ]
  {
    assert UserChecksByField.GetChecks(Rules)[0] == UserChecksByField.HandleField(Rules[0]);
    assert UserChecksByField.GetChecks(Rules)[1] == UserChecksByField.HandleField(Rules[1]);
  }

  /** So here a five-character password is a validation error. */
  lemma ShortPasswordFails(email: string, isEmail: string -> bool)
    requires isEmail(email)
    ensures Run(UserChecksByField.GetChecks(Rules), map["email" := email, "password" := "12345"], isEmail)
         == [FieldError("password", "Password is required")]
  {
    RulesChecks();
  }

  /** What the handler writes. The sign callback's `throw` escapes the
      `try`, so a signing error leaves the response unwritten. */
  function SignInReply(errors: seq<ErrorItem>, creds: SignInPipeline.Credentials, db: UserDb, libs: Libraries, config: Config): (r: Sent<()>)
    ensures errors != [] ==> r == Sent(400, Some(Errors(errors)))
    ensures errors == [] && db.fault.Some? ==> r == ErrorReply(500, db.fault.value.message)
    ensures errors == [] && db.fault.None? && FirstWithEmail(db.users, creds.email).None? ==> r == ErrorReply(400, InvalidCreds)
    ensures errors == [] && db.fault.None? && FirstWithEmail(db.users, creds.email).Some?
            && libs.compare(creds.password, FirstWithEmail(db.users, creds.email).value.password).Left? ==>
      r == ErrorReply(500, libs.compare(creds.password, FirstWithEmail(db.users, creds.email).value.password).left.message)
    ensures r.status == 200 && r.body.Some? <==>
      errors == [] && db.fault.None? && FirstWithEmail(db.users, creds.email).Some?
      && libs.compare(creds.password, FirstWithEmail(db.users, creds.email).value.password) == Right(true)
      && SignInPipeline.SignedToken(libs, config, FirstWithEmail(db.users, creds.email).value).Right?
    ensures r.status == 200 && r.body.Some? ==>
      r.body == Some(TokenJson(SignInPipeline.SignedToken(libs, config, FirstWithEmail(db.users, creds.email).value).right))
  {
    if errors != [] then Sent(400, Some(Errors(errors)))
    else match FindOneByEmail(db, creds.email)
      case Left(e) => ErrorReply(500, e.message)
      case Right(None) => ErrorReply(400, InvalidCreds)
      case Right(Some(user)) =>
        match libs.compare(creds.password, user.password)
        case Left(e) => ErrorReply(500, e.message)
        case Right(isMatch) =>
          if !isMatch then ErrorReply(400, InvalidCreds)
          else match SignInPipeline.SignedToken(libs, config, user)
            case Left(_) => NoReply()
            case Right(token) => Sent(200, Some(TokenJson(token)))
  }

  /** `router.post("/", ...)`: early returns, each writing one response. */
  method SignIn(res: Response<()>, errors: seq<ErrorItem>, creds: SignInPipeline.Credentials, store: UserStore, libs: Libraries, config: Config)
    requires res.Fresh()
    modifies res
    ensures res.Snapshot() == SignInReply(errors, creds, store.Db(), libs, config)
  {
    if errors != [] {
      res.SetStatus(400);
      res.Json(Errors(errors));
      return;
    }
    var user := store.FindOne(creds.email);
    if user.Left? {
      res.SetStatus(500);
      res.Json(Errors([Msg(user.left.message)]));
      return;
    }
    if user.right.None? {
      res.SetStatus(400);
      res.Json(Errors([Msg(InvalidCreds)]));
      return;
    }
    var isMatch := libs.compare(creds.password, user.right.value.password);
    if isMatch.Left? {
      res.SetStatus(500);
      res.Json(Errors([Msg(isMatch.left.message)]));
      return;
    }
    if !isMatch.right {
      res.SetStatus(400);
      res.Json(Errors([Msg(InvalidCreds)]));
      return;
    }
    var payload := Claims(Identity(user.right.value.id));
    var token := libs.sign(payload, config.jwtSecret, GetExpiration(config.mode));
    if token.Right? {
      res.Json(TokenJson(token.right));
    }
  }

  /** A wrong password is answered exactly like an unknown email. */
  lemma CredentialFailuresAlike(creds: SignInPipeline.Credentials, unknown: UserDb, known: UserDb, libs: Libraries, config: Config)
    requires unknown.fault.None? && FirstWithEmail(unknown.users, creds.email).None?
    requires known.fault.None? && FirstWithEmail(known.users, creds.email).Some?
    requires libs.compare(creds.password, FirstWithEmail(known.users, creds.email).value.password) == Right(false)
    ensures SignInReply([], creds, unknown, libs, config) == SignInReply([], creds, known, libs, config)
         == ErrorReply(400, "Invalid credentials")
  {
  }

  /** Given the same validation result, the two sign-in handlers agree on
      success and disagree on every credential failure: 500 "Invalid
      credentials!" against 400 "Invalid credentials", and 500 against 400
      for a validation failure. The validation results themselves differ
      for one body: `BodiesValidateDifferently`. */
  lemma VariantsDiffer(errors: seq<ErrorItem>, creds: SignInPipeline.Credentials, db: UserDb, libs: Libraries, config: Config)
    requires db.fault.None?
    ensures errors != [] ==>
      SignInPipeline.SignInReply(errors, creds, db, libs, config).status == 500
      && SignInReply(errors, creds, db, libs, config).status == 400
      && SignInPipeline.SignInReply(errors, creds, db, libs, config).body == SignInReply(errors, creds, db, libs, config).body
    ensures errors == [] && FirstWithEmail(db.users, creds.email).None? ==>
      SignInPipeline.SignInReply(errors, creds, db, libs, config) == ErrorReply(500, "Invalid credentials!")
      && SignInReply(errors, creds, db, libs, config) == ErrorReply(400, "Invalid credentials")
    ensures SignInPipeline.SignInReply(errors, creds, db, libs, config).status == 200
        <==> SignInReply(errors, creds, db, libs, config).status == 200 && SignInReply(errors, creds, db, libs, config).body.Some?
    ensures SignInPipeline.SignInReply(errors, creds, db, libs, config).status == 200
        ==> SignInPipeline.SignInReply(errors, creds, db, libs, config) == SignInReply(errors, creds, db, libs, config)
  {
  }

  /** The same body validates differently in the two files: a well-formed
      email with a five-character password passes the pipeline's checks, so
      the pipeline goes on as for a valid body (and answers 200 when the
      password matches and signing succeeds), while this handler answers
      400 "Password is required". */
  lemma BodiesValidateDifferently(email: string, isEmail: string -> bool, db: UserDb, libs: Libraries, config: Config)
    requires isEmail(email)
    ensures var body := map["email" := email, "password" := "12345"];
      var creds := SignInPipeline.Credentials(email, "12345");
      SignInPipeline.SignInReply(Run(UserChecks.BuildChecks(SignInPipeline.Rules), body, isEmail), creds, db, libs, config)
        == SignInPipeline.SignInReply([], creds, db, libs, config)
      && SignInReply(Run(UserChecksByField.GetChecks(Rules), body, isEmail), creds, db, libs, config)
        == Sent(400, Some(Errors([FieldError("password", "Password is required")])))
  {
    SignInPipeline.ShortPasswordPasses(email, isEmail);
    ShortPasswordFails(email, isEmail);
  }

  /** `router.get("/")`: the user with the token's id, without its password
      (null when there is none), or 500 with the error's message. */
  method GetAuthUser(res: Response<Option<PublicUser>>, db: UserDb, id: string)
    requires res.Fresh()
    modifies res
    ensures FindById(db, id).Left? ==> res.Snapshot() == ErrorReply(500, FindById(db, id).left.message)
    ensures FindById(db, id).Right? ==> res.Snapshot() == JsonReply(
      match FindById(db, id).right case None => None case Some(u) => Some(WithoutPassword(u)))
  {
    var user := FindById(db, id);
    match user
    case Left(err) =>
      res.SetStatus(500);
      res.Json(Errors([Msg(err.message)]));
    case Right(None) => res.Json(Json(None));
    case Right(Some(u)) => res.Json(Json(Some(WithoutPassword(u))));
  }
}
