# kooki-konnector core, modelled in Dafny

This project models the server side of kooki-konnector, a small social
network built on Express and Mongoose. The model covers:

- the token gate in front of the private routes;
- the two sign-in handlers (the fp-ts TaskEither chain and the early-return
  handler) and registration;
- the two validation-rule dispatchers (by flag and by field name);
- the profile routes: building the profile from the body, upsert, adding and
  removing experience and education entries, `GET /me`, delete;
- the post routes: create, list newest first, fetch by id and by author,
  owner-scoped update and delete, like and unlike;
- the Profile and Post schemas;
- the route table `server.ts` builds from the routes directory.

The collaborators the code calls become parameters:

- bcrypt, `jsonwebtoken` and `gravatar` are functions returning `Either`
  (see `Accounts.Libraries`), and `jwt.verify` is `AuthMiddleware.Verifier`;
- `process.env` and the `config` package are the `Accounts.Config` record;
- each Mongo collection is held in memory. `Mongoose.Collection` and
  `Mongoose.Store` keep its documents in natural order, plus the error every
  query throws while the collection is failing. The users collection is
  `Accounts.UserDb` / `Accounts.UserStore`;
- ids Mongoose assigns (`newId`) and creation times (`now`) are parameters;
- the validation result of express-validator (`errors`) is a parameter of
  each handler. What the dispatchers make of the rules is stated separately
  by `Validation.Run` and the `RulesChecks` lemmas.

Each handler is written twice, once as a function and once as a method:

- the function (for example `PostRoutes.Liked`) gives the reply and the
  collection afterwards, and its contract states what the route promises;
- the method (for example `PostRoutes.Like`) writes to an `Http.Response` and
  updates a `Store` step by step, as the source does, and is proved to
  produce exactly what the function gives.

Modules, one per source file:

| module | source file |
|---|---|
| AuthMiddleware | server/middleware/auth.ts |
| SignInPipeline | server/routes/api/auth.ts |
| SignInHandler | routes/api/auth.ts |
| Registration | routes/api/user.js |
| UserChecks | utils/userChecks.ts |
| UserChecksByField | utils/userChecks.js |
| ProfileRoutes | routes/api/profile.js |
| PostRoutes | routes/api/post.js |
| ProfileModel | server/models/Profile.js |
| PostModel | models/Post.js |
| Server | server.ts |

Shared modules:

- Js: `undefined`/`null`, Either and the Error object;
- Http: the response and its error envelope;
- Validation: rules, checks and running them;
- Lists: the array operators `$push`, `$pull` and `$addToSet`;
- Text: `split` and `trim`;
- Mongoose: ObjectId casting and the queries;
- Accounts: users, tokens, configuration and libraries.

Where the two sign-in handlers and registration differ, the model follows
each file's code:

- The fp-ts chain in server/routes/api/auth.ts answers every failure with
  500, including a validation failure and a wrong password. The
  early-return handler in routes/api/auth.ts answers those with 400.
  `SignInHandler.VariantsDiffer` states the difference for the same
  validation result, and `SignInHandler.BodiesValidateDifferently` shows one
  body the two files validate differently.
- routes/api/auth.ts passes flag-style rules to the field-name dispatcher.
  Its password rule therefore becomes a length-6 check under the message
  "Password is required" (`SignInHandler.ShortPasswordFails`). The
  pipeline's flag dispatcher only checks that the password is not empty
  (`SignInPipeline.ShortPasswordPasses`).
- Registration signs its token with the `config` package's `jwtSecret`.
  The gate verifies with the environment's `JWT_SECRET`.
- An error handed to the `jwt.sign` callback is rethrown outside the `try`,
  so no response is written (`Http.NoReply`).
- routes/api/user.js carries its own copy of the field-name dispatcher
  (routes/api/user.js:23-40). It is the same function as utils/userChecks.js,
  and `UserChecksByField` models both.

## Model

| member | source | states |
|---|---|---|
| AuthMiddleware.GetToken | server/middleware/auth.ts:44-47 | an absent or empty `x-auth-token` is exactly the Left "No token, authorization denied."; any other header value is the token itself |
| AuthMiddleware.Decode | server/middleware/auth.ts:24-28 | defined as the verifier applied to the token and the secret: its Right payload, or the Error it throws as the Left |
| AuthMiddleware.HandleDecode | server/middleware/auth.ts:37-38 | a Left passes through unchanged without decoding; a token gives exactly the decoder's Either for that token and the secret |
| AuthMiddleware.Gate | server/middleware/auth.ts:54-55 | a missing or empty header is refused whatever the decoder; otherwise the decoder's verdict on (header, secret) is the gate's |
| AuthMiddleware.SetReq | server/middleware/auth.ts:31-34 | `req.user` becomes the payload's user and `next` is called exactly once more; the header is untouched |
| AuthMiddleware.SendErrorRes | server/middleware/auth.ts:18-21 | the response holds the given code and `{errors:[{msg}]}` with the error's own message; the error is handed on unchanged |
| AuthMiddleware.LogError | server/middleware/auth.ts:15 | the error's message, and only it, is appended to the log |
| AuthMiddleware.Respond | server/middleware/auth.ts:41 | the reply is 401 with the error's message, and that message is logged once |
| AuthMiddleware.HandleResponse | server/middleware/auth.ts:49-52 | on Right the user is set, `next` is called once, and nothing is written or logged; on Left the reply is 401 with the message, it is logged, and the request is untouched |
| AuthMiddleware.CheckToken | server/middleware/auth.ts:54-55 | the whole middleware, in terms of `Gate` with the environment secret: success sets `req.user` and calls `next` once; failure writes 401 with the error's own message, logs it, and does not call `next` |
| AuthMiddleware.NoTokenIsRefused | server/middleware/auth.ts:12 | without a token the decision is the same for every decoder: Left "No token, authorization denied." |
| Accounts.GetExpiration | server/routes/api/auth.ts:29 | 3600000 when MODE is "dev", 3600 otherwise (MODE unset included) |
| Accounts.WithoutPassword | server/routes/api/auth.ts:33-34 | `select("-password")`: every field but the password is kept |
| Accounts.FirstWithEmail | server/routes/api/auth.ts:35-36 | None exactly when no user has the email; otherwise the first user in natural order with it |
| Accounts.FirstWithId | server/routes/api/auth.ts:33-34 | None exactly when no user has the id; otherwise a stored user with it |
| Accounts.FindOneByEmail | server/routes/api/auth.ts:35-36 | a failing collection throws its error; otherwise a stored user with that email, or null exactly when there is none |
| Accounts.FindById | server/routes/api/auth.ts:33-34 | an id that is not an ObjectId fails with a cast error of kind "ObjectId"; then the collection's error; otherwise the user whose id is the ObjectId the id denotes (`ObjectIdHex`), or null exactly when there is none |
| Accounts.UserStore.FindOne | routes/api/user.js:55 | the query's answer equals `FindOneByEmail` on the current users |
| Accounts.UserStore.Save | routes/api/user.js:81 | the write error if any; otherwise the user is appended and nothing else changes |
| Accounts.UserStore.FindByIdAndRemove | routes/api/profile.js:137 | a cast error for a non-ObjectId, then the collection's error; on success the users with the ObjectId the id denotes are removed |
| Accounts.WithoutId | routes/api/profile.js:137 | exactly the users whose id differs are kept; it is the Filter by that test, so the kept users stay in their order with their multiplicities (Lists.FilterConcat, Lists.FilterCount) |
| Validation.Run | routes/api/user.js:46-48 | the errors are empty exactly when every present check passes; each error comes from a present, failing check; an absent check validates nothing |
| Validation.Passes | utils/userChecks.js:3-11 | a not-empty check accepts a non-empty value, an email check what `isEmail` accepts, a length check a value of at least that length; a missing field reads as "" |
| UserChecks.GetNotEmptyCheck | utils/userChecks.ts:9-11 | defined as `Check(NotEmpty, the rule's field, the rule's message)` |
| UserChecks.GetFieldEmailCheck | utils/userChecks.ts:12-14 | defined as `Check(IsEmail, the rule's field, the rule's message)` |
| UserChecks.GetMinLengthCheck | utils/userChecks.ts:16-18 | defined as `Check(MinLength(6), the rule's field, the rule's message)` |
| UserChecks.HandleField | utils/userChecks.ts:20-25 | a check exists exactly when one of the three flags is set; it keeps the rule's field and message, carries the flagged validator (min length fixed at 6), and an earlier clause always wins |
| UserChecks.BuildChecks | utils/userChecks.ts:27 | one entry per rule, in order, each the dispatch of that rule |
| UserChecksByField.GetFieldNameCheck | utils/userChecks.js:3-5 | defined as `Check(NotEmpty, the rule's field, the rule's message)` |
| UserChecksByField.GetFieldEmailCheck | utils/userChecks.js:6-8 | defined as `Check(IsEmail, the rule's field, the rule's message)` |
| UserChecksByField.GetFieldPwordCheck | utils/userChecks.js:9-11 | defined as `Check(MinLength(6), the rule's field, the rule's message)` |
| UserChecksByField.HandleField | utils/userChecks.js:13-18 | a check exists exactly when the field is name, email or password: not-empty, is-email and length at least 6 respectively, with the rule's field and message |
| UserChecksByField.GetChecks | utils/userChecks.js:20 | one entry per rule, in order, each the dispatch of that rule |
| UserChecksByField.UnlistedFieldsValidateNothing | utils/userChecks.js:13-20 | rules whose fields are none of the three get no checks, whatever their flags, and validate nothing for any body |
| SignInPipeline.RulesChecks | server/routes/api/auth.ts:19-22 | the sign-in rules become an email check and a not-empty password check |
| SignInPipeline.ShortPasswordPasses | server/routes/api/auth.ts:121 | with a valid email, the five-character password "12345" passes validation |
| SignInPipeline.TryValidateResult | server/routes/api/auth.ts:54-60 | Left with the error array exactly when it is non-empty; otherwise the request goes on unchanged |
| SignInPipeline.TryFindUserByEmail | server/routes/api/auth.ts:79-80 | the collection's error, or the first user with the email (or null) |
| SignInPipeline.TryUserExists | server/routes/api/auth.ts:62-68 | null becomes "Invalid credentials!"; a user passes through |
| SignInPipeline.TryPasswordMatch | server/routes/api/auth.ts:70-78 | a match passes the user through, and only a match does; a mismatch is "Invalid credentials!"; a bcrypt error stays itself |
| SignInPipeline.SignInUser | server/routes/api/auth.ts:111-119 | the chain stops at the first Left in the order validate, find, exists, match; it succeeds exactly when all four do, and then gives the stored user with that email |
| SignInPipeline.ErrorBody | server/routes/api/auth.ts:38-42 | a validation array is sent as it is; an Error as `[{ msg }]` |
| SignInPipeline.SignedToken | server/routes/api/auth.ts:82-86 | defined as signing `{ user: { id } }` for the user's id with the JWT secret and `expiresIn` from GetExpiration: the token, or the signing error |
| SignInPipeline.SignInReply | server/routes/api/auth.ts:82-95 | every failure is a 500: validation errors with their array; a lookup error, an error from the password comparison and a signing error each with `[{ msg }]` of their own message; an unknown email and a wrong password with "Invalid credentials!". Status 200 exactly when the chain and the signing succeed, and then the body is the token signed for `{user:{id}}` |
| SignInPipeline.CredentialFailuresAlike | server/routes/api/auth.ts:31 | an unknown email and a wrong password give the same reply: 500 "Invalid credentials!" |
| SignInPipeline.SendErrorRes | server/routes/api/auth.ts:38-42 | the response holds the code and the failure's error body |
| SignInPipeline.HandleErrorRes | server/routes/api/auth.ts:94-95 | every failure of the chain is written as a 500 |
| SignInPipeline.SignAndRes | server/routes/api/auth.ts:82-92 | a signing error is written as a 500 with its message; otherwise `{ token }` with status 200 |
| SignInPipeline.SignIn | server/routes/api/auth.ts:111-119 | the written response equals `SignInReply` |
| SignInPipeline.GetUser | server/routes/api/auth.ts:48-52 | a lookup error gives 400 with its message; otherwise the user without its password, or null |
| SignInHandler.RulesChecks | routes/api/auth.ts:38-42 | through the field-name dispatcher the rules become an email check and a length-6 password check |
| SignInHandler.ShortPasswordFails | routes/api/auth.ts:49 | with a valid email, the password "12345" fails with "Password is required" |
| SignInHandler.SignInReply | routes/api/auth.ts:50-93 | validation errors give 400 and stop; a lookup error gives 500; an unknown email gives 400 "Invalid credentials"; an error from the password comparison gives 500 with its message; a written 200 happens exactly when the password matches and signing succeeds, and carries that token |
| SignInHandler.SignIn | routes/api/auth.ts:47-94 | the early returns write exactly `SignInReply` |
| SignInHandler.CredentialFailuresAlike | routes/api/auth.ts:60-74 | a wrong password is answered exactly like an unknown email: 400 "Invalid credentials" |
| SignInHandler.VariantsDiffer | routes/api/auth.ts:51-74 | given the same validation result, against the fp-ts pipeline: validation failure 400 against 500 with the same body; unknown email 400 "Invalid credentials" against 500 "Invalid credentials!"; each succeeds exactly when the other does, with the same reply |
| SignInHandler.BodiesValidateDifferently | routes/api/auth.ts:38-53 | for one body, a valid email with the password "12345", the pipeline goes on exactly as for a valid body while this handler answers 400 "Password is required" |
| SignInHandler.GetAuthUser | routes/api/auth.ts:24-34 | the user without its password, or null; an error gives 500 with its message |
| Registration.RulesChecks | routes/api/user.js:14-21 | the three rules become not-empty name, is-email email and length-6 password, with their messages |
| Registration.HashPassword | routes/api/user.js:78-79 | a salt error is the result; otherwise the hash of the password with the salt of 10 rounds |
| Registration.NewUser | routes/api/user.js:63-74 | the saved user carries the registrant's name and email, the hash in place of the password, and the gravatar of the email alone with s=200, rating=pg, d=mm |
| Registration.Registered | routes/api/user.js:45-100 | validation errors give 400; a lookup error gives 500; a taken email gives 400 "User already exists"; hashing errors give 500; a save error gives 500 with its message; in each of these nothing is saved. When every step succeeds the new user is appended, and the reply is 200 with the token signed for the new id, or no reply when signing fails |
| Registration.Register | routes/api/user.js:45-100 | the handler's response and the users afterwards equal `Registered` |
| Registration.SecondRegistrationRefused | routes/api/user.js:55-59 | registering the same email right after a successful registration is refused with 400 "User already exists" and saves nothing |
| Text.SplitOn | routes/api/profile.js:56 | `split(sep)`: at least one piece, none holding the separator, and joining them with it gives the string back |
| Text.SplitJoin | routes/api/profile.js:56 | splitting undoes joining for separator-free pieces |
| Text.SplitPrefix | routes/api/profile.js:56 | a separator-free piece followed by the separator becomes the first piece of the split |
| Text.SplitCons | routes/api/profile.js:56 | one character in front: a separator starts a new empty piece, anything else joins the first piece |
| Text.LeadingSpace | routes/api/profile.js:56 | the length of the run of white space that starts the string: all white space, followed by a non-white character or the end |
| Text.TrailingSpace | routes/api/profile.js:56 | the length of the run of white space that ends the string, preceded by a non-white character or the start |
| Text.TrimStart | routes/api/profile.js:56 | the suffix after the leading white space, which starts with non-white space |
| Text.TrimEnd | routes/api/profile.js:56 | the prefix before the trailing white space, which ends with non-white space |
| Text.Trim | routes/api/profile.js:56 | a slice of the input with only white space outside it and none at either end of it |
| Text.TrimParts | routes/api/profile.js:56 | white space then a string, whose prefix is followed by white space, leaves that prefix as the trimmed slice |
| Text.TrimIdempotent | routes/api/profile.js:56 | trimming twice is trimming once |
| Text.TrimKeepsOut | routes/api/profile.js:56 | trimming introduces no character |
| Text.TrimOfTrimmed | routes/api/profile.js:56 | a string without white space at its ends is its own trim |
| Lists.FirstIndex | routes/api/profile.js:69-75 | the position of the first matching document; None exactly when nothing matches |
| Lists.FirstIndexAfterUpdate | routes/api/profile.js:69-75 | replacing the first match by another match keeps it first |
| Lists.FirstIndexAfterAppend | routes/api/profile.js:79 | a saved document that matches, when nothing matched before, is found at the end |
| Lists.RemoveAt | routes/api/post.js:150 | one element fewer, the others kept in order |
| Lists.Filter | routes/api/profile.js:202 | only kept elements remain, and every kept element remains |
| Lists.FilterConcat | routes/api/profile.js:202 | filtering commutes with concatenation |
| Lists.FilterDropsHead | routes/api/profile.js:202 | a dropped entry at the front of kept ones leaves the rest |
| Lists.FilterKeepsAll | routes/api/post.js:56 | the filter `{}` (everything kept) changes nothing |
| Lists.FilterCount | routes/api/profile.js:202 | every kept element stays as often as it occurred; the others go |
| Lists.FilterNoDuplicates | routes/api/profile.js:202 | filtering keeps a duplicate-free array duplicate-free |
| Lists.PullAll | routes/api/post.js:209 | `$pull`: the value no longer occurs; every other element stays |
| Lists.PullAllCount | routes/api/post.js:209 | `$pull` keeps every other element exactly as often as it occurred |
| Lists.PullAllNoDuplicates | routes/api/post.js:209 | `$pull` keeps the array duplicate-free |
| Lists.AddToSet | routes/api/post.js:178 | `$addToSet`: unchanged if present, otherwise the value appended |
| Lists.AddToSetIdempotent | routes/api/post.js:178 | adding twice is adding once |
| Lists.AddToSetNoDuplicates | routes/api/post.js:178 | `$addToSet` keeps the array duplicate-free |
| Lists.PullAfterAdd | routes/api/post.js:209 | pulling a value just added to an array that lacked it restores the array |
| Lists.PushFront | routes/api/profile.js:171-175 | `$push` with `$position: 0`: the entry first, the old ones after it in order |
| Mongoose.CastError | routes/api/post.js:75 | a failed cast has kind "ObjectId" |
| Mongoose.CastObjectId | routes/api/post.js:71 | a value casts exactly when it is an ObjectId (12 characters or 24 hex digits), and then to the ObjectId it denotes, in lower-case hexadecimal (`ObjectIdHex`) |
| Mongoose.ObjectIdHex | routes/api/post.js:71 | the hexadecimal form of the ObjectId a string denotes: 24 lower-case digits for every ObjectId string, with 24 hex digits of either case lowered and 12 characters taken as 12 bytes; any other string is kept |
| Mongoose.IsHexId | models/Post.js:5-8 | the form a stored ObjectId path holds: 24 lower-case hexadecimal digits |
| Mongoose.HexIdCastsToItself | routes/api/post.js:71 | an id already in hexadecimal form is an ObjectId and casts to itself |
| Mongoose.CastIdempotent | routes/api/post.js:71 | casting the hexadecimal form of a cast gives it back |
| Mongoose.LowerCaseSpelling | routes/api/post.js:71 | 24 hex digits of any case denote the ObjectId spelled with the same digits in lower case |
| Mongoose.CaseIsIgnored | routes/api/post.js:71 | "5F1A2B3C4D5E6F7A8B9C0D1E" and "5f1a2b3c4d5e6f7a8b9c0d1e" denote one ObjectId |
| Mongoose.CastIds | routes/api/post.js:118-119 | no error exactly when every id casts; an error is a cast error |
| Mongoose.QueryError | routes/api/post.js:73-79 | a cast error comes before the collection's error |
| Mongoose.QueryOne | routes/api/profile.js:22 | the query's error, or the first matching document, or null exactly when none matches |
| Mongoose.QueryAll | routes/api/post.js:89 | the query's error, or every matching document in order |
| Mongoose.UpdateFirst | routes/api/profile.js:69-75 | `findOneAndUpdate(..., {new: true})`: on an error or no match nothing changes; otherwise only the first match is replaced by its update, which is returned |
| Mongoose.RemoveFirst | routes/api/post.js:150 | `findOneAndRemove`: on an error or no match nothing changes; otherwise the first match is removed and returned, and the others stay |
| Mongoose.Store.FindOne | routes/api/post.js:71 | equals `QueryOne` on the current documents |
| Mongoose.Store.Find | routes/api/post.js:89 | equals `QueryAll` on the current documents |
| Mongoose.Store.FindOneAndUpdate | routes/api/post.js:175-181 | the result and the documents afterwards equal `UpdateFirst` |
| Mongoose.Store.FindOneAndRemove | routes/api/post.js:150 | the result and the documents afterwards equal `RemoveFirst` |
| Mongoose.Store.Save | routes/api/profile.js:79 | a document the schema refuses gives a validation error; then the collection's error; otherwise it is appended |
| Mongoose.IsObjectId | routes/api/post.js:75 | the strings that cast to an ObjectId: 12 characters, or 24 hexadecimal digits |
| Mongoose.RequiredString | models/Post.js:9-12 | a required String path: present and not empty |
| ProfileModel.NewExperience | server/models/Profile.js:22-41 | the body's paths are copied, `current` defaults to false, and the entry is valid exactly when title and company are given and non-empty |
| ProfileModel.NewEducation | server/models/Profile.js:42-70 | the body's paths are copied, `current` defaults to false, and the entry is valid exactly when school, degree, fieldofstudy, from and to are given |
| ProfileModel.ProfileValid | server/models/Profile.js:12-19 | status is required, skills must be present, and every experience and education entry must be valid |
| ProfileModel.ExperienceValid | server/models/Profile.js:24-31 | title and company are required |
| ProfileModel.EducationValid | server/models/Profile.js:44-63 | school, degree, fieldofstudy, from and to are required |
| PostModel.PostValid | models/Post.js:9-30 | text is required, and so is the text of every comment |
| PostModel.CommentValid | models/Post.js:27-30 | a comment's text is required |
| ProfileRoutes.RulesCheckNothing | routes/api/profile.js:9-12 | as written, the status and skills rules reach the field-name dispatcher and get no check; an empty body passes |
| ProfileRoutes.ExperienceRulesCheckNothing | routes/api/profile.js:146-150 | as written, the title, company and from rules get no check; an empty body passes |
| ProfileRoutes.EducationRulesCheckNothing | routes/api/profile.js:212-220 | as written, the school, degree, from and fieldofstudy rules get no check; an empty body passes |
| ProfileRoutes.TaggedRulesCheck | routes/api/profile.js:9-12 | through the flag dispatcher the same rules give not-empty checks, and an empty body fails with both messages |
| ProfileRoutes.TrimAll | routes/api/profile.js:56 | `.map(trim)`: as many parts as given, the i-th being the i-th part trimmed |
| ProfileRoutes.ParseSkills | routes/api/profile.js:56 | one skill per comma-separated part, in order, each trimmed; none holds a comma or has white space at an end |
| ProfileRoutes.SkillsRoundTrip | routes/api/profile.js:56 | clean skills joined with commas parse back to themselves |
| ProfileRoutes.SocialOf | routes/api/profile.js:57-64 | exactly the six links, each from the body path of the same name |
| ProfileRoutes.BuildProfileInfo | routes/api/profile.js:53-65 | defined exactly when the body has skills (otherwise `split` throws); `user` is always the requester, overriding the body; skills parsed; the social links; the other paths from the body |
| ProfileRoutes.SetInfo | routes/api/profile.js:72 | `$set`: the given paths replace the stored ones, absent ones keep theirs, the user becomes the cast ObjectId of the requester, and the id and entries stay |
| ProfileRoutes.SetWith | routes/api/profile.js:71-73 | defined as the update `{ $set: profileInfo }`: a profile becomes SetInfo of it and the information |
| ProfileRoutes.FromInfo | routes/api/profile.js:79 | the new profile has no entries, is valid exactly when status is given and non-empty, and setting the same information on it changes nothing |
| ProfileRoutes.SetInfoIdempotent | routes/api/profile.js:72 | setting the same information twice is setting it once |
| ProfileRoutes.OwnedBy | routes/api/profile.js:69-70 | defined as the filter `{ user: id }`: a profile matches exactly when its user is the ObjectId the id denotes (also at 136, 169, 201, 240 and 272) |
| ProfileRoutes.FindOneByUser | routes/api/profile.js:22 | a cast error for a non-ObjectId user id, then the collection's error; otherwise the user's profile, or null exactly when the user has none |
| ProfileRoutes.Me | routes/api/profile.js:20-38 | 400 "There is no profile for this user" exactly when the user has none; a lookup error gives 500 with its message; for a castable id and a working collection the user's first profile is sent with 200 |
| ProfileRoutes.GetMe | routes/api/profile.js:20-38 | the written response equals `Me` |
| ProfileRoutes.Stored | routes/api/profile.js:67-87 | a cast or collection error gives 500 and no change; an existing profile of the user is updated by `$set` in place and sent back; otherwise the new profile is appended and sent back if the schema accepts it, and refused with 500 if not. Only the user's profile changes |
| ProfileRoutes.Upserted | routes/api/profile.js:43-89 | validation errors give 400 and change nothing; a body without skills gets no reply; otherwise the upsert `Stored` of the built information |
| ProfileRoutes.Upsert | routes/api/profile.js:43-89 | the handler's response and the profiles afterwards equal `Upserted` |
| ProfileRoutes.Store | routes/api/profile.js:67-87 | the `try` block's response and the profiles afterwards equal `Stored` |
| ProfileRoutes.StoredTwice | routes/api/profile.js:69-83 | storing the same information again after a success leaves the profiles as they are |
| ProfileRoutes.UpsertTwice | routes/api/profile.js:69-83 | posting the same body twice leaves the profiles as the first post left them: no second profile is created |
| ProfileRoutes.PushExperience | routes/api/profile.js:168-179 | defined as `$push` with `$each: [entry]` and `$position: 0`: the profile's experience becomes PushFront of it and the entry |
| ProfileRoutes.PushEducation | routes/api/profile.js:239-250 | defined as the same `$push` on education: the profile's education becomes PushFront of it and the entry |
| ProfileRoutes.ExperienceNot | routes/api/profile.js:202 | defined as the entries `$pull: { experience: { _id } }` keeps: those whose id is not the ObjectId the given id denotes |
| ProfileRoutes.EducationNot | routes/api/profile.js:273 | defined as the entries `$pull: { education: { _id } }` keeps: those whose id is not the ObjectId the given id denotes |
| ProfileRoutes.PullExperience | routes/api/profile.js:200-204 | defined as the update `$pull: { experience: { _id } }`: the experience becomes Filter of it by ExperienceNot of the id |
| ProfileRoutes.PullEducation | routes/api/profile.js:271-275 | defined as the update `$pull: { education: { _id } }`: the education becomes Filter of it by EducationNot of the id |
| ProfileRoutes.AddedExperience | routes/api/profile.js:156-189 | validation errors give 400; a user without a profile gets 404 "Profile not found"; errors give 500; when the user has a profile, 200 with the new entry first in it and the old entries after it, and nothing else changes |
| ProfileRoutes.AddExperience | routes/api/profile.js:156-189 | the handler's response and the profiles afterwards equal `AddedExperience` |
| ProfileRoutes.RemovedExperience | routes/api/profile.js:194-210 | a non-ObjectId id or a failing collection gives 500 with the error and no change; no profile gives `null`; when the user has a profile, 200 with exactly the entries with that id removed from it, the others in order, and nothing else changes |
| ProfileRoutes.RemoveExperience | routes/api/profile.js:194-210 | the handler's response and the profiles afterwards equal `RemovedExperience` |
| ProfileRoutes.PullAfterPushExperience | routes/api/profile.js:200-204 | pulling an entry by the id just pushed under, which no old entry has, restores the profiles |
| ProfileRoutes.RemoveAfterAddExperience | routes/api/profile.js:168-179 | removing an experience right after adding it, under a fresh id in hexadecimal form (as Mongoose generates), gives the profiles back as they were |
| ProfileRoutes.AddedEducation | routes/api/profile.js:227-260 | as for experience: 400, 404 "Profile not found", 500, and when the user has a profile, 200 with the new entry first and the old ones after it |
| ProfileRoutes.AddEducation | routes/api/profile.js:227-260 | the handler's response and the profiles afterwards equal `AddedEducation` |
| ProfileRoutes.RemovedEducation | routes/api/profile.js:265-281 | as for experience: 500 with the error and no change on a bad id or a failing collection, `null` without a profile, and when the user has a profile, 200 with exactly the entries with that id removed |
| ProfileRoutes.RemoveEducation | routes/api/profile.js:265-281 | the handler's response and the profiles afterwards equal `RemovedEducation` |
| ProfileRoutes.PullAfterPushEducation | routes/api/profile.js:271-275 | pulling an education entry by the id just pushed under restores the profiles |
| ProfileRoutes.RemoveAfterAddEducation | routes/api/profile.js:239-250 | removing an education entry right after adding it, under a fresh id in hexadecimal form, gives the profiles back as they were |
| ProfileRoutes.DeletedAll | routes/api/profile.js:130-144 | a cast or collection error in the profile step gives 500 and no change; otherwise the user's first profile is removed (`RemoveFirst`). Then a failing users collection gives 500 with its message and leaves the profile removed; otherwise every user with the id is removed and the reply is 200 `{success: true, msg}` |
| ProfileRoutes.DeleteProfile | routes/api/profile.js:130-144 | the handler's response and both collections afterwards equal `DeletedAll` |
| PostRoutes.RulesCheckNothing | routes/api/post.js:10-12 | as written, the text rule reaches the field-name dispatcher and gets no check; a body without text passes |
| PostRoutes.TaggedRulesCheck | routes/api/post.js:10-12 | through the flag dispatcher the rule is a not-empty check on text, and a body without it fails |
| PostRoutes.Caught | routes/api/post.js:73-79 | a cast error (kind "ObjectId") gives 400 "Post not found!", any other error 500 with its message |
| PostRoutes.WithId | routes/api/post.js:71 | defined as the filter of `findById(post_id)`: a post matches exactly when its id is the ObjectId `post_id` denotes, whatever its letter case (also `{ _id: post_id }` at 176 and 207) |
| PostRoutes.ByAuthor | routes/api/post.js:89 | defined as the filter `{ user: user_id }`: a post matches exactly when its user is the ObjectId the id denotes |
| PostRoutes.Owned | routes/api/post.js:119 | defined as the filter `{ user: id, _id: post_id }`: the post has the ObjectId `post_id` denotes and belongs to the one `id` denotes (also at 150) |
| PostRoutes.SetText | routes/api/post.js:118-123 | defined as the update `{ text: req.body.text }`: only the text is replaced, an absent one becoming null |
| PostRoutes.AddLike | routes/api/post.js:175-181 | defined as the update `$addToSet: { likes: id }`: the likes become AddToSet of them and the cast ObjectId of the id |
| PostRoutes.PullLike | routes/api/post.js:206-212 | defined as the update `$pull: { likes: id }`: the likes become PullAll of them and the cast ObjectId of the id |
| PostRoutes.BadIdIsNotFound | routes/api/post.js:132-134 | any non-ObjectId id in any position of a query is answered 400 "Post not found!" |
| PostRoutes.Created | routes/api/post.js:20-49 | validation errors give 400; a missing author gives 500 with the destructuring TypeError; a lookup error gives 500; a post without text is refused with 500; a failing posts collection gives 500 with its error; otherwise a 200. A post is appended exactly when the reply is 200, and it carries the requester's cast ObjectId as user and the author's own name and avatar |
| PostRoutes.Create | routes/api/post.js:20-49 | the handler's response and the posts afterwards equal `Created` |
| PostRoutes.InsertOrder | routes/api/post.js:56 | inserting into a newest-first list keeps it newest first |
| PostRoutes.InsertMultiset | routes/api/post.js:56 | inserting adds exactly the one post, as a multiset |
| PostRoutes.InsertBound | routes/api/post.js:56 | inserting brings in no date later than those of the post and the list |
| PostRoutes.NewestFirst | routes/api/post.js:56 | `.sort({createdAt: -1})`: the same posts (as a multiset), newest first |
| PostRoutes.Everything | routes/api/post.js:56 | defined as the empty filter of `find({})`: every post matches |
| PostRoutes.Listing | routes/api/post.js:54-62 | a failing collection gives 500; otherwise all posts, newest first, and no other |
| PostRoutes.GetAll | routes/api/post.js:54-62 | the written response equals `Listing` |
| PostRoutes.ById | routes/api/post.js:67-80 | a query error is answered by the catch block (`Caught`), so a non-ObjectId id gives 400 "Post not found!"; otherwise a 200 carrying the stored post with that id, or null exactly when none exists |
| PostRoutes.SameObjectIdSameReply | routes/api/post.js:67-80 | two spellings of one ObjectId get the same reply |
| PostRoutes.UpperCaseIdFindsPost | routes/api/post.js:71 | a post stored under "5f1a2b3c4d5e6f7a8b9c0d1e" is sent with 200 for `GET /5F1A2B3C4D5E6F7A8B9C0D1E` |
| PostRoutes.GetById | routes/api/post.js:67-80 | the written response equals `ById` |
| PostRoutes.ByUser | routes/api/post.js:85-98 | a query error is answered by the catch block, so a non-ObjectId id gives 400 "Post not found!"; otherwise a 200 carrying exactly the user's posts, in collection order |
| PostRoutes.GetByUser | routes/api/post.js:85-98 | the written response equals `ByUser` |
| PostRoutes.Edited | routes/api/post.js:108-138 | a query error is answered by the catch block; when the requester owns a post with that id, its text is replaced and it is sent with 200; otherwise 400 "Could not update post". Only that post can change, and only its text |
| PostRoutes.Update | routes/api/post.js:108-138 | the handler's response and the posts afterwards equal `Edited` |
| PostRoutes.Removed | routes/api/post.js:143-164 | a query error is answered by the catch block; when the requester owns a post with that id, it is removed, the others stay in order, and it is sent with 200; otherwise 400 "Could not delete post" and no change |
| PostRoutes.Delete | routes/api/post.js:143-164 | the handler's response and the posts afterwards equal `Removed` |
| PostRoutes.Liked | routes/api/post.js:169-195 | a query error is answered by the catch block; 400 "No post found!" exactly when the ids cast and no post has the id; otherwise 200, adding the user to the first such post's likes unless present; no other post changes |
| PostRoutes.Like | routes/api/post.js:169-195 | the handler's response and the posts afterwards equal `Liked` |
| PostRoutes.Unliked | routes/api/post.js:200-226 | a query error is answered by the catch block; 400 "No post found!" exactly when the ids cast and no post has the id; otherwise 200, removing every occurrence of the user from the first such post's likes, the others in order; no other post changes |
| PostRoutes.Unlike | routes/api/post.js:200-226 | the handler's response and the posts afterwards equal `Unliked` |
| PostRoutes.LikesStayDistinct | routes/api/post.js:175-181 | liking and unliking keep every post's likes free of duplicates |
| PostRoutes.LikeTwice | routes/api/post.js:175-181 | liking twice leaves the posts as liking once |
| PostRoutes.UnlikeAfterLike | routes/api/post.js:206-212 | unliking right after a first like gives the posts back as they were |
| Server.WordSuffix | server.ts:26 | the length of the longest run of word characters `[A-Za-z0-9_]` ending the name |
| Server.ExtensionUnique | server.ts:26 | `\.\w+$` can match at one position at most |
| Server.RemoveExt | server.ts:26 | where `\.\w+$` matches, exactly the text before the match is kept; without a match the name is unchanged; the result is always a prefix |
| Server.RemoveExtExamples | server.ts:26 | auth.ts gives auth, a.b.ts gives a.b; README, "a." and "a.b-c" are unchanged |
| Server.GetRouteNames | server.ts:29 | one route name per file, in the listing's order |
| Server.CombinePath | server.ts:32 | `path.join(a, b)`: `a` when `b` is empty, otherwise `a`, a slash and `b` |
| Server.Mounts | server.ts:35-38 | one mount per name, in order: the prefix joined with the name, the module from the directory joined with it |
| Server.App.Use | server.ts:37 | one mount is appended to the application |
| Server.MountsSnoc | server.ts:35-38 | mounting one more name appends exactly its mount |
| Server.LoopRoutes | server.ts:35-38 | the application's mounts are the old ones followed by `Mounts` of the names |
| Server.GenRoutes | server.ts:40-44 | the routers of the listing are mounted under "/api" from "./routes/api", one per file, in order |
| Server.FileIsMounted | server.ts:35-41 | the k-th file is mounted at the prefix, a slash and its name without extension |

## Left out

- I/O, timing and concurrency. The HTTP server, `app.listen`, `express.json`, `fs.readdirSync` (the listing is a parameter) and `require` (a mount records the module path) are left out. So are dotenv (`Accounts.Config` is a parameter), the database connection (server/config/db.ts, config/db.js), the client and the wiring in server.js and routes/api/auth.js.
- bcrypt, jsonwebtoken and gravatar are uninterpreted functions. Hashing, signing, verification and token expiry are not modelled beyond passing `getExpiration()`.
- `populate("user", ["name", "avatar"])` in `GET /me` is left out: the stored profile is sent as it is.
- The `select("-password")` projection is modelled; other Mongoose projections, query options and middleware are not.
- Server.CombinePath: `path.join` normalisation (".", "..", repeated or trailing separators) is not modelled; names are joined with one slash.
- PostRoutes.NewestFirst: the order that MongoDB's sort gives posts with equal `createdAt` is not modelled. The result is only stated to be a newest-first permutation.
- Request bodies are maps from path to string. Mongoose's casting of body strings to Dates and Booleans, body keys outside the schema (dropped by strict mode), and the `...req.body` spread into a new post are not modelled. An experience or education body is taken as its typed input.
- express-validator's own validators are abstract. `isEmail` is a parameter, and a missing field reads as the empty string.
- Saving a document runs only the required-path rules. The messages Mongoose's ValidationError carries are abstracted to "<model> validation failed".
- The User schema is not part of this model. Its rules appear only as a possible write error (`writeFault`).
- `GET /profile/all` and `GET /profile/user/:id` are not part of this model. The catch block of the latter (routes/api/profile.js:118-124) refers to an undefined `err`, so its ObjectId branch cannot run as written.
- A throw before a handler's `try`, or inside the `jwt.sign` callback, becomes an unhandled rejection: the model writes no reply (`Http.NoReply`). Effects after such a throw (none in this code) and the process crash are not modelled. One such throw is not modelled at all: a verified token whose payload has no `user`, which AuthMiddleware allows (`Payload.user` is an Option). The identity, profile and post handlers read the id from `req.user` before their `try` (routes/api/auth.ts:25, for SignInHandler.GetAuthUser; server/routes/api/auth.ts:52, for SignInPipeline.GetUser, where `req.user.id` is evaluated as the argument of `findUserById` before `TE.tryCatch` runs; routes/api/post.js:29, 112-115, 144-147, 170-173 and 201-204; routes/api/profile.js:55, 131, 165, 195-198, 236 and 266-269), so such a request throws there and gets no reply. `GET /me` reads it inside its `try` (routes/api/profile.js:22), where the TypeError would be a 500. The handlers instead take the user's id, `userId`, as a plain string.
- `console.error` logging in the route handlers and the `timestamps` option are left out. Only `createdAt` is modelled, as a parameter. The gate's log is modelled.
- PostRoutes.Edited: for a body without text the update is `{ text: undefined }`. The model stores an absent (`None`) text; whether Mongoose drops such a key or stores null is not modelled.
- Comments on posts are modelled in the schema only; post.js has no comment routes.
- The profile and post handlers are modelled as if their routers loaded with the undefined validators dropped, the validation result being the `errors` parameter. As written, routes/api/profile.js and routes/api/post.js throw when they are required (see "## Findings"), so none of ProfileRoutes.Me, Upserted, AddedExperience, RemovedExperience, AddedEducation, RemovedEducation, DeletedAll, PostRoutes.Created, Listing, ById, ByUser, Edited, Removed, Liked and Unliked is reachable in the program as it stands. Since server.ts:44 runs `genRoutes` at the top level, before `app.listen` at server.ts:46, that throw ends the start-up itself: the server never listens, so sign-in, registration and `GET /api/auth` are not served either. The model does not capture that start-up failure; each router is modelled as if the server had started.
- Mongoose.ObjectIdHex: a 12-character id is taken as 12 bytes, one per character, keeping each character's low byte. How bson treats characters outside ASCII in such an id depends on its version and is not modelled. Stored ObjectId paths are taken to hold the hexadecimal form `toHexString` gives (`IsHexId`); the model does not state this as an invariant of the collections, and a stored id in another spelling would not match.
- Accounts.UserStore.FindByIdAndRemove: Mongoose removes one document with the id; the model removes every user with it (`WithoutId`). The two agree when ids are unique, which the model does not state as an invariant.
- Validation.Run: express-validator's `check()` looks for the field in the body, cookies, headers, params and query; the model reads the body only.

## Findings

| source | as written | input that shows it | evidently intended | confidence | as-written member | corrected member |
|---|---|---|---|---|---|---|
| routes/api/profile.js:9-12 | the profile, experience and education rules carry `notEmpty: true` but are passed to the field-name `getChecks` of utils/userChecks.js, which maps every field other than name, email and password to no validator (`undefined`, which Express also refuses as a route handler) | loading the router, which `server.ts` does at start-up: Express 4 flattens `[checkToken, getChecks(check, postProfileCheck())]` and `Route.post()` throws "requires a callback function but got a [object Undefined]" at routes/api/profile.js:43-45 (likewise at 156-158 and 227-229); `genRoutes` runs at server.ts:44, before `app.listen` at server.ts:46, so the server never starts and no route at all is served | the router loads, and `POST /api/profile` with the body `{}` gets a 400 reply listing "Status is required" and "Skills are required", as the flag-based `buildChecks` of utils/userChecks.ts gives | not executed | ProfileRoutes.RulesCheckNothing | ProfileRoutes.TaggedRulesCheck |
| routes/api/post.js:10-12 | the post rule `{ field: "text", notEmpty: true }` goes through the same field-name `getChecks` and gets no validator | loading the router: `Route.post()` and `Route.put()` throw on the undefined validator at routes/api/post.js:20-22 and 108-110, which ends the start-up at server.ts:44 before `app.listen`, so no route at all is served | the router loads, and `POST /api/post` with the body `{}` gets a 400 reply "Text is required" | not executed | PostRoutes.RulesCheckNothing | PostRoutes.TaggedRulesCheck |
