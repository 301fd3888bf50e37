/** routes/api/profile.js: building the profile from the request body, and
    the handlers that read and change the stored profiles. Every profile
    query matches the requester's profile by its `user` path, so every one
    of them casts the requester's id to an ObjectId first. */
module ProfileRoutes {
  import opened Js
  import opened Http
  import opened Mongoose
  import opened Validation
  import opened Text
  import opened Lists
  import opened ProfileModel
  import opened Accounts
  import UserChecks
  import UserChecksByField

  /** The rules the file declares; they go through the field-name dispatcher. */
  const ProfileRules := [
    Rule("status", "Status is required", true, false, false),
    Rule("skills", "Skills are required", true, false, false)
  ]
  const ExperienceRules := [
    Rule("title", "Title is required", true, false, false),
    Rule("company", "Company is required", true, false, false),
    Rule("from", "From date is required", true, false, false)
  ]
  const EducationRules := [
    Rule("school", "School is required", true, false, false),
    Rule("degree", "Degree is required", true, false, false),
    Rule("from", "From date is required", true, false, false),
    Rule("fieldofstudy", "Field of study is required", true, false, false)
  ]

  const NoProfile := "There is no profile for this user"
  const ProfileNotFound := "Profile not found"
  const DeletedMsg := "Profile sucessfully deleted."

  // ---------------------------------------------------------------------
  // The rules as written and as intended

  /** As written: none of the fields is name, email or password, so the
      field-name dispatcher gives no check for any rule, and a body with
      neither status nor skills passes validation. */
  lemma RulesCheckNothing(isEmail: string -> bool)
    ensures UserChecksByField.GetChecks(ProfileRules) == [None, None]
    ensures Run(UserChecksByField.GetChecks(ProfileRules), map[], isEmail) == []
  {
    UserChecksByField.UnlistedFieldsValidateNothing(ProfileRules, map[], isEmail);
  }

  /** As written, the experience rules get no check either. */
  lemma ExperienceRulesCheckNothing(isEmail: string -> bool)
    ensures UserChecksByField.GetChecks(ExperienceRules) == [None, None, None]
    ensures Run(UserChecksByField.GetChecks(ExperienceRules), map[], isEmail) == []
  {
    UserChecksByField.UnlistedFieldsValidateNothing(ExperienceRules, map[], isEmail);
  }

  /** As written, the education rules get no check either. */
  lemma EducationRulesCheckNothing(isEmail: string -> bool)
    ensures UserChecksByField.GetChecks(EducationRules) == [None, None, None, None]
    ensures Run(UserChecksByField.GetChecks(EducationRules), map[], isEmail) == []
  {
    UserChecksByField.UnlistedFieldsValidateNothing(EducationRules, map[], isEmail);
  }

  /** As intended: the tag dispatcher reads the `notEmpty` flags, and the
      empty body is refused with both messages. */
  lemma TaggedRulesCheck(isEmail: string -> bool)
    ensures UserChecks.BuildChecks(ProfileRules) == [
      Some(Check(NotEmpty, "status", "Status is required")),
      Some(Check(NotEmpty, "skills", "Skills are required"))
    ]
    ensures Run(UserChecks.BuildChecks(ProfileRules), map[], isEmail) == [
      FieldError("status", "Status is required"),
      FieldError("skills", "Skills are required")
    ]
  {
    var checks := UserChecks.BuildChecks(ProfileRules);
    assert checks[0] == UserChecks.HandleField(ProfileRules[0]);
    assert checks[1] == UserChecks.HandleField(ProfileRules[1]);
    assert checks[1..][1..] == [];
  }

  // ---------------------------------------------------------------------
  // Building the profile

  /** A body path, absent when the body lacks it. */
  function Field(body: map<string, string>, key: string): (v: Option<string>)
    ensures v.Some? <==> key in body
    ensures v.Some? ==> v.value == body[key]
  {
    if key in body then Some(body[key]) else None
  }

  /** Each piece trimmed, in order. */
  function TrimAll(parts: seq<string>): (r: seq<string>)
    ensures |r| == |parts|
    ensures forall i :: 0 <= i < |r| ==> r[i] == Trim(parts[i])
  {
    seq(|parts|, i requires 0 <= i < |parts| => Trim(parts[i]))
  }

  /** `skills.split(",").map((skill) => skill.trim())`: at least one piece,
      one per comma-separated part in order, none holding a comma, none
      with white space at either end. */
  function ParseSkills(s: string): (skills: seq<string>)
    ensures |skills| == |SplitOn(s, ',')| >= 1
    ensures forall i :: 0 <= i < |skills| ==> skills[i] == Trim(SplitOn(s, ',')[i])
    ensures forall i :: 0 <= i < |skills| ==> ',' !in skills[i] && Clean(skills[i])
  {
    var parts := SplitOn(s, ',');
    var skills := TrimAll(parts);
    forall i | 0 <= i < |skills|
      ensures ',' !in skills[i] && Clean(skills[i])
    {
      TrimKeepsOut(parts[i], ',');
    }
    skills
  }

  /** Skills that are already clean survive being joined with commas and
      parsed again. */
  lemma {:induction false} SkillsRoundTrip(skills: seq<string>)
    requires |skills| >= 1
    requires forall i :: 0 <= i < |skills| ==> ',' !in skills[i] && Clean(skills[i])
    ensures ParseSkills(JoinWith(skills, ',')) == skills
  {
    var joined := JoinWith(skills, ',');
    SplitJoin(skills, ',');
    var parts := SplitOn(joined, ',');
    assert parts == skills;
    var r := ParseSkills(joined);
    assert |r| == |skills|;
    forall i | 0 <= i < |skills|
      ensures r[i] == skills[i]
    {
      assert r[i] == Trim(parts[i]);
      TrimOfTrimmed(skills[i]);
    }
  }

  /** The six links, each taken from the body path of the same name. */
  function SocialOf(body: map<string, string>): (s: Social)
    ensures s.youtube == Field(body, "youtube") && s.twitter == Field(body, "twitter")
    ensures s.facebook == Field(body, "facebook") && s.linkedin == Field(body, "linkedin")
    ensures s.instagram == Field(body, "instagram") && s.discord == Field(body, "discord")
  {
    Social(Field(body, "youtube"), Field(body, "twitter"), Field(body, "facebook"),
           Field(body, "linkedin"), Field(body, "instagram"), Field(body, "discord"))
  }

  /** `profileInfo`: the body's own profile paths (absent ones stay absent),
      with `user`, `skills` and `social` replaced. */
  datatype ProfileInfo = ProfileInfo(
    user: string,
    company: Option<string>,
    website: Option<string>,
    location: Option<string>,
    status: Option<string>,
    bio: Option<string>,
    guthubusername: Option<string>,
    skills: seq<string>,
    social: Social)

  /** Building `profileInfo`; `None` when the body has no `skills`, where
      `req.body.skills.split` throws before the `try`. */
  function BuildProfileInfo(body: map<string, string>, userId: string): (r: Option<ProfileInfo>)
    ensures r.Some? <==> "skills" in body
    ensures r.Some? ==> r.value.user == userId
    ensures r.Some? ==> r.value.skills == ParseSkills(body["skills"])
    ensures r.Some? ==> r.value.social == SocialOf(body)
    ensures r.Some? ==> r.value.status == Field(body, "status") && r.value.company == Field(body, "company")
    ensures r.Some? ==> r.value.website == Field(body, "website") && r.value.location == Field(body, "location")
    ensures r.Some? ==> r.value.bio == Field(body, "bio") && r.value.guthubusername == Field(body, "guthubusername")
  {
    if "skills" !in body then None
    else
      Some(ProfileInfo(userId, Field(body, "company"), Field(body, "website"), Field(body, "location"),
                       Field(body, "status"), Field(body, "bio"), Field(body, "guthubusername"),
                       ParseSkills(body["skills"]), SocialOf(body)))
  }

  /** A given value, or the old one when the path was not given. */
  function Given<T>(given: Option<T>, old_: Option<T>): Option<T>
  {
    if given.Some? then given else old_
  }

  /** `$set: profileInfo`: the given paths replace the stored ones; the
      entries and the id stay. */
  function SetInfo(p: Profile, info: ProfileInfo): (q: Profile)
    ensures q.id == p.id && q.experience == p.experience && q.education == p.education
    ensures q.user == Some(ObjectIdHex(info.user)) && q.skills == Some(info.skills) && q.social == info.social
    ensures q.status == (if info.status.Some? then info.status else p.status)
    ensures q.company == (if info.company.Some? then info.company else p.company)
    ensures q.website == (if info.website.Some? then info.website else p.website)
    ensures q.location == (if info.location.Some? then info.location else p.location)
    ensures q.bio == (if info.bio.Some? then info.bio else p.bio)
    ensures q.guthubusername == (if info.guthubusername.Some? then info.guthubusername else p.guthubusername)
  {
    p.(user := Some(ObjectIdHex(info.user)), company := Given(info.company, p.company), website := Given(info.website, p.website),
       location := Given(info.location, p.location), status := Given(info.status, p.status),
       skills := Some(info.skills), bio := Given(info.bio, p.bio),
       guthubusername := Given(info.guthubusername, p.guthubusername), social := info.social)
  }

  /** `$set: profileInfo` as an update. */
  function SetWith(info: ProfileInfo): Profile -> Profile
  {
    (p: Profile) => SetInfo(p, info)
  }

  /** `new Profile(profileInfo)`: no entries yet. */
  function FromInfo(id: string, info: ProfileInfo): (p: Profile)
    ensures p.id == id && p.experience == [] && p.education == []
    ensures ProfileValid(p) <==> RequiredString(info.status)
    ensures SetInfo(p, info) == p
  {
    Profile(id, Some(ObjectIdHex(info.user)), info.company, info.website, info.location, info.status,
            Some(info.skills), info.bio, info.guthubusername, [], [], info.social)
  }

  /** Setting the same information twice is setting it once. */
  lemma SetInfoIdempotent(p: Profile, info: ProfileInfo)
    ensures SetInfo(SetInfo(p, info), info) == SetInfo(p, info)
  {
  }

  // ---------------------------------------------------------------------
  // The profiles collection

  type ProfileDb = Collection<Profile>
  type ProfileStore = Store<Profile>

  /** The filter `{ user: id }`. */
  function OwnedBy(userId: string): Profile -> bool
  {
    (p: Profile) => p.user == Some(ObjectIdHex(userId))
  }

  /** `Profile.findOne({ user })`: the user's first profile, after the
      user's id is cast. */
  function FindOneByUser(db: ProfileDb, userId: string): (r: Either<Error, Option<Profile>>)
    ensures !IsObjectId(userId) ==> r.Left? && r.left.kind == Some(ObjectIdKind)
    ensures IsObjectId(userId) && db.fault.Some? ==> r == Left(db.fault.value)
    ensures IsObjectId(userId) && db.fault.None? ==> r.Right?
    ensures r.Right? ==> (r.right.None? <==> forall i :: 0 <= i < |db.docs| ==> db.docs[i].user != Some(ObjectIdHex(userId)))
    ensures r.Right? && r.right.Some? ==> r.right.value in db.docs && r.right.value.user == Some(ObjectIdHex(userId))
  {
    CastOne(userId);
    QueryOne(db, [userId], OwnedBy(userId))
  }

  // ---------------------------------------------------------------------
  // The handlers

  /** What a profile handler sends as JSON: a profile (`null` when absent)
      or the deletion notice. */
  datatype ProfileJson = Doc(profile: Option<Profile>) | Deleted(success: bool, msg: string)

  /** The reply and the profiles collection after a request. */
  datatype Outcome = Outcome(reply: Sent<ProfileJson>, profiles: seq<Profile>)

  /** The catch blocks: 500 with the error's message. */
  function Failed(e: Error, profiles: seq<Profile>): Outcome
  {
    Outcome(ErrorReply(500, e.message), profiles)
  }

  /** `GET /me`; population of the owner's name and avatar is not modelled. */
  function Me(db: ProfileDb, userId: string): (reply: Sent<ProfileJson>)
    ensures reply.status in {200, 400, 500}
    ensures reply.status == 400 <==> FindOneByUser(db, userId) == Right(None)
    ensures FindOneByUser(db, userId) == Right(None) ==> reply == ErrorReply(400, "There is no profile for this user")
    ensures FindOneByUser(db, userId).Left? ==> reply == ErrorReply(500, FindOneByUser(db, userId).left.message)
    ensures IsObjectId(userId) && db.fault.None? && FirstIndex(db.docs, OwnedBy(userId)).Some? ==>
      reply == JsonReply(Doc(Some(db.docs[FirstIndex(db.docs, OwnedBy(userId)).value])))
    ensures reply.status == 200 ==> exists p :: p in db.docs && p.user == Some(ObjectIdHex(userId)) && reply == JsonReply(Doc(Some(p)))
  {
    match FindOneByUser(db, userId)
    case Left(e) => ErrorReply(500, e.message)
    case Right(None) => ErrorReply(400, NoProfile)
    case Right(Some(p)) => JsonReply(Doc(Some(p)))
  }

  method GetMe(store: ProfileStore, res: Response<ProfileJson>, userId: string)
    requires res.Fresh()
    modifies res
    ensures res.Snapshot() == Me(store.Db(), userId)
  {
    var profile := store.FindOne([userId], OwnedBy(userId));
    if profile.Left? {
      res.SetStatus(500);
      res.Json(Errors([Msg(profile.left.message)]));
      return;
    }
    if profile.right.None? {
      res.SetStatus(400);
      res.Json(Errors([Msg(NoProfile)]));
      return;
    }
    res.Json(Json(Doc(profile.right)));
  }

  /** The upsert proper: `$set` on the user's first profile, or, when
      there is none, a new profile with id `newId`, which must pass the
      schema. Only the user's profile changes, and the one sent back is
      the one now stored. */
  function Stored(info: ProfileInfo, db: ProfileDb, newId: string): (o: Outcome)
    ensures o.profiles == db.docs || (db.fault.None? && IsObjectId(info.user))
    ensures FirstIndex(db.docs, OwnedBy(info.user)).Some? ==> |o.profiles| == |db.docs|
    ensures |o.profiles| >= |db.docs|
    ensures forall j :: 0 <= j < |db.docs| && db.docs[j].user != Some(ObjectIdHex(info.user)) ==> o.profiles[j] == db.docs[j]
    ensures o.reply.status in {200, 500} && o.reply.body.Some?
    ensures o.reply.status == 200 ==>
      o.reply.body.value.Json? && o.reply.body.value.value.Doc? && o.reply.body.value.value.profile.Some?
    ensures o.reply.status == 200 ==>
      var p := o.reply.body.value.value.profile.value;
      (p in o.profiles && p.user == Some(ObjectIdHex(info.user)) && p.skills == Some(info.skills) && p.social == info.social)
    ensures !IsObjectId(info.user) || db.fault.Some? ==> o == Failed(QueryError(db, [info.user]).value, db.docs)
    ensures IsObjectId(info.user) && db.fault.None? && FirstIndex(db.docs, OwnedBy(info.user)).Some? ==>
      var i := FirstIndex(db.docs, OwnedBy(info.user)).value;
      var q := SetInfo(db.docs[i], info);
      o == Outcome(JsonReply(Doc(Some(q))), db.docs[i := q])
    ensures IsObjectId(info.user) && db.fault.None? && FirstIndex(db.docs, OwnedBy(info.user)).None? ==>
      var p := FromInfo(newId, info);
      (ProfileValid(p) ==> o == Outcome(JsonReply(Doc(Some(p))), db.docs + [p]))
      && (!ProfileValid(p) ==> o == Failed(ValidationFailed("profile"), db.docs))
  {
    CastOne(info.user);
    var u := UpdateFirst(db, [info.user], OwnedBy(info.user), SetWith(info));
    match u.result
    case Left(e) => Failed(e, db.docs)
    case Right(Some(p)) =>
      assert p == u.docs[FirstIndex(db.docs, OwnedBy(info.user)).value];
      Outcome(JsonReply(Doc(Some(p))), u.docs)
    case Right(None) =>
      var p := FromInfo(newId, info);
      if !ProfileValid(p) then Failed(ValidationFailed("profile"), db.docs)
      else
        var profiles := db.docs + [p];
        assert profiles[|db.docs|] == p;
        Outcome(JsonReply(Doc(Some(p))), profiles)
  }

  /** `POST /`: validation, then `profileInfo`, then the upsert. */
  function Upserted(errors: seq<ErrorItem>, body: map<string, string>, userId: string, db: ProfileDb, newId: string): (o: Outcome)
    ensures errors != [] ==> o == Outcome(Sent(400, Some(Errors(errors))), db.docs)
    ensures errors == [] && "skills" !in body ==> o == Outcome(NoReply(), db.docs)
    ensures errors == [] && "skills" in body ==> o == Stored(BuildProfileInfo(body, userId).value, db, newId)
    ensures o.profiles == db.docs || (errors == [] && "skills" in body && db.fault.None? && IsObjectId(userId))
    ensures o.reply.status == 200 && o.reply.body.Some? ==>
      var p := o.reply.body.value;
      (p.Json? && p.value.Doc? && p.value.profile.Some? && p.value.profile.value in o.profiles
       && p.value.profile.value.user == Some(ObjectIdHex(userId))
       && p.value.profile.value.skills == Some(ParseSkills(body["skills"]))
       && p.value.profile.value.social == SocialOf(body))
  {
    if errors != [] then Outcome(Sent(400, Some(Errors(errors))), db.docs)
    else match BuildProfileInfo(body, userId)
      case None => Outcome(NoReply(), db.docs)
      case Some(info) => Stored(info, db, newId)
  }

  /** Posting the same body twice leaves the collection as the first post
      left it: the second finds the profile the first made or updated. */
  lemma UpsertTwice(body: map<string, string>, userId: string, db: ProfileDb, newId: string, otherId: string)
    requires Upserted([], body, userId, db, newId).reply.status == 200 && Upserted([], body, userId, db, newId).reply.body.Some?
    ensures var after := Collection(Upserted([], body, userId, db, newId).profiles, db.fault);
      Upserted([], body, userId, after, otherId).profiles == after.docs
  {
    StoredTwice(BuildProfileInfo(body, userId).value, db, newId, otherId);
  }

  lemma StoredTwice(info: ProfileInfo, db: ProfileDb, newId: string, otherId: string)
    requires Stored(info, db, newId).reply.status == 200
    ensures Stored(info, Collection(Stored(info, db, newId).profiles, db.fault), otherId).profiles == Stored(info, db, newId).profiles
  {
    var userId := info.user;
    var f := SetWith(info);
    var u := UpdateFirst(db, [userId], OwnedBy(userId), f);
    assert [userId][0] == userId;
    assert u.result.Right?;
    match FirstIndex(db.docs, OwnedBy(userId))
    case Some(i) =>
      var q := SetInfo(db.docs[i], info);
      assert u.docs == db.docs[i := q];
      FirstIndexAfterUpdate(db.docs, OwnedBy(userId), i, q);
      SetInfoIdempotent(db.docs[i], info);
      var after := Collection(u.docs, db.fault);
      assert UpdateFirst(after, [userId], OwnedBy(userId), f).docs == u.docs;
    case None =>
      var p := FromInfo(newId, info);
      var profiles := db.docs + [p];
      assert Stored(info, db, newId).profiles == profiles;
      FirstIndexAfterAppend(db.docs, OwnedBy(userId), p);
      var after := Collection(profiles, db.fault);
      assert UpdateFirst(after, [userId], OwnedBy(userId), f).docs == profiles[|db.docs| := f(p)];
      assert profiles[|db.docs| := f(p)] == profiles;
  }

  method Upsert(store: ProfileStore, res: Response<ProfileJson>, errors: seq<ErrorItem>, body: map<string, string>, userId: string, newId: string)
    requires res.Fresh()
    modifies res, store`docs
    ensures Outcome(res.Snapshot(), store.docs) == Upserted(errors, body, userId, old(store.Db()), newId)
  {
    if errors != [] {
      res.SetStatus(400);
      res.Json(Errors(errors));
      return;
    }
    var info := BuildProfileInfo(body, userId);
    if info.None? {
      return;
    }
    Store(store, res, info.value, newId);
  }

  /** The `try` block of `POST /`. */
  method Store(store: ProfileStore, res: Response<ProfileJson>, info: ProfileInfo, newId: string)
    requires res.Fresh()
    modifies res, store`docs
    ensures Outcome(res.Snapshot(), store.docs) == Stored(info, old(store.Db()), newId)
  {
    var profile := store.FindOneAndUpdate([info.user], OwnedBy(info.user), SetWith(info));
    if profile.Left? {
      res.SetStatus(500);
      res.Json(Errors([Msg(profile.left.message)]));
      return;
    }
    if profile.right.None? {
      var created := FromInfo(newId, info);
      var saved := store.Save(created, ProfileValid, "profile");
      if saved.Some? {
        res.SetStatus(500);
        res.Json(Errors([Msg(saved.value.message)]));
        return;
      }
      res.Json(Json(Doc(Some(created))));
      return;
    }
    res.Json(Json(Doc(profile.right)));
  }

  /** `$push` at `$position: 0`. */
  function PushExperience(e: Experience): Profile -> Profile
  {
    (p: Profile) => p.(experience := PushFront(p.experience, e))
  }

  function PushEducation(e: Education): Profile -> Profile
  {
    (p: Profile) => p.(education := PushFront(p.education, e))
  }

  /** The entries `$pull: { experience: { _id } }` keeps. */
  function ExperienceNot(id: string): Experience -> bool
  {
    (e: Experience) => e.id != ObjectIdHex(id)
  }

  function EducationNot(id: string): Education -> bool
  {
    (e: Education) => e.id != ObjectIdHex(id)
  }

  /** `$pull: { experience: { _id } }`. */
  function PullExperience(id: string): Profile -> Profile
  {
    (p: Profile) => p.(experience := Filter(p.experience, ExperienceNot(id)))
  }

  function PullEducation(id: string): Profile -> Profile
  {
    (p: Profile) => p.(education := Filter(p.education, EducationNot(id)))
  }

  /** `PUT /experience`: the entry, with the new id `newId`, goes first and
      the user's old entries follow in their order. The update does not run
      the schema's validators. */
  function AddedExperience(errors: seq<ErrorItem>, input: ExperienceInput, userId: string, db: ProfileDb, newId: string): (o: Outcome)
    ensures errors != [] ==> o == Outcome(Sent(400, Some(Errors(errors))), db.docs)
    ensures errors == [] && FindOneByUser(db, userId) == Right(None) ==> o == Outcome(ErrorReply(404, "Profile not found"), db.docs)
    ensures errors == [] && FindOneByUser(db, userId).Left? ==> o == Failed(FindOneByUser(db, userId).left, db.docs)
    ensures o.reply.status == 200 ==>
      exists i :: 0 <= i < |db.docs| && db.docs[i].user == Some(ObjectIdHex(userId))
        && var p := db.docs[i];
           var q := p.(experience := [NewExperience(newId, input)] + p.experience);
           o == Outcome(JsonReply(Doc(Some(q))), db.docs[i := q])
    ensures errors == [] && IsObjectId(userId) && db.fault.None? && FirstIndex(db.docs, OwnedBy(userId)).Some? ==>
      var i := FirstIndex(db.docs, OwnedBy(userId)).value;
      var q := db.docs[i].(experience := [NewExperience(newId, input)] + db.docs[i].experience);
      o == Outcome(JsonReply(Doc(Some(q))), db.docs[i := q])
  {
    CastOne(userId);
    if errors != [] then Outcome(Sent(400, Some(Errors(errors))), db.docs)
    else
      var u := UpdateFirst(db, [userId], OwnedBy(userId), PushExperience(NewExperience(newId, input)));
      match u.result
      case Left(e) => Failed(e, db.docs)
      case Right(None) => Outcome(ErrorReply(404, ProfileNotFound), db.docs)
      case Right(Some(p)) => Outcome(JsonReply(Doc(Some(p))), u.docs)
  }

  method AddExperience(store: ProfileStore, res: Response<ProfileJson>, errors: seq<ErrorItem>, input: ExperienceInput, userId: string, newId: string)
    requires res.Fresh()
    modifies res, store`docs
    ensures Outcome(res.Snapshot(), store.docs) == AddedExperience(errors, input, userId, old(store.Db()), newId)
  {
    if errors != [] {
      res.SetStatus(400);
      res.Json(Errors(errors));
      return;
    }
    var profile := store.FindOneAndUpdate([userId], OwnedBy(userId), PushExperience(NewExperience(newId, input)));
    if profile.Left? {
      res.SetStatus(500);
      res.Json(Errors([Msg(profile.left.message)]));
      return;
    }
    if profile.right.None? {
      res.SetStatus(404);
      res.Json(Errors([Msg(ProfileNotFound)]));
      return;
    }
    res.Json(Json(Doc(profile.right)));
  }

  /** `PUT /experience/:exp_id`: the user's entries with that id go, the
      others stay in order; `null` is sent when the user has no profile. */
  function RemovedExperience(expId: string, userId: string, db: ProfileDb): (o: Outcome)
    ensures o.reply.status in {200, 500}
    ensures !IsObjectId(userId) || !IsObjectId(expId) || db.fault.Some? ==> o.reply.status == 500 && o.profiles == db.docs
    ensures FindOneByUser(db, userId) == Right(None) && IsObjectId(expId) ==> o == Outcome(JsonReply(Doc(None)), db.docs)
    ensures o.reply.status == 200 && o.profiles != db.docs ==>
      exists i :: 0 <= i < |db.docs| && db.docs[i].user == Some(ObjectIdHex(userId))
        && var p := db.docs[i];
           var q := p.(experience := Filter(p.experience, ExperienceNot(expId)));
           o == Outcome(JsonReply(Doc(Some(q))), db.docs[i := q])
    ensures !IsObjectId(userId) || !IsObjectId(expId) || db.fault.Some? ==> o == Failed(QueryError(db, [userId, expId]).value, db.docs)
    ensures IsObjectId(userId) && IsObjectId(expId) && db.fault.None? && FirstIndex(db.docs, OwnedBy(userId)).Some? ==>
      var i := FirstIndex(db.docs, OwnedBy(userId)).value;
      var q := db.docs[i].(experience := Filter(db.docs[i].experience, ExperienceNot(expId)));
      o == Outcome(JsonReply(Doc(Some(q))), db.docs[i := q])
  {
    CastTwo(userId, expId);
    var u := UpdateFirst(db, [userId, expId], OwnedBy(userId), PullExperience(expId));
    match u.result
    case Left(e) => Failed(e, db.docs)
    case Right(p) => Outcome(JsonReply(Doc(p)), u.docs)
  }

  method RemoveExperience(store: ProfileStore, res: Response<ProfileJson>, expId: string, userId: string)
    requires res.Fresh()
    modifies res, store`docs
    ensures Outcome(res.Snapshot(), store.docs) == RemovedExperience(expId, userId, old(store.Db()))
  {
    var profile := store.FindOneAndUpdate([userId, expId], OwnedBy(userId), PullExperience(expId));
    if profile.Left? {
      res.SetStatus(500);
      res.Json(Errors([Msg(profile.left.message)]));
      return;
    }
    res.Json(Json(Doc(profile.right)));
  }

  /** Removing an entry right after adding it, under an id no old entry
      has, gives the profiles back as they were. */
  lemma RemoveAfterAddExperience(input: ExperienceInput, userId: string, db: ProfileDb, newId: string)
    requires AddedExperience([], input, userId, db, newId).reply.status == 200
    requires IsHexId(newId)
    requires forall p, j :: p in db.docs && 0 <= j < |p.experience| ==> p.experience[j].id != newId
    ensures RemovedExperience(newId, userId, Collection(AddedExperience([], input, userId, db, newId).profiles, db.fault)).profiles == db.docs
  {
    var e := NewExperience(newId, input);
    var u := UpdateFirst(db, [userId], OwnedBy(userId), PushExperience(e));
    assert AddedExperience([], input, userId, db, newId).profiles == u.docs;
    CastTwo(userId, newId);
    PullAfterPushExperience(db, userId, e);
  }

  /** The same at the level of the queries. */
  lemma PullAfterPushExperience(db: ProfileDb, userId: string, e: Experience)
    requires UpdateFirst(db, [userId], OwnedBy(userId), PushExperience(e)).result.Right?
    requires UpdateFirst(db, [userId], OwnedBy(userId), PushExperience(e)).result.right.Some?
    requires IsHexId(e.id)
    requires forall p, j :: p in db.docs && 0 <= j < |p.experience| ==> p.experience[j].id != e.id
    ensures var after := Collection(UpdateFirst(db, [userId], OwnedBy(userId), PushExperience(e)).docs, db.fault);
      UpdateFirst(after, [userId, e.id], OwnedBy(userId), PullExperience(e.id)).docs == db.docs
  {
    var u := UpdateFirst(db, [userId], OwnedBy(userId), PushExperience(e));
    CastOne(userId);
    HexIdCastsToItself(e.id);
    CastTwo(userId, e.id);
    var i := FirstIndex(db.docs, OwnedBy(userId)).value;
    var p := db.docs[i];
    var q := PushExperience(e)(p);
    assert u.docs == db.docs[i := q];
    FirstIndexAfterUpdate(db.docs, OwnedBy(userId), i, q);
    assert p in db.docs;
    FilterDropsHead(e, p.experience, ExperienceNot(e.id));
    assert PullExperience(e.id)(q) == p;
    var w := UpdateFirst(Collection(u.docs, db.fault), [userId, e.id], OwnedBy(userId), PullExperience(e.id));
    assert w.docs == u.docs[i := PullExperience(e.id)(q)];
    assert u.docs[i := p] == db.docs;
  }

  /** `PUT /education`: as for experience. */
  function AddedEducation(errors: seq<ErrorItem>, input: EducationInput, userId: string, db: ProfileDb, newId: string): (o: Outcome)
    ensures errors != [] ==> o == Outcome(Sent(400, Some(Errors(errors))), db.docs)
    ensures errors == [] && FindOneByUser(db, userId) == Right(None) ==> o == Outcome(ErrorReply(404, "Profile not found"), db.docs)
    ensures errors == [] && FindOneByUser(db, userId).Left? ==> o == Failed(FindOneByUser(db, userId).left, db.docs)
    ensures o.reply.status == 200 ==>
      exists i :: 0 <= i < |db.docs| && db.docs[i].user == Some(ObjectIdHex(userId))
        && var p := db.docs[i];
           var q := p.(education := [NewEducation(newId, input)] + p.education);
           o == Outcome(JsonReply(Doc(Some(q))), db.docs[i := q])
    ensures errors == [] && IsObjectId(userId) && db.fault.None? && FirstIndex(db.docs, OwnedBy(userId)).Some? ==>
      var i := FirstIndex(db.docs, OwnedBy(userId)).value;
      var q := db.docs[i].(education := [NewEducation(newId, input)] + db.docs[i].education);
      o == Outcome(JsonReply(Doc(Some(q))), db.docs[i := q])
  {
    CastOne(userId);
    if errors != [] then Outcome(Sent(400, Some(Errors(errors))), db.docs)
    else
      var u := UpdateFirst(db, [userId], OwnedBy(userId), PushEducation(NewEducation(newId, input)));
      match u.result
      case Left(e) => Failed(e, db.docs)
      case Right(None) => Outcome(ErrorReply(404, ProfileNotFound), db.docs)
      case Right(Some(p)) => Outcome(JsonReply(Doc(Some(p))), u.docs)
  }

  method AddEducation(store: ProfileStore, res: Response<ProfileJson>, errors: seq<ErrorItem>, input: EducationInput, userId: string, newId: string)
    requires res.Fresh()
    modifies res, store`docs
    ensures Outcome(res.Snapshot(), store.docs) == AddedEducation(errors, input, userId, old(store.Db()), newId)
  {
    if errors != [] {
      res.SetStatus(400);
      res.Json(Errors(errors));
      return;
    }
    var profile := store.FindOneAndUpdate([userId], OwnedBy(userId), PushEducation(NewEducation(newId, input)));
    if profile.Left? {
      res.SetStatus(500);
      res.Json(Errors([Msg(profile.left.message)]));
      return;
    }
    if profile.right.None? {
      res.SetStatus(404);
      res.Json(Errors([Msg(ProfileNotFound)]));
      return;
    }
    res.Json(Json(Doc(profile.right)));
  }

  /** `PUT /education/:edu_id`: as for experience. */
  function RemovedEducation(eduId: string, userId: string, db: ProfileDb): (o: Outcome)
    ensures o.reply.status in {200, 500}
    ensures !IsObjectId(userId) || !IsObjectId(eduId) || db.fault.Some? ==> o.reply.status == 500 && o.profiles == db.docs
    ensures FindOneByUser(db, userId) == Right(None) && IsObjectId(eduId) ==> o == Outcome(JsonReply(Doc(None)), db.docs)
    ensures o.reply.status == 200 && o.profiles != db.docs ==>
      exists i :: 0 <= i < |db.docs| && db.docs[i].user == Some(ObjectIdHex(userId))
        && var p := db.docs[i];
           var q := p.(education := Filter(p.education, EducationNot(eduId)));
           o == Outcome(JsonReply(Doc(Some(q))), db.docs[i := q])
    ensures !IsObjectId(userId) || !IsObjectId(eduId) || db.fault.Some? ==> o == Failed(QueryError(db, [userId, eduId]).value, db.docs)
    ensures IsObjectId(userId) && IsObjectId(eduId) && db.fault.None? && FirstIndex(db.docs, OwnedBy(userId)).Some? ==>
      var i := FirstIndex(db.docs, OwnedBy(userId)).value;
      var q := db.docs[i].(education := Filter(db.docs[i].education, EducationNot(eduId)));
      o == Outcome(JsonReply(Doc(Some(q))), db.docs[i := q])
  {
    CastTwo(userId, eduId);
    var u := UpdateFirst(db, [userId, eduId], OwnedBy(userId), PullEducation(eduId));
    match u.result
    case Left(e) => Failed(e, db.docs)
    case Right(p) => Outcome(JsonReply(Doc(p)), u.docs)
  }

  method RemoveEducation(store: ProfileStore, res: Response<ProfileJson>, eduId: string, userId: string)
    requires res.Fresh()
    modifies res, store`docs
    ensures Outcome(res.Snapshot(), store.docs) == RemovedEducation(eduId, userId, old(store.Db()))
  {
    var profile := store.FindOneAndUpdate([userId, eduId], OwnedBy(userId), PullEducation(eduId));
    if profile.Left? {
      res.SetStatus(500);
      res.Json(Errors([Msg(profile.left.message)]));
      return;
    }
    res.Json(Json(Doc(profile.right)));
  }

  /** Removing an education entry right after adding it, under an id no old
      entry has, gives the profiles back as they were. */
  lemma RemoveAfterAddEducation(input: EducationInput, userId: string, db: ProfileDb, newId: string)
    requires AddedEducation([], input, userId, db, newId).reply.status == 200
    requires IsHexId(newId)
    requires forall p, j :: p in db.docs && 0 <= j < |p.education| ==> p.education[j].id != newId
    ensures RemovedEducation(newId, userId, Collection(AddedEducation([], input, userId, db, newId).profiles, db.fault)).profiles == db.docs
  {
    var e := NewEducation(newId, input);
    var u := UpdateFirst(db, [userId], OwnedBy(userId), PushEducation(e));
    assert AddedEducation([], input, userId, db, newId).profiles == u.docs;
    CastTwo(userId, newId);
    PullAfterPushEducation(db, userId, e);
  }

  lemma PullAfterPushEducation(db: ProfileDb, userId: string, e: Education)
    requires UpdateFirst(db, [userId], OwnedBy(userId), PushEducation(e)).result.Right?
    requires UpdateFirst(db, [userId], OwnedBy(userId), PushEducation(e)).result.right.Some?
    requires IsHexId(e.id)
    requires forall p, j :: p in db.docs && 0 <= j < |p.education| ==> p.education[j].id != e.id
    ensures var after := Collection(UpdateFirst(db, [userId], OwnedBy(userId), PushEducation(e)).docs, db.fault);
      UpdateFirst(after, [userId, e.id], OwnedBy(userId), PullEducation(e.id)).docs == db.docs
  {
    var u := UpdateFirst(db, [userId], OwnedBy(userId), PushEducation(e));
    CastOne(userId);
    HexIdCastsToItself(e.id);
    CastTwo(userId, e.id);
    var i := FirstIndex(db.docs, OwnedBy(userId)).value;
    var p := db.docs[i];
    var q := PushEducation(e)(p);
    assert u.docs == db.docs[i := q];
    FirstIndexAfterUpdate(db.docs, OwnedBy(userId), i, q);
    assert p in db.docs;
    FilterDropsHead(e, p.education, EducationNot(e.id));
    assert PullEducation(e.id)(q) == p;
    var w := UpdateFirst(Collection(u.docs, db.fault), [userId, e.id], OwnedBy(userId), PullEducation(e.id));
    assert w.docs == u.docs[i := PullEducation(e.id)(q)];
    assert u.docs[i := p] == db.docs;
  }

  /** The reply and both collections after `DELETE /`. */
  datatype DeleteOutcome = DeleteOutcome(reply: Sent<ProfileJson>, profiles: seq<Profile>, users: seq<User>)

  /** `DELETE /`: the user's profile goes, then the user. An error from the
      second step leaves the first step's removal in place. */
  function DeletedAll(userId: string, db: ProfileDb, users: UserDb): (o: DeleteOutcome)
    ensures o.reply.status in {200, 500}
    ensures o.reply.status == 200 <==> IsObjectId(userId) && db.fault.None? && users.fault.None?
    ensures o.reply.status == 200 ==> o.reply == JsonReply(Deleted(true, "Profile sucessfully deleted."))
    ensures o.reply.status == 200 ==> forall j :: 0 <= j < |o.users| ==> o.users[j].id != ObjectIdHex(userId)
    ensures o.reply.status == 200 ==> forall p :: p in o.profiles ==> p in db.docs
    ensures o.reply.status == 200 ==> forall j :: 0 <= j < |o.profiles| ==> o.profiles[j] in db.docs
    ensures (!IsObjectId(userId) || db.fault.Some?) ==> o.profiles == db.docs && o.users == users.users
    ensures forall j :: 0 <= j < |db.docs| && db.docs[j].user != Some(ObjectIdHex(userId)) ==> db.docs[j] in o.profiles
    ensures forall u :: u in users.users && u.id != ObjectIdHex(userId) ==> u in o.users
    ensures !IsObjectId(userId) || db.fault.Some? ==>
      o == DeleteOutcome(ErrorReply(500, QueryError(db, [userId]).value.message), db.docs, users.users)
    ensures IsObjectId(userId) && db.fault.None? ==> o.profiles == RemoveFirst(db, [userId], OwnedBy(userId)).docs
    ensures IsObjectId(userId) && db.fault.None? && users.fault.Some? ==>
      o.reply == ErrorReply(500, users.fault.value.message) && o.users == users.users
    ensures IsObjectId(userId) && db.fault.None? && users.fault.None? ==> o.users == WithoutId(users.users, ObjectIdHex(userId))
  {
    CastOne(userId);
    var removed := RemoveFirst(db, [userId], OwnedBy(userId));
    match removed.result
    case Left(e) => DeleteOutcome(ErrorReply(500, e.message), db.docs, users.users)
    case Right(_) =>
      if users.fault.Some? then DeleteOutcome(ErrorReply(500, users.fault.value.message), removed.docs, users.users)
      else
        var rest := WithoutId(users.users, ObjectIdHex(userId));
        assert forall j :: 0 <= j < |rest| ==> rest[j] in rest;
        DeleteOutcome(JsonReply(Deleted(true, DeletedMsg)), removed.docs, rest)
  }

  method DeleteProfile(store: ProfileStore, users: UserStore, res: Response<ProfileJson>, userId: string)
    requires res.Fresh()
    modifies res, store`docs, users`users
    ensures DeleteOutcome(res.Snapshot(), store.docs, users.users) == DeletedAll(userId, old(store.Db()), old(users.Db()))
  {
    var removed := store.FindOneAndRemove([userId], OwnedBy(userId));
    if removed.Left? {
      res.SetStatus(500);
      res.Json(Errors([Msg(removed.left.message)]));
      return;
    }
    var gone := users.FindByIdAndRemove(userId);
    if gone.Some? {
      res.SetStatus(500);
      res.Json(Errors([Msg(gone.value.message)]));
      return;
    }
    res.Json(Json(Deleted(true, DeletedMsg)));
  }
}
