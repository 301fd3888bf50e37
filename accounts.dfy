/** What the sign-in, registration and user routes share: the user record,
    the token claims, the process configuration, the libraries the routes
    call (bcrypt, jsonwebtoken, gravatar) and the users collection. */
module Accounts {
  import opened Js
  import opened Mongoose
  import opened Lists

  /** A stored user; `password` holds the bcrypt hash. */
  datatype User = User(id: string, name: string, email: string, password: string, avatar: string)

  /** A user as `select("-password")` returns it. */
  datatype PublicUser = PublicUser(id: string, name: string, email: string, avatar: string)

  function WithoutPassword(u: User): (p: PublicUser)
    ensures p.id == u.id && p.name == u.name && p.email == u.email && p.avatar == u.avatar
  {
    PublicUser(u.id, u.name, u.email, u.avatar)
  }

  /** The identity a token carries, `{ id }`. */
  datatype Identity = Identity(id: string)

  /** The token payload `{ user: { id } }`. */
  datatype Claims = Claims(user: Identity)

  /** The process configuration: `process.env.JWT_SECRET`, the `jwtSecret`
      of the `config` package, and `process.env.MODE` (None when unset). */
  datatype Config = Config(jwtSecret: string, configSecret: string, mode: Option<string>)

  /** `getExpiration()`: the `expiresIn` given to jwt.sign, in seconds. */
  function GetExpiration(mode: Option<string>): (seconds: int)
    ensures mode == Some("dev") ==> seconds == 3600000
    ensures mode != Some("dev") ==> seconds == 3600
  {
    if mode == Some("dev") then 3600000 else 3600
  }

  /** The options of `gravatar.url(email, { s, rating, d })`. */
  datatype GravatarOptions = GravatarOptions(s: string, rating: string, d: string)

  /** The libraries the routes call, each as the function of its inputs it
      is; a thrown error (or an error handed to a callback) is a Left.
      - compare(plain, hash): bcrypt.compare
      - genSalt(rounds): bcrypt.genSalt
      - hash(plain, salt): bcrypt.hash
      - sign(payload, secret, expiresIn): jwt.sign, as its callback sees it
      - gravatar(email, options): gravatar.url */
  datatype Libraries = Libraries(
    compare: (string, string) -> Either<Error, bool>,
    genSalt: int -> Either<Error, string>,
    hash: (string, string) -> Either<Error, string>,
    sign: (Claims, string, int) -> Either<Error, string>,
    gravatar: (string, GravatarOptions) -> string)

  /** The users collection as the routes see it: its documents in natural
      order; `fault`, the error every query throws while it is Some; and
      `writeFault`, the error `save` throws (a write failure, or a rule of
      the User schema, which is not part of this model). */
  datatype UserDb = UserDb(users: seq<User>, fault: Option<Error>, writeFault: Option<Error>)

  /** The first user (in natural order) with this email. */
  function FirstWithEmail(users: seq<User>, email: string): (r: Option<User>)
    ensures r.None? <==> forall i :: 0 <= i < |users| ==> users[i].email != email
    ensures r.Some? ==> r.value.email == email
    ensures r.Some? ==> exists i :: 0 <= i < |users| && users[i] == r.value && forall j :: 0 <= j < i ==> users[j].email != email
  {
    if users == [] then None
    else if users[0].email == email then Some(users[0])
    else
      var r := FirstWithEmail(users[1..], email);
      assert forall i :: 1 <= i < |users| ==> users[i] == users[1..][i - 1];
      r
  }

  /** The first user (in natural order) with this id. */
  function FirstWithId(users: seq<User>, id: string): (r: Option<User>)
    ensures r.None? <==> forall i :: 0 <= i < |users| ==> users[i].id != id
    ensures r.Some? ==> r.value in users && r.value.id == id
  {
    if users == [] then None
    else if users[0].id == id then Some(users[0])
    else
      var r := FirstWithId(users[1..], id);
      assert forall i :: 1 <= i < |users| ==> users[i] == users[1..][i - 1];
      r
  }

  /** `User.findOne({ email }).exec()`: the error, or the user (None is null). */
  function FindOneByEmail(db: UserDb, email: string): (r: Either<Error, Option<User>>)
    ensures db.fault.Some? ==> r == Left(db.fault.value)
    ensures db.fault.None? ==> r.Right? && (r.right.Some? ==> r.right.value in db.users && r.right.value.email == email)
    ensures db.fault.None? ==> (r.right.None? <==> forall u :: u in db.users ==> u.email != email)
  {
    match db.fault
    case Some(e) => Left(e)
    case None => Right(FirstWithEmail(db.users, email))
  }

  /** `User.findById(id).exec()`: the id is cast first, then the query
      looks for the ObjectId it denotes. */
  function FindById(db: UserDb, id: string): (r: Either<Error, Option<User>>)
    ensures !IsObjectId(id) ==> r.Left? && r.left.kind == Some(ObjectIdKind)
    ensures IsObjectId(id) && db.fault.Some? ==> r == Left(db.fault.value)
    ensures IsObjectId(id) && db.fault.None? ==> r.Right? && (r.right.Some? ==> r.right.value in db.users && r.right.value.id == ObjectIdHex(id))
    ensures IsObjectId(id) && db.fault.None? ==> (r.right.None? <==> forall u :: u in db.users ==> u.id != ObjectIdHex(id))
  {
    match CastObjectId(id)
    case Left(e) => Left(e)
    case Right(oid) =>
      match db.fault
      case Some(e) => Left(e)
      case None => Right(FirstWithId(db.users, oid))
  }

  /** The users collection, updated in place by registration and deletion. */
  class UserStore {
    var users: seq<User>
    var fault: Option<Error>
    var writeFault: Option<Error>

    constructor (users: seq<User>, fault: Option<Error>, writeFault: Option<Error>)
      ensures this.users == users && this.fault == fault && this.writeFault == writeFault
    {
      this.users := users;
      this.fault := fault;
      this.writeFault := writeFault;
    }

    function Db(): UserDb
      reads this
    {
      UserDb(users, fault, writeFault)
    }

    /** `User.findOne({ email }).exec()` */
    method FindOne(email: string) returns (r: Either<Error, Option<User>>)
      ensures r == FindOneByEmail(Db(), email)
    {
      match fault
      case Some(e) => r := Left(e);
      case None => r := Right(FirstWithEmail(users, email));
    }

    /** `newUser.save()`: appends the document unless the write fails. */
    method Save(u: User) returns (r: Option<Error>)
      modifies this`users
      ensures r == writeFault
      ensures users == if r.Some? then old(users) else old(users) + [u]
    {
      r := writeFault;
      if writeFault.None? {
        users := users + [u];
      }
    }

    /** `User.findByIdAndRemove(id)`: removes the users with the ObjectId
        that `id` denotes. */
    method FindByIdAndRemove(id: string) returns (r: Option<Error>)
      modifies this`users
      ensures !IsObjectId(id) ==> r.Some? && r.value.kind == Some(ObjectIdKind)
      ensures IsObjectId(id) ==> r == fault
      ensures users == if r.Some? then old(users) else WithoutId(old(users), ObjectIdHex(id))
    {
      var cast := CastObjectId(id);
      if cast.Left? {
        r := Some(cast.left);
      } else {
        r := fault;
        if fault.None? {
          users := WithoutId(users, cast.right);
        }
      }
    }
  }

  /** The users whose id is not `id`, in their order: a Filter, so
      FilterConcat and FilterCount fix the order and the multiplicities. */
  function WithoutId(users: seq<User>, id: string): (r: seq<User>)
    ensures forall u :: u in r <==> u in users && u.id != id
  {
    Filter(users, (u: User) => u.id != id)
  }
}
