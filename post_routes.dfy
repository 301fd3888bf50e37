/** routes/api/post.js: creating, listing, changing and removing posts, and
    liking them. The handlers' catch blocks, except those of create and of
    the full listing, turn a failed ObjectId cast into 400 "Post not found!". */
module PostRoutes {
  import opened Js
  import opened Http
  import opened Mongoose
  import opened Validation
  import opened Lists
  import opened PostModel
  import opened Accounts
  import UserChecks
  import UserChecksByField

  /** The rule the create and update routes declare. */
  const PostRules := [Rule("text", "Text is required", true, false, false)]

  const PostNotFound := "Post not found!"
  const NoPost := "No post found!"
  const CouldNotUpdate := "Could not update post"
  const CouldNotDelete := "Could not delete post"
  /** The TypeError destructuring `{ avatar, name }` from a missing user throws. */
  const NullUser := "Cannot destructure property 'avatar' of '(intermediate value)' as it is null."

  type PostDb = Collection<Post>
  type PostStore = Store<Post>

  /** As written: "text" is not a field the field-name dispatcher knows, so
      the rule checks nothing and a body without text passes validation. */
  lemma RulesCheckNothing(isEmail: string -> bool)
    ensures UserChecksByField.GetChecks(PostRules) == [None]
    ensures Run(UserChecksByField.GetChecks(PostRules), map[], isEmail) == []
  {
    UserChecksByField.UnlistedFieldsValidateNothing(PostRules, map[], isEmail);
  }

  /** As intended: the tag dispatcher reads the `notEmpty` flag, and a body
      without text is refused. */
  lemma TaggedRulesCheck(isEmail: string -> bool)
    ensures UserChecks.BuildChecks(PostRules) == [Some(Check(NotEmpty, "text", "Text is required"))]
    ensures Run(UserChecks.BuildChecks(PostRules), map[], isEmail) == [FieldError("text", "Text is required")]
  {
    assert UserChecks.BuildChecks(PostRules)[0] == UserChecks.HandleField(PostRules[0]);
  }

  /** What a post handler sends as JSON: one post (`null` when absent) or a list. */
  datatype PostJson = One(post: Option<Post>) | Many(posts: seq<Post>)

  /** The reply and the posts collection after a request. */
  datatype Outcome = Outcome(reply: Sent<PostJson>, posts: seq<Post>)

  /** The catch blocks that test the error's kind. */
  function Caught(e: Error): (r: Sent<PostJson>)
    ensures e.kind == Some(ObjectIdKind) ==> r == ErrorReply(400, "Post not found!")
    ensures e.kind != Some(ObjectIdKind) ==> r == ErrorReply(500, e.message)
  {
    if e.kind == Some(ObjectIdKind) then ErrorReply(400, PostNotFound) else ErrorReply(500, e.message)
  }

  /** Any id that is not an ObjectId, in any position of a query, is
      answered 400 "Post not found!", whatever the collection holds. */
  lemma BadIdIsNotFound(db: PostDb, ids: seq<string>, k: nat)
    requires k < |ids| && !IsObjectId(ids[k])
    ensures QueryError(db, ids).Some?
    ensures Caught(QueryError(db, ids).value) == ErrorReply(400, "Post not found!")
  {
  }

  // ---------------------------------------------------------------------
  // Filters and updates. Mongoose casts each id in a filter or an update to
  // the ObjectId it denotes, so stored ids are compared with `ObjectIdHex`
  // of the request's id.

  /** `{ _id: post_id }` */
  function WithId(postId: string): Post -> bool
  {
    (p: Post) => p.id == ObjectIdHex(postId)
  }

  /** `{ user: id }` */
  function ByAuthor(userId: string): Post -> bool
  {
    (p: Post) => p.user == Some(ObjectIdHex(userId))
  }

  /** `{ user: id, _id: post_id }` */
  function Owned(userId: string, postId: string): Post -> bool
  {
    (p: Post) => p.user == Some(ObjectIdHex(userId)) && p.id == ObjectIdHex(postId)
  }

  /** `{ text: req.body.text }`: an absent text is written as null. */
  function SetText(text: Option<string>): Post -> Post
  {
    (p: Post) => p.(text := text)
  }

  /** `$addToSet: { likes: id }` */
  function AddLike(userId: string): Post -> Post
  {
    (p: Post) => p.(likes := AddToSet(p.likes, ObjectIdHex(userId)))
  }

  /** `$pull: { likes: id }` */
  function PullLike(userId: string): Post -> Post
  {
    (p: Post) => p.(likes := PullAll(p.likes, ObjectIdHex(userId)))
  }

  // ---------------------------------------------------------------------
  // Creating

  /** `POST /`: the author's name and avatar are copied into the post; the
      schema then refuses a post without text. `newId` and `now` are the id
      and the creation time Mongoose gives the document. */
  function Created(errors: seq<ErrorItem>, text: Option<string>, userId: string, users: UserDb, db: PostDb, newId: string, now: int): (o: Outcome)
    ensures errors != [] ==> o == Outcome(Sent(400, Some(Errors(errors))), db.docs)
    ensures errors == [] && FindById(users, userId) == Right(None) ==> o == Outcome(ErrorReply(500, NullUser), db.docs)
    ensures errors == [] && FindById(users, userId).Left? ==> o == Outcome(ErrorReply(500, FindById(users, userId).left.message), db.docs)
    ensures errors == [] && !RequiredString(text) ==> o.reply.status == 500 && o.posts == db.docs
    ensures o.posts == db.docs || (|o.posts| == |db.docs| + 1 && o.posts[..|db.docs|] == db.docs)
    ensures o.posts != db.docs <==> o.reply.status == 200
    ensures o.reply.status == 200 ==>
      var p := o.posts[|db.docs|];
      (o.reply == JsonReply(One(Some(p))) && p.id == newId && p.user == Some(ObjectIdHex(userId)) && p.text == text
       && p.likes == [] && p.comments == [] && p.createdAt == now
       && exists u :: u in users.users && u.id == ObjectIdHex(userId) && p.name == Some(u.name) && p.avatar == Some(u.avatar))
    ensures errors == [] && FindById(users, userId).Right? && FindById(users, userId).right.Some? && RequiredString(text) ==>
      (db.fault.Some? ==> o == Outcome(ErrorReply(500, db.fault.value.message), db.docs))
      && (db.fault.None? ==> o.reply.status == 200)
  {
    if errors != [] then Outcome(Sent(400, Some(Errors(errors))), db.docs)
    else match FindById(users, userId)
      case Left(e) => Outcome(ErrorReply(500, e.message), db.docs)
      case Right(None) => Outcome(ErrorReply(500, NullUser), db.docs)
      case Right(Some(u)) =>
        var post := Post(newId, Some(ObjectIdHex(userId)), text, Some(u.name), Some(u.avatar), [], [], now);
        if !PostValid(post) then Outcome(ErrorReply(500, ValidationFailed("post").message), db.docs)
        else match db.fault
          case Some(e) => Outcome(ErrorReply(500, e.message), db.docs)
          case None =>
            var posts := db.docs + [post];
            assert posts[..|db.docs|] == db.docs && posts[|db.docs|] == post;
            assert posts != db.docs by { assert |posts| == |db.docs| + 1; }
            Outcome(JsonReply(One(Some(post))), posts)
  }

  method Create(store: PostStore, users: UserStore, res: Response<PostJson>, errors: seq<ErrorItem>, text: Option<string>, userId: string, newId: string, now: int)
    requires res.Fresh()
    modifies res, store`docs
    ensures Outcome(res.Snapshot(), store.docs) == Created(errors, text, userId, users.Db(), old(store.Db()), newId, now)
  {
    if errors != [] {
      res.SetStatus(400);
      res.Json(Errors(errors));
      return;
    }
    if !IsObjectId(userId) {
      res.SetStatus(500);
      res.Json(Errors([Msg(CastError(userId).message)]));
      return;
    }
    if users.fault.Some? {
      res.SetStatus(500);
      res.Json(Errors([Msg(users.fault.value.message)]));
      return;
    }
    var user := FirstWithId(users.users, ObjectIdHex(userId));
    if user.None? {
      res.SetStatus(500);
      res.Json(Errors([Msg(NullUser)]));
      return;
    }
    var newPost := Post(newId, Some(ObjectIdHex(userId)), text, Some(user.value.name), Some(user.value.avatar), [], [], now);
    var saved := store.Save(newPost, PostValid, "post");
    if saved.Some? {
      res.SetStatus(500);
      res.Json(Errors([Msg(saved.value.message)]));
      return;
    }
    res.Json(Json(One(Some(newPost))));
  }

  // ---------------------------------------------------------------------
  // Listing

  /** Newer (or equally new) posts before older ones. */
  predicate NewestFirstOrder(ps: seq<Post>)
  {
    forall i, j :: 0 <= i < j < |ps| ==> ps[i].createdAt >= ps[j].createdAt
  }

  /** `p` placed before the first post no newer than it. */
  function Insert(p: Post, ps: seq<Post>): (r: seq<Post>)
    ensures |r| == |ps| + 1
  {
    if ps == [] || p.createdAt >= ps[0].createdAt then [p] + ps
    else [ps[0]] + Insert(p, ps[1..])
  }

  /** Inserting adds exactly `p`. */
  lemma {:induction false} InsertMultiset(p: Post, ps: seq<Post>)
    ensures multiset(Insert(p, ps)) == multiset(ps) + multiset{p}
  {
    if ps == [] || p.createdAt >= ps[0].createdAt {
    } else {
      InsertMultiset(p, ps[1..]);
      assert ps == [ps[0]] + ps[1..];
    }
  }

  /** A bound on the dates of `p` and of `ps` bounds the dates after inserting. */
  lemma {:induction false} InsertBound(p: Post, ps: seq<Post>, b: int)
    requires p.createdAt <= b
    requires forall k :: 0 <= k < |ps| ==> ps[k].createdAt <= b
    ensures forall k :: 0 <= k < |Insert(p, ps)| ==> Insert(p, ps)[k].createdAt <= b
  {
    if ps == [] || p.createdAt >= ps[0].createdAt {
    } else {
      InsertBound(p, ps[1..], b);
    }
  }

  /** Inserting into a newest-first list keeps it newest first. */
  lemma {:induction false} InsertOrder(p: Post, ps: seq<Post>)
    requires NewestFirstOrder(ps)
    ensures NewestFirstOrder(Insert(p, ps))
  {
    if ps == [] || p.createdAt >= ps[0].createdAt {
      ConsNewest(p, ps);
    } else {
      var tail := ps[1..];
      assert NewestFirstOrder(tail) by {
        forall i, j | 0 <= i < j < |tail|
          ensures tail[i].createdAt >= tail[j].createdAt
        {
          assert tail[i] == ps[i + 1] && tail[j] == ps[j + 1];
        }
      }
      InsertOrder(p, tail);
      forall k | 0 <= k < |tail|
        ensures tail[k].createdAt <= ps[0].createdAt
      {
        assert tail[k] == ps[k + 1];
      }
      InsertBound(p, tail, ps[0].createdAt);
      ConsNewest(ps[0], Insert(p, tail));
    }
  }

  /** A post no older than the first of a newest-first list can go before it. */
  lemma ConsNewest(x: Post, rs: seq<Post>)
    requires NewestFirstOrder(rs)
    requires rs == [] || x.createdAt >= rs[0].createdAt
    ensures NewestFirstOrder([x] + rs)
  {
    var r := [x] + rs;
    forall i, j | 0 <= i < j < |r|
      ensures r[i].createdAt >= r[j].createdAt
    {
      if i == 0 {
        assert r[j] == rs[j - 1];
        if j > 1 {
          assert rs[0].createdAt >= rs[j - 1].createdAt;
        }
      } else {
        assert r[i] == rs[i - 1] && r[j] == rs[j - 1];
      }
    }
  }

  /** `.sort({ createdAt: -1 })`: the same posts, newest first. The order
      among posts created at the same time is not modelled. */
  function NewestFirst(ps: seq<Post>): (r: seq<Post>)
    ensures NewestFirstOrder(r)
    ensures multiset(r) == multiset(ps)
    ensures |r| == |ps|
  {
    if ps == [] then []
    else
      var r := Insert(ps[0], NewestFirst(ps[1..]));
      InsertOrder(ps[0], NewestFirst(ps[1..]));
      InsertMultiset(ps[0], NewestFirst(ps[1..]));
      assert ps == [ps[0]] + ps[1..];
      assert |r| == |multiset(r)|;
      r
  }

  /** `{}` */
  function Everything(): Post -> bool
  {
    (p: Post) => true
  }

  /** `GET /all`: every post, newest first. */
  function Listing(db: PostDb): (reply: Sent<PostJson>)
    ensures db.fault.Some? ==> reply == ErrorReply(500, db.fault.value.message)
    ensures db.fault.None? ==> reply.status == 200 && reply.body.Some? && reply.body.value.Json? && reply.body.value.value.Many?
    ensures db.fault.None? ==>
      var ps := reply.body.value.value.posts;
      (NewestFirstOrder(ps) && multiset(ps) == multiset(db.docs))
  {
    FilterKeepsAll(db.docs, Everything());
    match QueryAll(db, [], Everything())
    case Left(e) => ErrorReply(500, e.message)
    case Right(ps) => JsonReply(Many(NewestFirst(ps)))
  }

  method GetAll(store: PostStore, res: Response<PostJson>)
    requires res.Fresh()
    modifies res
    ensures res.Snapshot() == Listing(store.Db())
  {
    var posts := store.Find([], Everything());
    if posts.Left? {
      res.SetStatus(500);
      res.Json(Errors([Msg(posts.left.message)]));
      return;
    }
    res.Json(Json(Many(NewestFirst(posts.right))));
  }

  /** `GET /:post_id`: the post with that id, or `null`. */
  function ById(postId: string, db: PostDb): (reply: Sent<PostJson>)
    ensures !IsObjectId(postId) ==> reply == ErrorReply(400, "Post not found!")
    ensures reply.status == 200 ==> reply.body.Some? && reply.body.value.Json? && reply.body.value.value.One?
    ensures reply.status == 200 ==>
      var found := reply.body.value.value.post;
      (found.None? <==> forall i :: 0 <= i < |db.docs| ==> db.docs[i].id != ObjectIdHex(postId))
    ensures reply.status == 200 && reply.body.value.value.post.Some? ==>
      reply.body.value.value.post.value in db.docs && reply.body.value.value.post.value.id == ObjectIdHex(postId)
    ensures QueryError(db, [postId]).Some? ==> reply == Caught(QueryError(db, [postId]).value)
    ensures QueryError(db, [postId]).None? ==> reply.status == 200
  {
    CastOne(postId);
    match QueryOne(db, [postId], WithId(postId))
    case Left(e) => Caught(e)
    case Right(p) => JsonReply(One(p))
  }

  /** Two spellings of one ObjectId get the same answer. */
  lemma SameObjectIdSameReply(a: string, b: string, db: PostDb)
    requires IsObjectId(a) && IsObjectId(b) && ObjectIdHex(a) == ObjectIdHex(b)
    ensures ById(a, db) == ById(b, db)
  {
    CastOne(a);
    CastOne(b);
    assert WithId(a) == WithId(b);
  }

  /** A post stored under a lower-case id is found by its upper-case spelling. */
  lemma UpperCaseIdFindsPost(p: Post)
    requires p.id == "5f1a2b3c4d5e6f7a8b9c0d1e"
    ensures ById("5F1A2B3C4D5E6F7A8B9C0D1E", Collection([p], None)) == JsonReply(One(Some(p)))
  {
    CaseIsIgnored();
    HexIdCastsToItself("5f1a2b3c4d5e6f7a8b9c0d1e");
    CastOne("5F1A2B3C4D5E6F7A8B9C0D1E");
    assert FirstIndex([p], WithId("5F1A2B3C4D5E6F7A8B9C0D1E")) == Some(0);
  }

  method GetById(store: PostStore, res: Response<PostJson>, postId: string)
    requires res.Fresh()
    modifies res
    ensures res.Snapshot() == ById(postId, store.Db())
  {
    var post := store.FindOne([postId], WithId(postId));
    if post.Left? {
      var r := Caught(post.left);
      res.SetStatus(r.status);
      res.Json(r.body.value);
      return;
    }
    res.Json(Json(One(post.right)));
  }

  /** `GET /all/:user_id`: the user's posts, in collection order. */
  function ByUser(userId: string, db: PostDb): (reply: Sent<PostJson>)
    ensures !IsObjectId(userId) ==> reply == ErrorReply(400, "Post not found!")
    ensures reply.status == 200 ==> reply == JsonReply(Many(Filter(db.docs, ByAuthor(userId))))
    ensures reply.status == 200 ==> forall i :: 0 <= i < |db.docs| && db.docs[i].user == Some(ObjectIdHex(userId)) ==> db.docs[i] in reply.body.value.value.posts
    ensures reply.status == 200 ==> forall p :: p in reply.body.value.value.posts ==> p in db.docs && p.user == Some(ObjectIdHex(userId))
    ensures QueryError(db, [userId]).Some? ==> reply == Caught(QueryError(db, [userId]).value)
    ensures QueryError(db, [userId]).None? ==> reply.status == 200
  {
    CastOne(userId);
    match QueryAll(db, [userId], ByAuthor(userId))
    case Left(e) => Caught(e)
    case Right(ps) =>
      assert forall j :: 0 <= j < |ps| ==> ps[j] in ps;
      JsonReply(Many(ps))
  }

  method GetByUser(store: PostStore, res: Response<PostJson>, userId: string)
    requires res.Fresh()
    modifies res
    ensures res.Snapshot() == ByUser(userId, store.Db())
  {
    var posts := store.Find([userId], ByAuthor(userId));
    if posts.Left? {
      var r := Caught(posts.left);
      res.SetStatus(r.status);
      res.Json(r.body.value);
      return;
    }
    res.Json(Json(Many(posts.right)));
  }

  // ---------------------------------------------------------------------
  // Changing and removing

  /** `PUT /:post_id`: only the requester's own post with that id changes,
      and only its text. The update runs no validators. */
  function Edited(postId: string, userId: string, text: Option<string>, db: PostDb): (o: Outcome)
    ensures |o.posts| == |db.docs|
    ensures forall j :: 0 <= j < |db.docs| ==> o.posts[j] == db.docs[j] || o.posts[j] == db.docs[j].(text := text)
    ensures forall j :: 0 <= j < |db.docs| && !(db.docs[j].user == Some(ObjectIdHex(userId)) && db.docs[j].id == ObjectIdHex(postId)) ==> o.posts[j] == db.docs[j]
    ensures o.reply == ErrorReply(400, "Could not update post") <==>
      QueryError(db, [userId, postId]).None? && forall j :: 0 <= j < |db.docs| ==> !(db.docs[j].user == Some(ObjectIdHex(userId)) && db.docs[j].id == ObjectIdHex(postId))
    ensures o.reply.status == 200 ==>
      exists j :: 0 <= j < |db.docs| && db.docs[j].user == Some(ObjectIdHex(userId)) && db.docs[j].id == ObjectIdHex(postId)
        && o == Outcome(JsonReply(One(Some(db.docs[j].(text := text)))), db.docs[j := db.docs[j].(text := text)])
    ensures QueryError(db, [userId, postId]).Some? ==> o == Outcome(Caught(QueryError(db, [userId, postId]).value), db.docs)
    ensures QueryError(db, [userId, postId]).None? && FirstIndex(db.docs, Owned(userId, postId)).Some? ==>
      var i := FirstIndex(db.docs, Owned(userId, postId)).value;
      o == Outcome(JsonReply(One(Some(db.docs[i].(text := text)))), db.docs[i := db.docs[i].(text := text)])
  {
    var u := UpdateFirst(db, [userId, postId], Owned(userId, postId), SetText(text));
    match u.result
    case Left(e) => Outcome(Caught(e), db.docs)
    case Right(None) => Outcome(ErrorReply(400, CouldNotUpdate), db.docs)
    case Right(Some(p)) => Outcome(JsonReply(One(Some(p))), u.docs)
  }

  method Update(store: PostStore, res: Response<PostJson>, postId: string, userId: string, text: Option<string>)
    requires res.Fresh()
    modifies res, store`docs
    ensures Outcome(res.Snapshot(), store.docs) == Edited(postId, userId, text, old(store.Db()))
  {
    var post := store.FindOneAndUpdate([userId, postId], Owned(userId, postId), SetText(text));
    if post.Left? {
      var r := Caught(post.left);
      res.SetStatus(r.status);
      res.Json(r.body.value);
      return;
    }
    if post.right.None? {
      res.SetStatus(400);
      res.Json(Errors([Msg(CouldNotUpdate)]));
      return;
    }
    res.Json(Json(One(post.right)));
  }

  /** `DELETE /:post_id`: only the requester's own post with that id goes;
      the removed post is sent back. */
  function Removed(postId: string, userId: string, db: PostDb): (o: Outcome)
    ensures forall j :: 0 <= j < |o.posts| ==> o.posts[j] in db.docs
    ensures forall j :: 0 <= j < |db.docs| && !(db.docs[j].user == Some(ObjectIdHex(userId)) && db.docs[j].id == ObjectIdHex(postId)) ==> db.docs[j] in o.posts
    ensures o.reply == ErrorReply(400, "Could not delete post") <==>
      QueryError(db, [userId, postId]).None? && forall j :: 0 <= j < |db.docs| ==> !(db.docs[j].user == Some(ObjectIdHex(userId)) && db.docs[j].id == ObjectIdHex(postId))
    ensures o.reply.status != 200 ==> o.posts == db.docs
    ensures o.reply.status == 200 ==>
      |o.posts| == |db.docs| - 1
      && exists p :: p in db.docs && p.user == Some(ObjectIdHex(userId)) && p.id == ObjectIdHex(postId) && o.reply == JsonReply(One(Some(p)))
    ensures QueryError(db, [userId, postId]).Some? ==> o == Outcome(Caught(QueryError(db, [userId, postId]).value), db.docs)
    ensures QueryError(db, [userId, postId]).None? && FirstIndex(db.docs, Owned(userId, postId)).Some? ==>
      var i := FirstIndex(db.docs, Owned(userId, postId)).value;
      o == Outcome(JsonReply(One(Some(db.docs[i]))), RemoveAt(db.docs, i))
  {
    var u := RemoveFirst(db, [userId, postId], Owned(userId, postId));
    match u.result
    case Left(e) => Outcome(Caught(e), db.docs)
    case Right(None) => Outcome(ErrorReply(400, CouldNotDelete), db.docs)
    case Right(Some(p)) => Outcome(JsonReply(One(Some(p))), u.docs)
  }

  method Delete(store: PostStore, res: Response<PostJson>, postId: string, userId: string)
    requires res.Fresh()
    modifies res, store`docs
    ensures Outcome(res.Snapshot(), store.docs) == Removed(postId, userId, old(store.Db()))
  {
    var post := store.FindOneAndRemove([userId, postId], Owned(userId, postId));
    if post.Left? {
      var r := Caught(post.left);
      res.SetStatus(r.status);
      res.Json(r.body.value);
      return;
    }
    if post.right.None? {
      res.SetStatus(400);
      res.Json(Errors([Msg(CouldNotDelete)]));
      return;
    }
    res.Json(Json(One(post.right)));
  }

  // ---------------------------------------------------------------------
  // Likes

  /** `PUT /like/:post_id`: the user's id joins the first post with that
      id unless it is already among its likes. */
  function Liked(postId: string, userId: string, db: PostDb): (o: Outcome)
    ensures |o.posts| == |db.docs|
    ensures forall j :: 0 <= j < |db.docs| && db.docs[j].id != ObjectIdHex(postId) ==> o.posts[j] == db.docs[j]
    ensures o.reply == ErrorReply(400, "No post found!") <==>
      QueryError(db, [postId, userId]).None? && forall j :: 0 <= j < |db.docs| ==> db.docs[j].id != ObjectIdHex(postId)
    ensures o.reply.status == 200 ==> FirstIndex(db.docs, WithId(postId)).Some?
    ensures o.reply.status == 200 ==>
      var i := FirstIndex(db.docs, WithId(postId)).value;
      var p := db.docs[i].(likes := AddToSet(db.docs[i].likes, ObjectIdHex(userId)));
      o == Outcome(JsonReply(One(Some(p))), db.docs[i := p])
    ensures o.reply.status != 200 ==> o.posts == db.docs
    ensures QueryError(db, [postId, userId]).Some? ==> o == Outcome(Caught(QueryError(db, [postId, userId]).value), db.docs)
    ensures QueryError(db, [postId, userId]).None? && FirstIndex(db.docs, WithId(postId)).Some? ==> o.reply.status == 200
  {
    var u := UpdateFirst(db, [postId, userId], WithId(postId), AddLike(userId));
    match u.result
    case Left(e) => Outcome(Caught(e), db.docs)
    case Right(None) => Outcome(ErrorReply(400, NoPost), db.docs)
    case Right(Some(p)) => Outcome(JsonReply(One(Some(p))), u.docs)
  }

  method Like(store: PostStore, res: Response<PostJson>, postId: string, userId: string)
    requires res.Fresh()
    modifies res, store`docs
    ensures Outcome(res.Snapshot(), store.docs) == Liked(postId, userId, old(store.Db()))
  {
    var post := store.FindOneAndUpdate([postId, userId], WithId(postId), AddLike(userId));
    if post.Left? {
      var r := Caught(post.left);
      res.SetStatus(r.status);
      res.Json(r.body.value);
      return;
    }
    if post.right.None? {
      res.SetStatus(400);
      res.Json(Errors([Msg(NoPost)]));
      return;
    }
    res.Json(Json(One(post.right)));
  }

  /** `DELETE /like/:post_id`: every occurrence of the user's id leaves the
      likes of the first post with that id; the other likes stay in order. */
  function Unliked(postId: string, userId: string, db: PostDb): (o: Outcome)
    ensures |o.posts| == |db.docs|
    ensures forall j :: 0 <= j < |db.docs| && db.docs[j].id != ObjectIdHex(postId) ==> o.posts[j] == db.docs[j]
    ensures o.reply == ErrorReply(400, "No post found!") <==>
      QueryError(db, [postId, userId]).None? && forall j :: 0 <= j < |db.docs| ==> db.docs[j].id != ObjectIdHex(postId)
    ensures o.reply.status == 200 ==> FirstIndex(db.docs, WithId(postId)).Some?
    ensures o.reply.status == 200 ==>
      var i := FirstIndex(db.docs, WithId(postId)).value;
      var p := db.docs[i].(likes := PullAll(db.docs[i].likes, ObjectIdHex(userId)));
      o == Outcome(JsonReply(One(Some(p))), db.docs[i := p])
    ensures o.reply.status != 200 ==> o.posts == db.docs
    ensures QueryError(db, [postId, userId]).Some? ==> o == Outcome(Caught(QueryError(db, [postId, userId]).value), db.docs)
    ensures QueryError(db, [postId, userId]).None? && FirstIndex(db.docs, WithId(postId)).Some? ==> o.reply.status == 200
  {
    var u := UpdateFirst(db, [postId, userId], WithId(postId), PullLike(userId));
    match u.result
    case Left(e) => Outcome(Caught(e), db.docs)
    case Right(None) => Outcome(ErrorReply(400, NoPost), db.docs)
    case Right(Some(p)) => Outcome(JsonReply(One(Some(p))), u.docs)
  }

  method Unlike(store: PostStore, res: Response<PostJson>, postId: string, userId: string)
    requires res.Fresh()
    modifies res, store`docs
    ensures Outcome(res.Snapshot(), store.docs) == Unliked(postId, userId, old(store.Db()))
  {
    var post := store.FindOneAndUpdate([postId, userId], WithId(postId), PullLike(userId));
    if post.Left? {
      var r := Caught(post.left);
      res.SetStatus(r.status);
      res.Json(r.body.value);
      return;
    }
    if post.right.None? {
      res.SetStatus(400);
      res.Json(Errors([Msg(NoPost)]));
      return;
    }
    res.Json(Json(One(post.right)));
  }

  /** Every post's likes hold each user at most once. */
  predicate LikesDistinct(posts: seq<Post>)
  {
    forall i :: 0 <= i < |posts| ==> NoDuplicates(posts[i].likes)
  }

  /** Liking and unliking keep every post's likes free of duplicates. */
  lemma LikesStayDistinct(postId: string, userId: string, db: PostDb)
    requires LikesDistinct(db.docs)
    ensures LikesDistinct(Liked(postId, userId, db).posts)
    ensures LikesDistinct(Unliked(postId, userId, db).posts)
  {
    var i := FirstIndex(db.docs, WithId(postId));
    if i.Some? {
      AddToSetNoDuplicates(db.docs[i.value].likes, ObjectIdHex(userId));
      PullAllNoDuplicates(db.docs[i.value].likes, ObjectIdHex(userId));
    }
  }

  /** Liking twice leaves the posts as liking once does. */
  lemma LikeTwice(postId: string, userId: string, db: PostDb)
    ensures var once := Liked(postId, userId, db).posts;
      Liked(postId, userId, Collection(once, db.fault)).posts == once
  {
    var once := Liked(postId, userId, db);
    if once.reply.status == 200 {
      var i := FirstIndex(db.docs, WithId(postId)).value;
      var p := db.docs[i].(likes := AddToSet(db.docs[i].likes, ObjectIdHex(userId)));
      FirstIndexAfterUpdate(db.docs, WithId(postId), i, p);
      AddToSetIdempotent(db.docs[i].likes, ObjectIdHex(userId));
      assert AddLike(userId)(p) == p;
      assert once.posts[i := p] == once.posts;
    }
  }

  /** Unliking right after a first like gives the posts back as they were. */
  lemma UnlikeAfterLike(postId: string, userId: string, db: PostDb)
    requires Liked(postId, userId, db).reply.status == 200
    requires ObjectIdHex(userId) !in db.docs[FirstIndex(db.docs, WithId(postId)).value].likes
    ensures Unliked(postId, userId, Collection(Liked(postId, userId, db).posts, db.fault)).posts == db.docs
  {
    var i := FirstIndex(db.docs, WithId(postId)).value;
    var q := db.docs[i];
    var p := q.(likes := AddToSet(q.likes, ObjectIdHex(userId)));
    FirstIndexAfterUpdate(db.docs, WithId(postId), i, p);
    PullAfterAdd(q.likes, ObjectIdHex(userId));
    var liked := Collection(db.docs[i := p], db.fault);
    assert Liked(postId, userId, db).posts == liked.docs;
    assert QueryError(liked, [postId, userId]) == QueryError(db, [postId, userId]);
    assert Unliked(postId, userId, liked).posts == liked.docs[i := q];
    assert db.docs[i := p][i := q] == db.docs;
  }
}
