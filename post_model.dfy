/** models/Post.js: the post document and its comments, with the schema's
    required paths as predicates. */
module PostModel {
  import opened Js
  import opened Mongoose

  /** One comment; only `text` is required. `date` defaults to the time of
      creation. */
  datatype Comment = Comment(
    id: string,
    user: Option<string>,
    text: Option<string>,
    name: Option<string>,
    avatar: Option<string>,
    date: int)

  /** A post; `id` is its `_id`, `user` the author's id, `likes` the ids of
      the users who like it, `createdAt` its creation timestamp. */
  datatype Post = Post(
    id: string,
    user: Option<string>,
    text: Option<string>,
    name: Option<string>,
    avatar: Option<string>,
    likes: seq<string>,
    comments: seq<Comment>,
    createdAt: int)

  predicate CommentValid(c: Comment)
  {
    RequiredString(c.text)
  }

  /** `text` is required, and every comment must be valid. */
  predicate PostValid(p: Post)
  {
    RequiredString(p.text) && forall i :: 0 <= i < |p.comments| ==> CommentValid(p.comments[i])
  }
}
