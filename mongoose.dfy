/** What the routes rely on from Mongoose: ids cast to ObjectIds before a
    query (a value that is not one fails with a CastError of kind
    "ObjectId"; one that is compares by its 24 lower-case hexadecimal
    digits, so the spelling of the request's id does not matter), required
    paths, and the queries on a collection held in
    memory: find, find one, find one and update, find one and remove, save. */
module Mongoose {
  import opened Js
  import opened Lists

  const ObjectIdKind := "ObjectId"

  predicate IsHexDigit(c: char)
  {
    '0' <= c <= '9' || 'a' <= c <= 'f' || 'A' <= c <= 'F'
  }

  /** The strings the ObjectId constructor accepts: 12 raw bytes or 24 hex digits. */
  predicate IsObjectId(s: string)
  {
    |s| == 12 || (|s| == 24 && forall i :: 0 <= i < |s| ==> IsHexDigit(s[i]))
  }

  /** The error a failed cast throws. */
  function CastError(value: string): (e: Error)
    ensures e.kind == Some(ObjectIdKind)
  {
    Error("Cast to ObjectId failed for value \"" + value + "\" at path \"_id\"", Some(ObjectIdKind))
  }

  predicate IsLowerHexDigit(c: char)
  {
    '0' <= c <= '9' || 'a' <= c <= 'f'
  }

  /** An ObjectId as `toHexString` writes it: 24 lower-case hexadecimal
      digits. Every ObjectId path of a stored document holds this form. */
  predicate IsHexId(s: string)
  {
    |s| == 24 && forall i :: 0 <= i < |s| ==> IsLowerHexDigit(s[i])
  }

  /** A hexadecimal digit in lower case; any other character unchanged. */
  function LowerHex(c: char): (d: char)
    ensures IsHexDigit(c) ==> IsLowerHexDigit(d)
    ensures IsLowerHexDigit(c) ==> d == c
  {
    if 'A' <= c <= 'F' then (c as int - 'A' as int + 'a' as int) as char else c
  }

  /** The lower-case hexadecimal digit of `n`. */
  function HexDigit(n: nat): (d: char)
    requires n < 16
    ensures IsLowerHexDigit(d)
  {
    if n < 10 then ('0' as int + n) as char else ('a' as int + n - 10) as char
  }

  /** Each character taken as one byte (its low byte), written as two digits. */
  function BytesHex(s: string): (h: string)
    ensures |h| == 2 * |s|
    ensures forall i :: 0 <= i < |h| ==> IsLowerHexDigit(h[i])
  {
    if s == [] then []
    else
      var b := s[0] as int % 256;
      [HexDigit(b / 16), HexDigit(b % 16)] + BytesHex(s[1..])
  }

  /** The ObjectId a cast of `s` yields, in hexadecimal: 24 hex digits in
      either case denote the ObjectId with those digits, and 12 characters
      denote the ObjectId with those 12 bytes. Any other string is kept. */
  function ObjectIdHex(s: string): (h: string)
    ensures IsObjectId(s) ==> IsHexId(h)
    ensures !IsObjectId(s) ==> h == s
  {
    if |s| == 24 && IsObjectId(s) then seq(24, i requires 0 <= i < 24 => LowerHex(s[i]))
    else if |s| == 12 then BytesHex(s)
    else s
  }

  /** An id already in hexadecimal form casts to itself. */
  lemma HexIdCastsToItself(s: string)
    requires IsHexId(s)
    ensures IsObjectId(s) && ObjectIdHex(s) == s
  {
    assert forall i :: 0 <= i < 24 ==> IsHexDigit(s[i]) && LowerHex(s[i]) == s[i];
  }

  /** Casting is idempotent: the hexadecimal form of a cast casts to itself. */
  lemma CastIdempotent(s: string)
    requires IsObjectId(s)
    ensures ObjectIdHex(ObjectIdHex(s)) == ObjectIdHex(s)
  {
    HexIdCastsToItself(ObjectIdHex(s));
  }

  /** An id in either case of hexadecimal digits denotes the ObjectId
      spelled with the same digits in lower case. */
  lemma LowerCaseSpelling(s: string, t: string)
    requires |s| == 24 && |t| == 24
    requires forall i :: 0 <= i < 24 ==> IsHexDigit(s[i]) && LowerHex(s[i]) == t[i]
    ensures IsObjectId(s) && ObjectIdHex(s) == t
  {
  }

  /** Two spellings of one ObjectId that differ only in letter case. */
  lemma CaseIsIgnored()
    ensures ObjectIdHex("5F1A2B3C4D5E6F7A8B9C0D1E") == ObjectIdHex("5f1a2b3c4d5e6f7a8b9c0d1e") == "5f1a2b3c4d5e6f7a8b9c0d1e"
  {
    var upper, lower := "5F1A2B3C4D5E6F7A8B9C0D1E", "5f1a2b3c4d5e6f7a8b9c0d1e";
    LowerCaseSpelling(upper, lower);
    LowerCaseSpelling(lower, lower);
  }

  /** Casting `value`: the ObjectId it denotes, in hexadecimal, or the cast
      error. */
  function CastObjectId(value: string): (r: Either<Error, string>)
    ensures r.Right? <==> IsObjectId(value)
    ensures r.Right? ==> r.right == ObjectIdHex(value) && IsHexId(r.right)
    ensures r.Left? ==> r.left.kind == Some(ObjectIdKind)
  {
    if IsObjectId(value) then Right(ObjectIdHex(value)) else Left(CastError(value))
  }

  /** Casting every id a query mentions, in order: the first failure, if any. */
  function CastIds(ids: seq<string>): (r: Option<Error>)
    ensures r.None? <==> forall i :: 0 <= i < |ids| ==> IsObjectId(ids[i])
    ensures r.Some? ==> r.value.kind == Some(ObjectIdKind)
  {
    if ids == [] then None
    else if !IsObjectId(ids[0]) then Some(CastError(ids[0]))
    else
      var r := CastIds(ids[1..]);
      assert forall i :: 1 <= i < |ids| ==> ids[i] == ids[1..][i - 1];
      r
  }

  /** Mongoose's `required` on a String path: present and not empty. */
  predicate RequiredString(v: Option<string>)
  {
    v.Some? && v.value != ""
  }

  /** The message of the ValidationError `save` throws for `model`; the
      per-path details Mongoose appends are not modelled. */
  function ValidationFailed(model: string): Error
  {
    Err(model + " validation failed")
  }

  /** A query naming one id casts it. */
  lemma CastOne(a: string)
    ensures CastIds([a]).None? <==> IsObjectId(a)
  {
    assert [a][0] == a;
  }

  /** A query naming two ids casts both. */
  lemma CastTwo(a: string, b: string)
    ensures CastIds([a, b]).None? <==> IsObjectId(a) && IsObjectId(b)
  {
    assert [a, b][0] == a && [a, b][1] == b;
  }

  /** A collection: its documents in natural order, and the error every
      query on it throws, if any. */
  datatype Collection<T> = Collection(docs: seq<T>, fault: Option<Error>)

  /** A query's result and the documents after it. */
  datatype Updated<T> = Updated(result: Either<Error, Option<T>>, docs: seq<T>)

  /** What a query naming `ids` throws, if anything: the first cast error,
      else the collection's fault. */
  function QueryError<T>(c: Collection<T>, ids: seq<string>): (r: Option<Error>)
    ensures CastIds(ids).Some? ==> r == CastIds(ids) && r.value.kind == Some(ObjectIdKind)
    ensures CastIds(ids).None? ==> r == c.fault
  {
    if CastIds(ids).Some? then CastIds(ids) else c.fault
  }

  /** `Model.findOne(filter)`: the first matching document, if any. */
  function QueryOne<T>(c: Collection<T>, ids: seq<string>, matches: T -> bool): (r: Either<Error, Option<T>>)
    ensures QueryError(c, ids).Some? ==> r == Left(QueryError(c, ids).value)
    ensures QueryError(c, ids).None? ==> r.Right?
    ensures r.Right? ==> (r.right.None? <==> forall i :: 0 <= i < |c.docs| ==> !matches(c.docs[i]))
    ensures r.Right? && r.right.Some? ==> r.right.value in c.docs && matches(r.right.value)
  {
    match QueryError(c, ids)
    case Some(e) => Left(e)
    case None =>
      match FirstIndex(c.docs, matches)
      case None => Right(None)
      case Some(i) => Right(Some(c.docs[i]))
  }

  /** `Model.find(filter)`: every matching document, in order. */
  function QueryAll<T>(c: Collection<T>, ids: seq<string>, matches: T -> bool): (r: Either<Error, seq<T>>)
    ensures QueryError(c, ids).Some? ==> r == Left(QueryError(c, ids).value)
    ensures QueryError(c, ids).None? ==> r == Right(Filter(c.docs, matches))
  {
    match QueryError(c, ids)
    case Some(e) => Left(e)
    case None => Right(Filter(c.docs, matches))
  }

  /** `Model.findOneAndUpdate(filter, update, { new: true })`: the first
      matching document is replaced by its update, which is returned; no
      other document changes, and nothing changes on an error or when
      nothing matches. */
  function UpdateFirst<T>(c: Collection<T>, ids: seq<string>, matches: T -> bool, update: T -> T): (u: Updated<T>)
    ensures |u.docs| == |c.docs|
    ensures u.result.Right? <==> QueryError(c, ids).None?
    ensures u.result.Left? ==> u == Updated(Left(QueryError(c, ids).value), c.docs)
    ensures u.result.Right? ==> (u.result.right.None? <==> FirstIndex(c.docs, matches).None?)
    ensures u.result == Right(None) ==> u.docs == c.docs
    ensures u.result.Right? && u.result.right.Some? ==>
      var i := FirstIndex(c.docs, matches).value;
      (u.result.right.value == update(c.docs[i]) && u.docs == c.docs[i := update(c.docs[i])])
    ensures forall j :: 0 <= j < |c.docs| && !matches(c.docs[j]) ==> u.docs[j] == c.docs[j]
  {
    match QueryError(c, ids)
    case Some(e) => Updated(Left(e), c.docs)
    case None =>
      match FirstIndex(c.docs, matches)
      case None => Updated(Right(None), c.docs)
      case Some(i) =>
        var d := update(c.docs[i]);
        Updated(Right(Some(d)), c.docs[i := d])
  }

  /** `Model.findOneAndRemove(filter)`: the first matching document is
      removed and returned; every other document stays, in order. */
  function RemoveFirst<T>(c: Collection<T>, ids: seq<string>, matches: T -> bool): (u: Updated<T>)
    ensures u.result.Right? <==> QueryError(c, ids).None?
    ensures u.result.Left? ==> u == Updated(Left(QueryError(c, ids).value), c.docs)
    ensures u.result.Right? ==> (u.result.right.None? <==> FirstIndex(c.docs, matches).None?)
    ensures u.result == Right(None) ==> u.docs == c.docs
    ensures u.result.Right? && u.result.right.Some? ==>
      var i := FirstIndex(c.docs, matches).value;
      (u.result.right.value == c.docs[i] && u.docs == RemoveAt(c.docs, i))
    ensures forall j :: 0 <= j < |c.docs| && !matches(c.docs[j]) ==> c.docs[j] in u.docs
    ensures forall j :: 0 <= j < |u.docs| ==> u.docs[j] in c.docs
  {
    match QueryError(c, ids)
    case Some(e) => Updated(Left(e), c.docs)
    case None =>
      match FirstIndex(c.docs, matches)
      case None => Updated(Right(None), c.docs)
      case Some(i) =>
        var rest := RemoveAt(c.docs, i);
        assert forall j :: 0 <= j < |c.docs| && j != i ==> c.docs[j] == rest[if j < i then j else j - 1];
        assert forall j :: 0 <= j < |rest| ==> rest[j] == c.docs[if j < i then j else j + 1];
        Updated(Right(Some(c.docs[i])), rest)
  }

  /** A collection updated in place by the queries. */
  class Store<T> {
    var docs: seq<T>
    var fault: Option<Error>

    constructor (docs: seq<T>, fault: Option<Error>)
      ensures this.docs == docs && this.fault == fault
    {
      this.docs := docs;
      this.fault := fault;
    }

    function Db(): Collection<T>
      reads this
    {
      Collection(docs, fault)
    }

    method FindOne(ids: seq<string>, matches: T -> bool) returns (r: Either<Error, Option<T>>)
      ensures r == QueryOne(Db(), ids, matches)
    {
      var e := CastIds(ids);
      if e.None? {
        e := fault;
      }
      if e.Some? {
        r := Left(e.value);
        return;
      }
      var i := FirstIndex(docs, matches);
      r := if i.Some? then Right(Some(docs[i.value])) else Right(None);
    }

    method Find(ids: seq<string>, matches: T -> bool) returns (r: Either<Error, seq<T>>)
      ensures r == QueryAll(Db(), ids, matches)
    {
      var e := CastIds(ids);
      if e.None? {
        e := fault;
      }
      r := if e.Some? then Left(e.value) else Right(Filter(docs, matches));
    }

    method FindOneAndUpdate(ids: seq<string>, matches: T -> bool, update: T -> T) returns (r: Either<Error, Option<T>>)
      modifies this`docs
      ensures Updated(r, docs) == UpdateFirst(old(Db()), ids, matches, update)
    {
      var e := CastIds(ids);
      if e.None? {
        e := fault;
      }
      if e.Some? {
        r := Left(e.value);
        return;
      }
      var i := FirstIndex(docs, matches);
      if i.None? {
        r := Right(None);
        return;
      }
      var d := update(docs[i.value]);
      docs := docs[i.value := d];
      r := Right(Some(d));
    }

    method FindOneAndRemove(ids: seq<string>, matches: T -> bool) returns (r: Either<Error, Option<T>>)
      modifies this`docs
      ensures Updated(r, docs) == RemoveFirst(old(Db()), ids, matches)
    {
      var e := CastIds(ids);
      if e.None? {
        e := fault;
      }
      if e.Some? {
        r := Left(e.value);
        return;
      }
      var i := FirstIndex(docs, matches);
      if i.None? {
        r := Right(None);
        return;
      }
      r := Right(Some(docs[i.value]));
      docs := RemoveAt(docs, i.value);
    }

    /** `new Model(d).save()`: the document is validated against `schema`
        first, then appended unless the write fails. */
    method Save(d: T, schema: T -> bool, model: string) returns (r: Option<Error>)
      modifies this`docs
      ensures !schema(d) ==> r == Some(ValidationFailed(model))
      ensures schema(d) ==> r == fault
      ensures docs == if r.Some? then old(docs) else old(docs) + [d]
    {
      if !schema(d) {
        r := Some(ValidationFailed(model));
      } else {
        r := fault;
        if fault.None? {
          docs := docs + [d];
        }
      }
    }
  }
}
