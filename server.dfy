/** server.ts: the route names are the file names of the routes directory
    without their extension, and each is mounted under "/api". The
    directory listing is a parameter; the application is a class whose
    mounts `use` extends. */
module Server {

  /** `\w`: the characters of a word. */
  predicate IsWordChar(c: char)
  {
    'a' <= c <= 'z' || 'A' <= c <= 'Z' || '0' <= c <= '9' || c == '_'
  }

  /** The length of the longest run of word characters ending `s`. */
  function WordSuffix(s: string): (n: nat)
    ensures n <= |s|
    ensures forall k :: |s| - n <= k < |s| ==> IsWordChar(s[k])
    ensures n < |s| ==> !IsWordChar(s[|s| - n - 1])
  {
    if s == [] || !IsWordChar(s[|s| - 1]) then 0
    else
      var n := WordSuffix(s[..|s| - 1]);
      assert forall k :: 0 <= k < |s| - 1 ==> s[..|s| - 1][k] == s[k];
      n + 1
  }

  /** `/\.\w+$/` matches `file` from position `i` on. */
  predicate ExtensionAt(file: string, i: int)
  {
    0 <= i < |file| - 1 && file[i] == '.' && forall k :: i < k < |file| ==> IsWordChar(file[k])
  }

  /** The pattern matches at one position at most. */
  lemma ExtensionUnique(file: string, i: int, j: int)
    requires ExtensionAt(file, i) && ExtensionAt(file, j)
    ensures i == j
  {
  }

  /** `file.replace(/\.\w+$/gi, "")`: the file without its extension, when
      it ends in a dot and one or more word characters, else unchanged. */
  function RemoveExt(file: string): (r: string)
    ensures forall i :: ExtensionAt(file, i) ==> r == file[..i]
    ensures (forall i :: !ExtensionAt(file, i)) ==> r == file
    ensures |r| <= |file| && r == file[..|r|]
  {
    var n := WordSuffix(file);
    var i := |file| - n - 1;
    if n >= 1 && i >= 0 && file[i] == '.' then
      assert ExtensionAt(file, i);
      assert forall j :: ExtensionAt(file, j) ==> j == i by {
        forall j | ExtensionAt(file, j)
          ensures j == i
        {
          ExtensionUnique(file, i, j);
        }
      }
      file[..i]
    else
      assert forall j :: !ExtensionAt(file, j) by {
        forall j | 0 <= j < |file| - 1 && file[j] == '.'
          ensures exists k :: j < k < |file| && !IsWordChar(file[k])
        {
          if n == 0 {
            assert !IsWordChar(file[|file| - 1]);
          } else {
            assert j < i;
            assert !IsWordChar(file[i]);
          }
        }
      }
      file
  }

  lemma RemoveExtExamples()
    ensures RemoveExt("auth.ts") == "auth"
    ensures RemoveExt("a.b.ts") == "a.b"
    ensures RemoveExt("README") == "README"
    ensures RemoveExt("a.") == "a."
    ensures RemoveExt("a.b-c") == "a.b-c"
  {
    assert ExtensionAt("auth.ts", 4);
    assert ExtensionAt("a.b.ts", 3);
    assert forall i :: !ExtensionAt("README", i);
    assert forall i :: !ExtensionAt("a.", i);
    assert !IsWordChar("a.b-c"[3]);
    assert forall i :: !ExtensionAt("a.b-c", i);
  }

  /** `map(removeExt)` over the listing: one name per file, in order. */
  function GetRouteNames(files: seq<string>): (names: seq<string>)
    ensures |names| == |files|
    ensures forall i :: 0 <= i < |files| ==> names[i] == RemoveExt(files[i])
  {
    if files == [] then [] else [RemoveExt(files[0])] + GetRouteNames(files[1..])
  }

  /** `path.join(a, b)` for a relative `b` without dots or repeated
      separators. */
  function CombinePath(a: string, b: string): (r: string)
    ensures b == "" ==> r == a
    ensures b != "" ==> r == a + "/" + b
  {
    if b == "" then a else a + "/" + b
  }

  /** One `app.use(path, router)`: the mount path and the module loaded. */
  datatype Mount = Mount(path: string, router: string)

  /** The application, as the routers mounted on it so far. */
  class App {
    var mounts: seq<Mount>

    constructor ()
      ensures mounts == []
    {
      mounts := [];
    }

    method Use(path: string, router: string)
      modifies this
      ensures mounts == old(mounts) + [Mount(path, router)]
    {
      mounts := mounts + [Mount(path, router)];
    }
  }

  /** Each name mounted at `prefix` joined with it, its module loaded from
      `dir` joined with it. */
  function Mounts(prefix: string, dir: string, names: seq<string>): (ms: seq<Mount>)
    ensures |ms| == |names|
    ensures forall i :: 0 <= i < |names| ==> ms[i] == Mount(CombinePath(prefix, names[i]), CombinePath(dir, names[i]))
  {
    if names == [] then [] else [Mount(CombinePath(prefix, names[0]), CombinePath(dir, names[0]))] + Mounts(prefix, dir, names[1..])
  }

  /** `loopRoutes(app, prefix, path)(names)` */
  method LoopRoutes(app: App, prefix: string, dir: string, names: seq<string>)
    modifies app
    ensures app.mounts == old(app.mounts) + Mounts(prefix, dir, names)
  {
    for i := 0 to |names|
      invariant app.mounts == old(app.mounts) + Mounts(prefix, dir, names[..i])
    {
      MountsSnoc(prefix, dir, names, i);
      app.Use(CombinePath(prefix, names[i]), CombinePath(dir, names[i]));
    }
    assert names[..|names|] == names;
  }

  /** Mounting one more name appends its mount. */
  lemma MountsSnoc(prefix: string, dir: string, names: seq<string>, i: nat)
    requires i < |names|
    ensures Mounts(prefix, dir, names[..i + 1])
         == Mounts(prefix, dir, names[..i]) + [Mount(CombinePath(prefix, names[i]), CombinePath(dir, names[i]))]
  {
    var a := Mounts(prefix, dir, names[..i + 1]);
    var b := Mounts(prefix, dir, names[..i]) + [Mount(CombinePath(prefix, names[i]), CombinePath(dir, names[i]))];
    assert |a| == |b|;
    forall k | 0 <= k < |a|
      ensures a[k] == b[k]
    {
      if k < i {
        assert names[..i + 1][k] == names[..i][k];
      }
    }
  }

  /** `genRoutes("./routes/api")`, given the directory's listing. */
  method GenRoutes(app: App, listing: seq<string>)
    modifies app
    ensures app.mounts == old(app.mounts) + Mounts("/api", "./routes/api", GetRouteNames(listing))
  {
    LoopRoutes(app, "/api", "./routes/api", GetRouteNames(listing));
  }

  /** The k-th file of the listing is mounted at the prefix, a slash and
      its name without extension, its router loaded from the file of that
      name in the routes directory. */
  lemma FileIsMounted(prefix: string, dir: string, listing: seq<string>, k: nat)
    requires k < |listing| && RemoveExt(listing[k]) != ""
    ensures Mounts(prefix, dir, GetRouteNames(listing))[k]
         == Mount(prefix + "/" + RemoveExt(listing[k]), dir + "/" + RemoveExt(listing[k]))
  {
  }
}
