/** The two `os.path` operations the batch upload uses to derive object keys
    (POSIX semantics, `/` as the only separator). */
module Paths {

  /** `s` holds no path separator. */
  predicate SlashFree(s: string)
  {
    forall i :: 0 <= i < |s| ==> s[i] != '/'
  }

  /** Index of the last '/' in `p`, or -1 when there is none. */
  function LastSeparator(p: string): (n: int)
    ensures -1 <= n < |p|
    ensures n >= 0 ==> p[n] == '/'
    ensures forall i :: n < i < |p| ==> p[i] != '/'
  {
    if |p| == 0 then -1
    else if p[|p| - 1] == '/' then |p| - 1
    else LastSeparator(p[..|p| - 1])
  }

  /** `os.path.basename`: everything after the last '/', a suffix of `p`
      holding no '/'. */
  function Basename(p: string): (b: string)
    ensures SlashFree(b)
    ensures |b| <= |p| && p[|p| - |b|..] == b
  {
    p[LastSeparator(p) + 1..]
  }

  /** The basename is the longest '/'-free suffix: unless it is all of `p`, a
      '/' comes right before it. */
  lemma BasenameFollowsSeparator(p: string)
    ensures |Basename(p)| < |p| ==> p[|p| - |Basename(p)| - 1] == '/'
  {
  }

  /** `os.path.join(dir, name)` for two components: an absolute `name` replaces
      `dir`; otherwise one '/' is inserted unless `dir` is empty or already ends in one. */
  function Join(dir: string, name: string): (k: string)
    ensures |name| <= |k| && k[|k| - |name|..] == name
    ensures |name| > 0 && name[0] == '/' ==> k == name
    ensures (|name| == 0 || name[0] != '/') ==> |dir| <= |k| && k[..|dir|] == dir
  {
    if |name| > 0 && name[0] == '/' then name
    else if |dir| == 0 || dir[|dir| - 1] == '/' then dir + name
    else dir + "/" + name
  }


  /** What `join` puts between a directory and a relative name: nothing after
      an empty directory or a trailing '/', otherwise exactly one '/'. */
  lemma JoinSeparator(dir: string, name: string)
    requires |name| == 0 || name[0] != '/'
    ensures (|dir| == 0 || dir[|dir| - 1] == '/') ==> |Join(dir, name)| == |dir| + |name|
    ensures |dir| > 0 && dir[|dir| - 1] != '/'
            ==> |Join(dir, name)| == |dir| + 1 + |name| && Join(dir, name)[|dir|] == '/'
  {
  }

  /** Appending a '/'-free name after an empty text or a trailing '/' makes that
      name the basename. */
  lemma {:induction false} BasenameAfterSeparator(front: string, name: string)
    requires SlashFree(name)
    requires |front| == 0 || front[|front| - 1] == '/'
    ensures Basename(front + name) == name
    decreases |name|
  {
    var p := front + name;
    if |name| == 0 {
      assert p == front;
    } else {
      var shorter := name[..|name| - 1];
      var last := name[|name| - 1];
      assert last != '/';
      assert p[|p| - 1] == last;
      assert p[..|p| - 1] == front + shorter;
      BasenameAfterSeparator(front, shorter);
      assert Basename(p) == Basename(front + shorter) + [last];
      assert shorter + [last] == name;
    }
  }

  /** Joining a '/'-free name onto any directory keeps it as the final component:
      the basename of the derived key is the name it was built from. */
  lemma BasenameOfJoin(dir: string, name: string)
    requires SlashFree(name)
    ensures Basename(Join(dir, name)) == name
  {
    if |dir| == 0 || dir[|dir| - 1] == '/' {
      BasenameAfterSeparator(dir, name);
    } else {
      assert dir + "/" + name == (dir + "/") + name;
      BasenameAfterSeparator(dir + "/", name);
    }
  }

  /** The key `upload_files_to_obs` derives for a local file:
      `join(dir, basename(path))`. */
  function ObjectKey(dir: string, path: string): string
  {
    Join(dir, Basename(path))
  }

  /** The derived key keeps the file's name: its basename is the file's basename. */
  lemma ObjectKeyBasename(dir: string, path: string)
    ensures Basename(ObjectKey(dir, path)) == Basename(path)
  {
    BasenameOfJoin(dir, Basename(path));
  }

  /** Within one directory, two local files map to the same object key exactly
      when their basenames agree. */
  lemma ObjectKeyCollision(dir: string, p1: string, p2: string)
    ensures ObjectKey(dir, p1) == ObjectKey(dir, p2) <==> Basename(p1) == Basename(p2)
  {
    if ObjectKey(dir, p1) == ObjectKey(dir, p2) {
      BasenameOfJoin(dir, Basename(p1));
      BasenameOfJoin(dir, Basename(p2));
    }
  }
}
