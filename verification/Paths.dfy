/** From a watched directory to the server path: IsSubdir, the media prefix, and the joined server path. */
module Paths {
  import opened Wrappers

  // ----- texts of slash-separated paths -----

  /** A proper component of a clean path. */
  predicate Component(c: string) {
    c != "" && '/' !in c && c != "." && c != ".."
  }

  predicate Components(cs: seq<string>) {
    forall k :: 0 <= k < |cs| ==> Component(cs[k])
  }

  /** "/a/b/c", and nothing for no component. */
  function Cat(cs: seq<string>): string {
    if cs == [] then "" else Cat(cs[..|cs| - 1]) + "/" + cs[|cs| - 1]
  }

  /** The clean absolute path of some components. */
  function Abs(cs: seq<string>): string {
    if cs == [] then "/" else Cat(cs)
  }

  function FirstSlash(s: string): (k: nat)
    ensures k <= |s|
  {
    if s == "" || s[0] == '/' then 0 else 1 + FirstSlash(s[1..])
  }

  function SplitSlash(s: string): (parts: seq<string>)
    ensures parts != []
    decreases |s|
  {
    var k := FirstSlash(s);
    if k == |s| then [s] else [s[..k]] + SplitSlash(s[k + 1..])
  }

  /** filepath.Clean on the components of a rooted path: empty and "." go, ".." takes its parent along. */
  function Normalize(parts: seq<string>, done: seq<string>): seq<string>
    decreases |parts|
  {
    if parts == [] then done
    else if parts[0] == "" || parts[0] == "." then Normalize(parts[1..], done)
    else if parts[0] == ".." then Normalize(parts[1..], if done == [] then [] else done[..|done| - 1])
    else Normalize(parts[1..], done + [parts[0]])
  }

  /** The components a text adds to those already seen. */
  function Walk(path: string, done: seq<string>): seq<string> {
    Normalize(SplitSlash(path), done)
  }

  /** filepath.Clean for absolute paths. */
  function Clean(path: string): string {
    Abs(Walk(path, []))
  }

  function LastSlash(s: string): (k: int)
    ensures -1 <= k && (k < |s| || (k == -1 && s == ""))
  {
    if s == "" then -1 else if s[|s| - 1] == '/' then |s| - 1 else LastSlash(s[..|s| - 1])
  }

  /** filepath.Dir for absolute paths: everything up to the last slash, cleaned. */
  function Dir(path: string): string {
    Clean(path[..LastSlash(path) + 1])
  }

  /** filepath.Base for paths that do not end in a slash. */
  function Base(path: string): string {
    path[LastSlash(path) + 1..]
  }

  /** filepath.Join of three elements, the first one not empty. */
  function Join(a: string, b: string, c: string): string {
    Clean(a + "/" + b + "/" + c)
  }

  predicate HasPrefix(s: string, prefix: string) {
    |prefix| <= |s| && s[..|prefix|] == prefix
  }

  function TrimPrefix(s: string, prefix: string): string {
    if HasPrefix(s, prefix) then s[|prefix|..] else s
  }

  /** filepath.Match for patterns of plain characters, '*' and '?': neither crosses a slash. */
  predicate Match(pattern: string, s: string)
    decreases |pattern| + |s|
  {
    if pattern == "" then s == ""
    else if pattern[0] == '*' then Match(pattern[1..], s) || (s != "" && s[0] != '/' && Match(pattern, s[1..]))
    else s != "" && (if pattern[0] == '?' then s[0] != '/' else s[0] == pattern[0]) && Match(pattern[1..], s[1..])
  }

  predicate GlobFree(s: string) {
    '*' !in s && '?' !in s && '[' !in s && '\\' !in s
  }

  // ----- the source's functions -----

  predicate IsSubdir(rootDir: string, subdir: string) {
    Clean(rootDir) == Clean(subdir) || Match(Clean(rootDir) + "/" + "*", subdir)
  }

  /** generateMediaPrefix; None stands for its error. */
  function GenerateMediaPrefix(mediaRoot: string, path: string): Option<string> {
    var root, dir := Clean(mediaRoot), Dir(Clean(path));
    if HasPrefix(dir, root) then Some(TrimPrefix(dir, root)) else None
  }

  /** NewClientFile falls back to an empty prefix. */
  function MediaPrefix(mediaRoot: string, path: string): string {
    var p := GenerateMediaPrefix(mediaRoot, path);
    if p.Some? then p.value else ""
  }

  /** getFullServerFilePath on what a query sends: the prefix and the base name of the file. */
  function ServerPath(serverRoot: string, mediaRoot: string, path: string): string {
    Join(serverRoot, MediaPrefix(mediaRoot, path), Base(path))
  }

  // ----- splitting and walking joined texts -----

  lemma {:induction false} FirstSlashAppend(a: string, b: string)
    ensures FirstSlash(a + "/" + b) == FirstSlash(a)
  {
    if a != "" && a[0] != '/' {
      FirstSlashAppend(a[1..], b);
      assert (a + "/" + b)[1..] == a[1..] + "/" + b;
    }
  }

  lemma {:induction false} NoSlash(c: string)
    requires '/' !in c
    ensures FirstSlash(c) == |c|
  {
    if c != "" {
      NoSlash(c[1..]);
    }
  }

  /** Splitting at a slash in the middle. */
  lemma {:induction false} SplitJoin(a: string, b: string)
    ensures SplitSlash(a + "/" + b) == SplitSlash(a) + SplitSlash(b)
    decreases |a|
  {
    var s, k := a + "/" + b, FirstSlash(a);
    FirstSlashAppend(a, b);
    assert s[..k] == a[..k];
    if k == |a| {
      assert s[k + 1..] == b && a[..k] == a;
    } else {
      assert s[k + 1..] == a[k + 1..] + "/" + b;
      SplitJoin(a[k + 1..], b);
      assert [a[..k]] + (SplitSlash(a[k + 1..]) + SplitSlash(b)) == [a[..k]] + SplitSlash(a[k + 1..]) + SplitSlash(b);
    }
  }

  lemma {:induction false} NormalizeJoin(a: seq<string>, b: seq<string>, done: seq<string>)
    ensures Normalize(a + b, done) == Normalize(b, Normalize(a, done))
    decreases |a|
  {
    if a == [] {
      assert a + b == b;
    } else {
      assert (a + b)[1..] == a[1..] + b && (a + b)[0] == a[0];
      var next := if a[0] == "" || a[0] == "." then done
                  else if a[0] == ".." then (if done == [] then [] else done[..|done| - 1])
                  else done + [a[0]];
      NormalizeJoin(a[1..], b, next);
    }
  }

  /** Walking a joined text is walking its halves. */
  lemma WalkJoin(a: string, b: string, done: seq<string>)
    ensures Walk(a + "/" + b, done) == Walk(b, Walk(a, done))
  {
    SplitJoin(a, b);
    NormalizeJoin(SplitSlash(a), SplitSlash(b), done);
  }

  lemma WalkName(name: string, done: seq<string>)
    requires name == "" || Component(name)
    ensures Walk(name, done) == if name == "" then done else done + [name]
  {
    NoSlash(name);
    assert SplitSlash(name) == [name] && [name][1..] == [];
    assert Normalize([], done) == done && Normalize([], done + [name]) == done + [name];
  }

  lemma {:induction false} WalkCat(cs: seq<string>, done: seq<string>)
    requires Components(cs)
    ensures Walk(Cat(cs), done) == done + cs
  {
    if cs == [] {
      WalkName("", done);
    } else {
      var (init, last) := (cs[..|cs| - 1], cs[|cs| - 1]);
      WalkCat(init, done);
      WalkJoin(Cat(init), last, done);
      WalkName(last, done + init);
      assert done + init + [last] == done + cs;
    }
  }

  lemma WalkAbs(cs: seq<string>, done: seq<string>)
    requires Components(cs)
    ensures Walk(Abs(cs), done) == done + cs
  {
    if cs == [] {
      assert "/" == "" + "/" + "";
      WalkJoin("", "", done);
      WalkName("", done);
    } else {
      WalkCat(cs, done);
    }
  }

  /** A rendered path is clean. */
  lemma CleanAbs(cs: seq<string>)
    requires Components(cs)
    ensures Clean(Abs(cs)) == Abs(cs)
  {
    WalkAbs(cs, []);
    assert [] + cs == cs;
  }

  /** Rendered paths with equal texts have equal components. */
  lemma SameText(a: seq<string>, b: seq<string>)
    requires Components(a) && Components(b) && Abs(a) == Abs(b)
    ensures a == b
  {
    WalkAbs(a, []);
    WalkAbs(b, []);
    assert [] + a == a && [] + b == b;
  }

  lemma {:induction false} CatAppend(a: seq<string>, b: seq<string>)
    ensures Cat(a + b) == Cat(a) + Cat(b)
  {
    if b == [] {
      assert a + b == a;
    } else {
      assert (a + b)[..|a + b| - 1] == a + b[..|b| - 1];
      CatAppend(a, b[..|b| - 1]);
    }
  }

  lemma CatLast(cs: seq<string>, name: string)
    ensures Cat(cs + [name]) == Cat(cs) + "/" + name
  {
    assert (cs + [name])[..|cs|] == cs;
  }

  lemma {:induction false} SplitCat(cs: seq<string>)
    requires Components(cs)
    ensures SplitSlash(Cat(cs)) == [""] + cs
  {
    if cs != [] {
      var (init, last) := (cs[..|cs| - 1], cs[|cs| - 1]);
      SplitCat(init);
      SplitJoin(Cat(init), last);
      NoSlash(last);
      assert [""] + init + [last] == [""] + cs;
    }
  }

  lemma {:induction false} LastSlashAt(head: string, name: string)
    requires '/' !in name
    ensures LastSlash(head + "/" + name) == |head|
  {
    if name != "" {
      assert (head + "/" + name)[..|head| + |name|] == head + "/" + name[..|name| - 1];
      LastSlashAt(head, name[..|name| - 1]);
    }
  }

  /** Directory and name of a rendered file path. */
  lemma DirAndBase(dir: seq<string>, name: string)
    requires Components(dir) && Component(name)
    ensures Dir(Abs(dir + [name])) == Abs(dir) && Base(Abs(dir + [name])) == name
  {
    var path := Abs(dir + [name]);
    CatLast(dir, name);
    LastSlashAt(Cat(dir), name);
    assert path[..|Cat(dir)| + 1] == Cat(dir) + "/" + "";
    WalkJoin(Cat(dir), "", []);
    WalkCat(dir, []);
    WalkName("", dir);
    assert [] + dir == dir;
  }

  /** The joined server path: the slashes of an empty or rendered prefix make no difference. */
  lemma JoinRendered(root: seq<string>, dir: seq<string>, name: string)
    requires Components(root) && Components(dir) && Component(name)
    ensures Join(Abs(root), Cat(dir), name) == Abs(root + dir + [name])
  {
    WalkJoin(Abs(root) + "/" + Cat(dir), name, []);
    WalkJoin(Abs(root), Cat(dir), []);
    WalkAbs(root, []);
    assert [] + root == root;
    WalkCat(dir, root);
    WalkName(name, root + dir);
  }

  // ----- what IsSubdir accepts -----

  /** A star at the end of a plain pattern stands for any text without a slash. */
  lemma {:induction false} MatchStar(s: string)
    ensures Match("*", s) <==> '/' !in s
    decreases |s|
  {
    assert "*"[1..] == "" && "*"[0] == '*';
    if s != "" {
      MatchStar(s[1..]);
    }
  }

  lemma {:induction false} MatchLiteral(prefix: string, s: string)
    requires GlobFree(prefix)
    ensures Match(prefix + "*", s) <==> HasPrefix(s, prefix) && '/' !in s[|prefix|..]
    decreases |prefix|
  {
    if prefix == "" {
      assert prefix + "*" == "*";
      MatchStar(s);
      assert s[0..] == s;
    } else {
      assert (prefix + "*")[1..] == prefix[1..] + "*" && (prefix + "*")[0] == prefix[0];
      assert prefix[0] in prefix;
      assert GlobFree(prefix[1..]);
      if s != "" && s[0] == prefix[0] {
        MatchLiteral(prefix[1..], s[1..]);
        PrefixTail(prefix, s);
      } else if s != "" {
        OtherHead(prefix, s);
      }
    }
  }

  lemma OtherHead(prefix: string, s: string)
    requires prefix != "" && s != "" && s[0] != prefix[0]
    ensures !HasPrefix(s, prefix)
  {
    if |prefix| <= |s| {
      assert s[..|prefix|][0] == s[0];
    }
  }

  lemma PrefixTail(prefix: string, s: string)
    requires prefix != "" && s != "" && s[0] == prefix[0]
    ensures HasPrefix(s, prefix) <==> HasPrefix(s[1..], prefix[1..])
    ensures |prefix| <= |s| ==> s[1..][|prefix[1..]|..] == s[|prefix|..]
  {
    if |prefix| <= |s| {
      assert s[..|prefix|] == [s[0]] + s[1..][..|prefix| - 1];
      assert prefix == [prefix[0]] + prefix[1..];
    }
  }

  /**
   * IsSubdir, exactly: for clean absolute paths and a root other than "/" without pattern characters it accepts the
   * root itself and its direct children, and no deeper directory.
   */
  lemma IsSubdirExact(root: seq<string>, dir: seq<string>)
    requires Components(root) && Components(dir) && root != [] && GlobFree(Abs(root))
    ensures IsSubdir(Abs(root), Abs(dir)) <==> dir == root || (|dir| == |root| + 1 && root <= dir)
  {
    CleanAbs(root);
    CleanAbs(dir);
    var stem := Cat(root) + "/";
    MatchLiteral(stem, Abs(dir));
    if Abs(dir) == Abs(root) {
      SameText(dir, root);
    } else if dir != [] && Match(stem + "*", Abs(dir)) {
      ChildOfMatch(root, dir);
    } else if dir == [] {
      assert |stem| > |Abs(dir)|;
    }
    if |dir| == |root| + 1 && root <= dir {
      MatchOfChild(root, dir);
    }
  }

  lemma ChildOfMatch(root: seq<string>, dir: seq<string>)
    requires Components(root) && Components(dir) && dir != []
    requires HasPrefix(Cat(dir), Cat(root) + "/") && '/' !in Cat(dir)[|Cat(root)| + 1..]
    ensures |dir| == |root| + 1 && root <= dir
  {
    var x := Cat(dir)[|Cat(root)| + 1..];
    PrefixAndRest(Cat(dir), Cat(root) + "/");
    OneMoreName(root, dir, x);
  }

  lemma PrefixAndRest(s: string, prefix: string)
    requires HasPrefix(s, prefix)
    ensures s == prefix + s[|prefix|..]
  {
  }

  lemma OneMoreName(root: seq<string>, dir: seq<string>, x: string)
    requires Components(root) && Components(dir) && Cat(dir) == Cat(root) + "/" + x && '/' !in x
    ensures dir == root + [x]
  {
    SplitJoin(Cat(root), x);
    NoSlash(x);
    SplitCat(root);
    SplitCat(dir);
    TailsEqual("", dir, root, x);
  }

  lemma TailsEqual(head: string, a: seq<string>, b: seq<string>, x: string)
    requires [head] + a == [head] + b + [x]
    ensures a == b + [x]
  {
    assert a == ([head] + a)[1..];
    assert ([head] + b + [x])[1..] == b + [x];
  }

  lemma MatchOfChild(root: seq<string>, dir: seq<string>)
    requires Components(root) && Components(dir) && |dir| == |root| + 1 && root <= dir
    ensures HasPrefix(Cat(dir), Cat(root) + "/") && '/' !in Cat(dir)[|Cat(root)| + 1..]
  {
    var name := dir[|root|];
    assert dir == root + [name];
    CatLast(root, name);
    assert Cat(dir)[|Cat(root)| + 1..] == name;
  }

  // ----- the path mapping -----

  /** A file below a directory, by components. */
  predicate Below(file: seq<string>, dir: seq<string>) {
    |dir| < |file| && dir <= file
  }

  /**
   * The prefix of a file below the media root: it starts at a component boundary, and root, prefix and name give the
   * path back.
   */
  lemma PrefixOfFile(root: seq<string>, file: seq<string>)
    requires Components(root) && Components(file) && root != [] && Below(file, root)
    ensures var (dir, name) := (file[..|file| - 1], file[|file| - 1]);
            && GenerateMediaPrefix(Abs(root), Abs(file)) == Some(Cat(dir[|root|..]))
            && Base(Abs(file)) == name
            && Abs(root) + Cat(dir[|root|..]) + "/" + name == Abs(file)
  {
    var (dir, name) := (file[..|file| - 1], file[|file| - 1]);
    assert file == dir + [name];
    CleanAbs(root);
    CleanAbs(file);
    DirAndBase(dir, name);
    assert dir == root + dir[|root|..];
    CatAppend(root, dir[|root|..]);
    CatLast(dir, name);
    assert Cat(dir)[|Cat(root)|..] == Cat(dir[|root|..]);
  }

  /** Whatever a directory accepted by IsSubdir holds is below the media root. */
  lemma AcceptedIsBelow(root: seq<string>, watched: seq<string>, file: seq<string>)
    requires Components(root) && Components(watched) && root != [] && GlobFree(Abs(root))
    requires IsSubdir(Abs(root), Abs(watched)) && Below(file, watched)
    ensures Below(file, root)
  {
    IsSubdirExact(root, watched);
    assert root <= watched;
    assert root == watched[..|root|] == file[..|root|];
  }

  /**
   * The path mapping: every file below an accepted watched directory keeps its path relative to the media root under
   * the server's directory, and different files get different server paths.
   */
  lemma ServerPathsKeepTree(serverRoot: seq<string>, root: seq<string>, watched: seq<string>, a: seq<string>, b: seq<string>)
    requires Components(serverRoot) && Components(root) && Components(watched) && Components(a) && Components(b)
    requires root != [] && GlobFree(Abs(root)) && IsSubdir(Abs(root), Abs(watched))
    requires Below(a, watched) && Below(b, watched)
    ensures Below(a, root) && ServerPath(Abs(serverRoot), Abs(root), Abs(a)) == Abs(serverRoot + a[|root|..])
    ensures ServerPath(Abs(serverRoot), Abs(root), Abs(a)) == ServerPath(Abs(serverRoot), Abs(root), Abs(b)) <==> a == b
  {
    AcceptedIsBelow(root, watched, a);
    AcceptedIsBelow(root, watched, b);
    ServerPathOf(serverRoot, root, a);
    ServerPathOf(serverRoot, root, b);
    if Abs(serverRoot + a[|root|..]) == Abs(serverRoot + b[|root|..]) {
      SameText(serverRoot + a[|root|..], serverRoot + b[|root|..]);
      SameBelow(serverRoot, root, a, b);
    }
  }

  lemma SameBelow(serverRoot: seq<string>, root: seq<string>, a: seq<string>, b: seq<string>)
    requires Below(a, root) && Below(b, root) && serverRoot + a[|root|..] == serverRoot + b[|root|..]
    ensures a == b
  {
    assert a[|root|..] == (serverRoot + a[|root|..])[|serverRoot|..];
    assert b[|root|..] == (serverRoot + b[|root|..])[|serverRoot|..];
    assert a == root + a[|root|..] && b == root + b[|root|..];
  }

  lemma ServerPathByParts(serverRoot: string, mediaRoot: string, path: string, prefix: string, name: string)
    requires MediaPrefix(mediaRoot, path) == prefix && Base(path) == name
    ensures ServerPath(serverRoot, mediaRoot, path) == Join(serverRoot, prefix, name)
  {
  }

  lemma ServerPathOf(serverRoot: seq<string>, root: seq<string>, file: seq<string>)
    requires Components(serverRoot) && Components(root) && Components(file) && root != [] && Below(file, root)
    ensures ServerPath(Abs(serverRoot), Abs(root), Abs(file)) == Abs(serverRoot + file[|root|..])
  {
    var (dir, name) := (file[..|file| - 1], file[|file| - 1]);
    PrefixOfFile(root, file);
    ServerPathByParts(Abs(serverRoot), Abs(root), Abs(file), Cat(dir[|root|..]), name);
    RelativeParts(root, file);
    JoinRendered(serverRoot, dir[|root|..], name);
    assert serverRoot + dir[|root|..] + [name] == serverRoot + (dir[|root|..] + [name]);
  }

  lemma RelativeParts(root: seq<string>, file: seq<string>)
    requires Below(file, root)
    ensures file[|root|..] == file[..|file| - 1][|root|..] + [file[|file| - 1]]
  {
  }

  /**
   * The textual prefix test alone would not do: a sibling directory whose name extends the root's name passes it, and
   * its files collide with files below the root. IsSubdir rejects such a directory.
   */
  lemma PrefixTestAloneCollides(serverRoot: seq<string>, parent: seq<string>, n: string, more: string, file: string)
    requires Components(serverRoot) && Components(parent) && Component(n) && Component(more) && Component(n + more)
    requires Component(file) && GlobFree(Abs(parent + [n]))
    ensures var (root, sibling) := (Abs(parent + [n]), parent + [n + more]);
            && !IsSubdir(root, Abs(sibling))
            && HasPrefix(Abs(sibling), root)
            && ServerPath(Abs(serverRoot), root, Abs(sibling + [file]))
               == ServerPath(Abs(serverRoot), root, Abs(parent + [n, more, file]))
  {
    IsSubdirExact(parent + [n], parent + [n + more]);
    SiblingPrefix(parent, n, more, file);
    ServerPathByParts(Abs(serverRoot), Abs(parent + [n]), Abs(parent + [n + more] + [file]), more, file);
    JoinNames(serverRoot, more, file);
    InsidePath(serverRoot, parent, n, more, file);
  }

  lemma InsidePath(serverRoot: seq<string>, parent: seq<string>, n: string, more: string, file: string)
    requires Components(serverRoot) && Components(parent) && Component(n) && Component(more) && Component(file)
    ensures ServerPath(Abs(serverRoot), Abs(parent + [n]), Abs(parent + [n, more, file])) == Abs(serverRoot + [more, file])
  {
    var root, inside := parent + [n], parent + [n, more, file];
    assert inside[..|root|] == root && inside[|root|..] == [more, file];
    ServerPathOf(serverRoot, root, inside);
  }

  lemma SiblingPrefix(parent: seq<string>, n: string, more: string, file: string)
    requires Components(parent) && Component(n) && Component(more) && Component(n + more) && Component(file)
    ensures var (root, sibling) := (Abs(parent + [n]), Abs(parent + [n + more]));
            && HasPrefix(sibling, root)
            && MediaPrefix(root, Abs(parent + [n + more] + [file])) == more
            && Base(Abs(parent + [n + more] + [file])) == file
  {
    var root, sibling := parent + [n], parent + [n + more];
    CatLast(parent, n);
    CatLast(parent, n + more);
    assert Abs(sibling) == Abs(root) + more;
    DirAndBase(sibling, file);
    CleanAbs(sibling + [file]);
    CleanAbs(root);
  }

  lemma JoinNames(root: seq<string>, dir: string, name: string)
    requires Components(root) && Component(dir) && Component(name)
    ensures Join(Abs(root), dir, name) == Abs(root + [dir, name])
  {
    WalkJoin(Abs(root) + "/" + dir, name, []);
    WalkJoin(Abs(root), dir, []);
    WalkAbs(root, []);
    assert [] + root == root;
    WalkName(dir, root);
    WalkName(name, root + [dir]);
    assert root + [dir] + [name] == root + [dir, name];
  }
}
