/**
  The part of Node's POSIX `path` module that the indexer uses: `basename`,
  `dirname`, `parse(..).name` and `join`. `basename`, `dirname` and the name
  part of `parse` follow Node's algorithm character by character; `join`
  joins a directory and a single file name without Node's normalisation of
  `.` and `..` segments.
*/
module PosixPath {

  /** `s` without its trailing run of '/' characters. */
  function TrimTrailingSlashes(s: string): (r: string)
    ensures |r| <= |s| && r == s[..|r|]
    ensures r == "" || r[|r| - 1] != '/'
    ensures forall i :: |r| <= i < |s| ==> s[i] == '/'
  {
    if s != [] && s[|s| - 1] == '/' then TrimTrailingSlashes(s[..|s| - 1]) else s
  }

  /** The index of the last `c` in `s`, or -1 when there is none. */
  function LastIndexOf(s: string, c: char): (r: int)
    ensures -1 <= r < |s|
    ensures r >= 0 ==> s[r] == c
    ensures forall i :: r < i < |s| ==> s[i] != c
  {
    if s == [] then -1
    else if s[|s| - 1] == c then |s| - 1
    else LastIndexOf(s[..|s| - 1], c)
  }

  /** `path.basename(p)`: the last segment, trailing separators ignored. */
  function BaseName(p: string): (r: string)
    ensures '/' !in r
  {
    var t := TrimTrailingSlashes(p);
    t[LastIndexOf(t, '/') + 1..]
  }

  /**
    `path.dirname(p)`: everything before the last segment. Node never looks at
    the first character when searching for the separator, so "//x" yields "//".
  */
  function DirName(p: string): (r: string)
    ensures r != ""
  {
    if p == "" then "."
    else
      var hasRoot := p[0] == '/';
      var t := TrimTrailingSlashes(p[1..]);
      var k := LastIndexOf(t, '/');
      if k < 0 then (if hasRoot then "/" else ".")
      else if hasRoot && k == 0 then "//"
      else p[..k + 1]
  }

  /**
    `path.parse(fileName).name` for a file name without separators: the name
    without its extension. A leading dot does not start an extension, and ".."
    has none.
  */
  function Stem(fileName: string): string
  {
    var i := LastIndexOf(fileName, '.');
    if i <= 0 || fileName == ".." then fileName else fileName[..i]
  }

  /** `path.join(dir, name)` for a file name `name`. */
  function Join(dir: string, name: string): string
  {
    if dir == "" || dir == "." then name
    else
      var t := TrimTrailingSlashes(dir);
      if t == "" then "/" + name else t + "/" + name
  }

  /** A path in which no two separators are adjacent. */
  predicate NoEmptySegments(p: string)
  {
    forall i :: 0 <= i < |p| - 1 ==> p[i] != '/' || p[i + 1] != '/'
  }

  /** A directory as `dirname` prints it when the path has no empty segments. */
  predicate CanonicalDir(d: string)
  {
    d != "" && (d == "/" || d[|d| - 1] != '/')
  }

  /** A file name: non-empty and free of separators. */
  predicate PlainName(name: string)
  {
    name != "" && '/' !in name
  }

  lemma LastIndexOfAbsent(s: string, c: char)
    requires c !in s
    ensures LastIndexOf(s, c) == -1
  {
  }

  lemma {:induction false} TrimNoTrailing(s: string)
    requires s == "" || s[|s| - 1] != '/'
    ensures TrimTrailingSlashes(s) == s
  {
  }

  lemma {:induction false} LastIndexOfAppend(s: string, t: string, c: char)
    requires c !in t
    ensures LastIndexOf(s + t, c) == LastIndexOf(s, c)
  {
    if t != [] {
      assert (s + t)[..|s + t| - 1] == s + t[..|t| - 1];
      LastIndexOfAppend(s, t[..|t| - 1], c);
    } else {
      assert s + t == s;
    }
  }

  /** A joined path is at least as long as the name joined onto it. */
  lemma JoinKeepsName(dir: string, name: string)
    ensures |Join(dir, name)| >= |name|
  {
  }

  /** A joined path ends with the name joined onto it. */
  lemma JoinEndsWithName(dir: string, name: string)
    ensures |name| <= |Join(dir, name)|
    ensures Join(dir, name)[|Join(dir, name)| - |name|..] == name
  {
  }

  /** The last segment of a joined path is the file name that was joined. */
  lemma JoinBaseName(dir: string, name: string)
    requires PlainName(name)
    ensures BaseName(Join(dir, name)) == name
  {
    var j := Join(dir, name);
    TrimNoTrailing(j);
    if dir == "" || dir == "." {
      LastIndexOfAbsent(name, '/');
    } else {
      var t := TrimTrailingSlashes(dir);
      var pre := if t == "" then "/" else t + "/";
      assert j == pre + name;
      LastIndexOfAppend(pre, name, '/');
      assert LastIndexOf(pre, '/') == |pre| - 1;
      assert j[|pre|..] == name;
    }
  }

  /** Joining a file name onto a directory as `dirname` prints it keeps that directory. */
  lemma JoinDirName(dir: string, name: string)
    requires CanonicalDir(dir) && PlainName(name)
    ensures DirName(Join(dir, name)) == dir
  {
    if dir == "." {
      JoinDirNameDot(name);
    } else if dir == "/" {
      JoinDirNameRoot(name);
    } else {
      JoinDirNameInner(dir, name);
    }
  }

  lemma JoinDirNameDot(name: string)
    requires PlainName(name)
    ensures DirName(Join(".", name)) == "."
  {
    assert Join(".", name) == name;
    LastIndexOfAbsent(name[1..], '/');
    TrimNoTrailing(name[1..]);
  }

  lemma JoinDirNameRoot(name: string)
    requires PlainName(name)
    ensures DirName(Join("/", name)) == "/"
  {
    var j := Join("/", name);
    TrimNoTrailing("/"[..0]);
    assert j == "/" + name;
    assert j[1..] == name;
    TrimNoTrailing(name);
    LastIndexOfAbsent(name, '/');
  }

  lemma JoinDirNameInner(dir: string, name: string)
    requires CanonicalDir(dir) && dir != "." && dir != "/" && PlainName(name)
    ensures DirName(Join(dir, name)) == dir
  {
    var j := Join(dir, name);
    TrimNoTrailing(dir);
    assert j == dir + "/" + name;
    assert j[1..] == dir[1..] + "/" + name;
    TrimNoTrailing(j[1..]);
    LastIndexOfAppend(dir[1..] + "/", name, '/');
    assert LastIndexOf(dir[1..] + "/", '/') == |dir| - 1;
    assert j[..|dir|] == dir;
  }

  /**
    Joining a file name onto any directory keeps that directory, up to its
    trailing separators: `dirname` of the joined path names the same directory.
  */
  lemma DirOfJoin(dir: string, name: string)
    requires dir != "" && PlainName(name)
    ensures TrimTrailingSlashes(DirName(Join(dir, name))) == TrimTrailingSlashes(dir)
  {
    var t := TrimTrailingSlashes(dir);
    if dir == "." {
      JoinDirName(dir, name);
    } else if t == "" {
      DirOfJoinRoot(dir, name);
    } else if t == "." {
      DirOfJoinDot(dir, name);
    } else {
      TrimNoTrailing(t);
      JoinDirName(t, name);
      assert Join(dir, name) == Join(t, name);
    }
  }

  /** A directory made of separators only is the root. */
  lemma DirOfJoinRoot(dir: string, name: string)
    requires dir != "" && dir != "." && TrimTrailingSlashes(dir) == "" && PlainName(name)
    ensures DirName(Join(dir, name)) == "/"
  {
    JoinDirName("/", name);
  }

  /** `./` followed by separators is the current directory. */
  lemma DirOfJoinDot(dir: string, name: string)
    requires dir != "." && TrimTrailingSlashes(dir) == "." && PlainName(name)
    ensures DirName(Join(dir, name)) == "."
  {
    var j := Join(dir, name);
    assert j == "./" + name;
    assert j[1..] == "/" + name;
    TrimNoTrailing(j[1..]);
    LastIndexOfAppend("/", name, '/');
  }

  /** `dirname` of a path with no empty segments is a canonical directory. */
  lemma DirNameCanonical(p: string)
    requires NoEmptySegments(p)
    ensures CanonicalDir(DirName(p))
  {
    if p != "" {
      var t := TrimTrailingSlashes(p[1..]);
      var k := LastIndexOf(t, '/');
      if k >= 0 {
        assert p[k + 1] == t[k] == '/';
        assert p[k] != '/';
      }
    }
  }

  /**
    Stripping the extension from `stem + "." + ext` gives back `stem` when the
    extension has no dot and `stem` is not empty: the inverse of naming a file.
  */
  lemma StemOfDotted(stem: string, ext: string)
    requires stem != "" && stem != "." && '.' !in ext
    ensures Stem(stem + "." + ext) == stem
  {
    var f := stem + "." + ext;
    LastIndexOfAppend(stem + ".", ext, '.');
    assert LastIndexOf(stem + ".", '.') == |stem|;
    assert f[..|stem|] == stem;
  }
}
