/** The local filesystem the file handler writes to, as `java.io.File` and
    `FileOutputStream` see it: path text is normalised by `File`, resolved
    into a sequence of directory entries (relative text from the working
    directory), and the disk is a set of directories plus a map from file
    paths to their bytes. */
module Disk {
  import opened JavaLang
  import opened MediaModel
  import opened PlaybackUri

  // ---------------------------------------------------------------------------------------
  // Path text

  /** Runs of `/` collapse into one. */
  function CollapseSlashes(s: string): string
    decreases |s|
  {
    if |s| < 2 then s
    else if s[0] == '/' && s[1] == '/' then CollapseSlashes(s[1..])
    else [s[0]] + CollapseSlashes(s[1..])
  }

  /** The text `new File(s).toString()` gives on Unix: slashes collapsed, and a
      trailing `/` removed unless the whole path is `/`. */
  function FileNormalize(s: string): string
  {
    var c := CollapseSlashes(s);
    if |c| > 1 && c[|c| - 1] == '/' then c[..|c| - 1] else c
  }

  lemma {:induction false} CollapseDoubleSlash(a: string, b: string)
    ensures CollapseSlashes(a + "/" + "/" + b) == CollapseSlashes(a + "/" + b)
    decreases |a|
  {
    var s, t := a + "/" + "/" + b, a + "/" + b;
    if a == [] {
      assert s[1..] == t;
    } else {
      CollapseDoubleSlash(a[1..], b);
      assert s[1..] == a[1..] + "/" + "/" + b;
      assert t[1..] == a[1..] + "/" + b;
    }
  }

  /** The doubled separator some destination paths are built with is invisible
      once `File` has normalised the text. */
  lemma DoubleSlashHarmless(a: string, b: string)
    ensures FileNormalize(a + "/" + "/" + b) == FileNormalize(a + "/" + b)
  {
    CollapseDoubleSlash(a, b);
  }

  lemma {:induction false} CollapseKeepsHead(s: string)
    requires s != []
    ensures CollapseSlashes(s) != [] && CollapseSlashes(s)[0] == s[0]
    decreases |s|
  {
    if |s| >= 2 && s[0] == '/' && s[1] == '/' {
      CollapseKeepsHead(s[1..]);
    }
  }

  /** Normalising never empties a path nor changes whether it is absolute. */
  lemma NormalizeKeepsHead(s: string)
    requires s != []
    ensures FileNormalize(s) != [] && FileNormalize(s)[0] == s[0]
  {
    CollapseKeepsHead(s);
  }

  // ---------------------------------------------------------------------------------------
  // Path components

  function Flush(current: string): seq<string>
  {
    if current == "" then [] else [current]
  }

  /** The non-empty `/`-separated names of `s`, the first of them prefixed by `current`. */
  function ComponentsFrom(current: string, s: string): seq<string>
    decreases |s|
  {
    if s == [] then Flush(current)
    else if s[0] == '/' then Flush(current) + ComponentsFrom("", s[1..])
    else ComponentsFrom(current + [s[0]], s[1..])
  }

  /** The names a path text consists of; empty names (from `//` or a trailing `/`) do not count. */
  function Components(s: string): seq<string>
  {
    ComponentsFrom("", s)
  }

  lemma {:induction false} ComponentsTrailingSlash(current: string, a: string)
    ensures ComponentsFrom(current, a + "/") == ComponentsFrom(current, a)
    decreases |a|
  {
    if a != [] {
      assert (a + "/")[1..] == a[1..] + "/";
      ComponentsTrailingSlash(if a[0] == '/' then "" else current + [a[0]], a[1..]);
    }
  }

  lemma {:induction false} ComponentsFromJoin(current: string, a: string, b: string)
    ensures ComponentsFrom(current, a + "/" + b) == ComponentsFrom(current, a) + Components(b)
    decreases |a|
  {
    var s := a + "/" + b;
    if a == [] {
      assert s[1..] == b;
    } else {
      assert s[1..] == a[1..] + "/" + b;
      ComponentsFromJoin(if a[0] == '/' then "" else current + [a[0]], a[1..], b);
    }
  }

  /** Joining two path texts with `/` joins their names. */
  lemma ComponentsJoin(a: string, b: string)
    ensures Components(a + "/" + b) == Components(a) + Components(b)
  {
    ComponentsFromJoin("", a, b);
  }

  lemma {:induction false} ComponentsFromCollapse(current: string, s: string)
    ensures ComponentsFrom(current, CollapseSlashes(s)) == ComponentsFrom(current, s)
    decreases |s|
  {
    if |s| >= 2 {
      if s[0] == '/' && s[1] == '/' {
        ComponentsFromCollapse(current, s[1..]);
        assert s[1..][0] == '/';
        assert s[1..][1..] == s[2..];
      } else {
        var rest := CollapseSlashes(s[1..]);
        assert ([s[0]] + rest)[0] == s[0];
        assert ([s[0]] + rest)[1..] == rest;
        ComponentsFromCollapse(if s[0] == '/' then "" else current + [s[0]], s[1..]);
      }
    }
  }

  /** `File`'s normalisation keeps every name of the path. */
  lemma ComponentsNormalize(s: string)
    ensures Components(FileNormalize(s)) == Components(s)
  {
    var c := CollapseSlashes(s);
    ComponentsFromCollapse("", s);
    if |c| > 1 && c[|c| - 1] == '/' {
      assert c == c[..|c| - 1] + "/";
      ComponentsTrailingSlash("", c[..|c| - 1]);
    }
  }

  lemma {:induction false} ComponentsFromPlain(current: string, n: string)
    requires '/' !in n
    ensures ComponentsFrom(current, n) == Flush(current + n)
    decreases |n|
  {
    if n == [] {
      assert current + n == current;
    } else {
      assert n[0] != '/' && '/' !in n[1..];
      ComponentsFromPlain(current + [n[0]], n[1..]);
      assert current + [n[0]] + n[1..] == current + n;
    }
  }

  /** A non-empty name without `/` is one component. */
  lemma ComponentsOfName(n: string)
    requires n != "" && '/' !in n
    ensures Components(n) == [n]
  {
    ComponentsFromPlain("", n);
    assert "" + n == n;
  }

  // ---------------------------------------------------------------------------------------
  // Resolution

  /** A resolved location: the names of the directories from the root down. */
  type Path = seq<string>

  function Parent(p: Path): Path
    requires p != []
  {
    p[..|p| - 1]
  }

  /** Following one name: `.` stays, `..` goes up (the root is its own parent). */
  function Step(p: Path, name: string): Path
  {
    if name == "." then p
    else if name == ".." then (if p == [] then [] else Parent(p))
    else p + [name]
  }

  function Walk(p: Path, names: seq<string>): Path
    decreases |names|
  {
    if names == [] then p else Walk(Step(p, names[0]), names[1..])
  }

  lemma {:induction false} WalkConcat(p: Path, xs: seq<string>, ys: seq<string>)
    ensures Walk(p, xs + ys) == Walk(Walk(p, xs), ys)
    decreases |xs|
  {
    if xs == [] {
      assert xs + ys == ys;
    } else {
      assert (xs + ys)[0] == xs[0];
      assert (xs + ys)[1..] == xs[1..] + ys;
      WalkConcat(Step(p, xs[0]), xs[1..], ys);
    }
  }

  /** Where a path text leads: absolute text from the root, relative text from
      the working directory `cwd`; None for the empty text, which names nothing. */
  function Locate(cwd: Path, s: string): Option<Path>
  {
    if s == "" then None
    else Some(Walk(if s[0] == '/' then [] else cwd, Components(s)))
  }

  /** `a + "/" + b` leads to where `b`'s names lead from `a`. */
  lemma LocateJoin(cwd: Path, a: string, b: string)
    requires a != ""
    ensures Locate(cwd, a + "/" + b) == Some(Walk(Locate(cwd, a).value, Components(b)))
  {
    ComponentsJoin(a, b);
    WalkConcat(if a[0] == '/' then [] else cwd, Components(a), Components(b));
  }

  /** `File`'s normalisation never changes where a path leads. */
  lemma LocateNormalize(cwd: Path, s: string)
    requires s != ""
    ensures Locate(cwd, FileNormalize(s)) == Locate(cwd, s)
  {
    NormalizeKeepsHead(s);
    ComponentsNormalize(s);
  }

  /** Appending `/` and a plain name descends into that entry. */
  lemma LocateChild(cwd: Path, a: string, n: string)
    requires a != "" && IsPlainName(n)
    ensures Locate(cwd, a + "/" + n) == Some(Locate(cwd, a).value + [n])
  {
    LocateJoin(cwd, a, n);
    ComponentsOfName(n);
  }

  /** `a/<n>/../<m>/b` is `a/<m>/b`: a reference that climbs out of a directory
      lands in its sibling, or back in the same directory when `m` is `n`. */
  lemma LocateSibling(cwd: Path, a: string, n: string, m: string, b: string)
    requires a != "" && IsPlainName(n) && IsPlainName(m)
    ensures Locate(cwd, a + "/" + n + "/" + ("../" + m + "/" + b)) == Locate(cwd, a + "/" + m + "/" + b)
  {
    LocateChild(cwd, a, n);
    LocateChild(cwd, a, m);
    var up := Locate(cwd, a).value;
    var p := up + [n];
    var tail := "../" + m + "/" + b;
    assert tail == ".." + "/" + (m + "/" + b);
    ComponentsJoin("..", m + "/" + b);
    ComponentsOfName("..");
    ComponentsJoin(m, b);
    ComponentsOfName(m);
    assert Components(tail) == [".."] + [m] + Components(b);
    LocateJoin(cwd, a + "/" + n, tail);
    LocateJoin(cwd, a + "/" + m, b);
    WalkConcat(p, [".."] + [m], Components(b));
    assert Walk(p, [".."] + [m]) == up + [m] by {
      assert Step(p, "..") == up;
      assert ([".."] + [m])[1..] == [m];
      assert Walk(up, [m]) == Walk(Step(up, m), []) == up + [m];
    }
  }

  /** Text appended to a normalised path leads where it leads after the original. */
  lemma LocateUnderNormalized(cwd: Path, a: string, b: string)
    requires a != ""
    ensures Locate(cwd, FileNormalize(a) + "/" + b) == Locate(cwd, a + "/" + b)
  {
    NormalizeKeepsHead(a);
    LocateJoin(cwd, FileNormalize(a), b);
    LocateJoin(cwd, a, b);
    LocateNormalize(cwd, a);
  }

  // ---------------------------------------------------------------------------------------
  // The disk

  datatype DiskState = DiskState(dirs: set<Path>, files: map<Path, Bytes>)

  /** A tree: the root is a directory, nothing is both a file and a directory,
      and every entry other than the root sits in a directory. */
  ghost predicate WellFormed(st: DiskState)
  {
    && [] in st.dirs
    && st.dirs !! st.files.Keys
    && (forall p :: p in st.dirs && p != [] ==> Parent(p) in st.dirs)
    && (forall p :: p in st.files ==> p != [] && Parent(p) in st.dirs)
  }

  /** In a well-formed disk every ancestor of a directory is a directory. */
  lemma {:induction false} AncestorsAreDirs(st: DiskState, p: Path, i: nat)
    requires WellFormed(st) && p in st.dirs && i <= |p|
    ensures p[..i] in st.dirs
    decreases |p|
  {
    if i < |p| {
      AncestorsAreDirs(st, Parent(p), i);
      assert Parent(p)[..i] == p[..i];
    } else {
      assert p[..i] == p;
    }
  }

  /** `File.exists()`. */
  predicate PathExists(st: DiskState, cwd: Path, s: string)
  {
    var l := Locate(cwd, s);
    l.Some? && (l.value in st.dirs || l.value in st.files)
  }

  /** `File.mkdir()` succeeds: nothing exists there yet and the parent is a directory. */
  predicate CanMkdir(st: DiskState, cwd: Path, s: string)
  {
    var l := Locate(cwd, s);
    l.Some? && l.value != [] && l.value !in st.dirs && l.value !in st.files && Parent(l.value) in st.dirs
  }

  function AfterMkdir(st: DiskState, cwd: Path, s: string): DiskState
  {
    if CanMkdir(st, cwd, s) then st.(dirs := st.dirs + {Locate(cwd, s).value}) else st
  }

  /** `p` and all its ancestors. */
  function Prefixes(p: Path): set<Path>
  {
    set i | 0 <= i <= |p| :: p[..i]
  }

  /** Some ancestor of `p`, or `p` itself, is a file. */
  predicate UnderFile(st: DiskState, p: Path)
  {
    exists i :: 0 <= i <= |p| && p[..i] in st.files
  }

  /** `File.mkdirs()` succeeds: nothing exists there yet and no ancestor is a file. */
  predicate CanMkdirs(st: DiskState, cwd: Path, s: string)
  {
    var l := Locate(cwd, s);
    l.Some? && l.value !in st.dirs && l.value !in st.files && !UnderFile(st, l.value)
  }

  /** `File.mkdirs()` creates the directory and every missing ancestor, or nothing. */
  function AfterMkdirs(st: DiskState, cwd: Path, s: string): DiskState
  {
    if CanMkdirs(st, cwd, s) then st.(dirs := st.dirs + Prefixes(Locate(cwd, s).value)) else st
  }

  /** `File.createNewFile()`: Some(true) when it creates an empty file, Some(false)
      when something already exists there, None for the `IOException` it throws
      when the parent is not a directory. */
  function CreateNewFileResult(st: DiskState, cwd: Path, s: string): Option<bool>
  {
    var l := Locate(cwd, s);
    if l.None? then None
    else if l.value in st.dirs || l.value in st.files then Some(false)
    else if l.value != [] && Parent(l.value) in st.dirs then Some(true)
    else None
  }

  function AfterCreateNewFile(st: DiskState, cwd: Path, s: string): DiskState
  {
    if CreateNewFileResult(st, cwd, s) == Some(true) then st.(files := st.files[Locate(cwd, s).value := []]) else st
  }

  /** `new FileOutputStream(file, false)` opens: the path is not a directory, and
      it is a file or can become one. */
  predicate CanOpenForWrite(st: DiskState, cwd: Path, s: string)
  {
    var l := Locate(cwd, s);
    l.Some? && l.value !in st.dirs && (l.value in st.files || (l.value != [] && Parent(l.value) in st.dirs))
  }

  /** Opening without append leaves the file empty. */
  function AfterOpenForWrite(st: DiskState, cwd: Path, s: string): DiskState
  {
    if CanOpenForWrite(st, cwd, s) then st.(files := st.files[Locate(cwd, s).value := []]) else st
  }

  /** `write(data)` on a stream open on file `p`. */
  function AfterAppend(st: DiskState, p: Path, data: Bytes): DiskState
  {
    if p in st.files then st.(files := st.files[p := st.files[p] + data]) else st
  }

  /** A directory with no entries in it. */
  predicate IsEmptyDir(st: DiskState, p: Path)
  {
    && p in st.dirs
    && (forall q :: q in st.dirs && q != [] ==> Parent(q) != p)
    && (forall q :: q in st.files && q != [] ==> Parent(q) != p)
  }

  /** `File.delete()` succeeds: the path is a file, or an empty directory other than the root. */
  predicate CanDelete(st: DiskState, cwd: Path, s: string)
  {
    var l := Locate(cwd, s);
    l.Some? && (l.value in st.files || (l.value != [] && IsEmptyDir(st, l.value)))
  }

  function AfterDelete(st: DiskState, cwd: Path, s: string): DiskState
  {
    if !CanDelete(st, cwd, s) then st
    else
      var p := Locate(cwd, s).value;
      if p in st.files then st.(files := st.files - {p}) else st.(dirs := st.dirs - {p})
  }

  // ---------------------------------------------------------------------------------------
  // Every operation keeps the disk a tree

  lemma MkdirPreserves(st: DiskState, cwd: Path, s: string)
    requires WellFormed(st)
    ensures WellFormed(AfterMkdir(st, cwd, s))
  {
  }

  lemma MkdirsPreserves(st: DiskState, cwd: Path, s: string)
    requires WellFormed(st)
    ensures WellFormed(AfterMkdirs(st, cwd, s))
  {
    if CanMkdirs(st, cwd, s) {
      var p := Locate(cwd, s).value;
      var st' := AfterMkdirs(st, cwd, s);
      forall q | q in st'.dirs && q != [] ensures Parent(q) in st'.dirs {
        if q in Prefixes(p) {
          var i :| 0 <= i <= |p| && q == p[..i];
          assert Parent(q) == p[..i - 1];
        }
      }
      forall q | q in Prefixes(p) ensures q !in st.files {
        var i :| 0 <= i <= |p| && q == p[..i];
      }
    }
  }

  /** After `mkdirs` (or when nothing blocks it) the directory and all its
      ancestors are directories. */
  lemma MkdirsMakesDirectory(st: DiskState, cwd: Path, s: string, i: nat)
    requires WellFormed(st)
    requires Locate(cwd, s).Some? && Locate(cwd, s).value !in st.files && !UnderFile(st, Locate(cwd, s).value)
    requires i <= |Locate(cwd, s).value|
    ensures Locate(cwd, s).value[..i] in AfterMkdirs(st, cwd, s).dirs
  {
    var p := Locate(cwd, s).value;
    if p in st.dirs {
      AncestorsAreDirs(st, p, i);
    } else {
      assert p[..i] in Prefixes(p);
    }
  }

  lemma CreateNewFilePreserves(st: DiskState, cwd: Path, s: string)
    requires WellFormed(st)
    ensures WellFormed(AfterCreateNewFile(st, cwd, s))
  {
  }

  lemma OpenForWritePreserves(st: DiskState, cwd: Path, s: string)
    requires WellFormed(st)
    ensures WellFormed(AfterOpenForWrite(st, cwd, s))
  {
  }

  lemma AppendPreserves(st: DiskState, p: Path, data: Bytes)
    requires WellFormed(st)
    ensures WellFormed(AfterAppend(st, p, data))
  {
  }

  lemma DeletePreserves(st: DiskState, cwd: Path, s: string)
    requires WellFormed(st)
    ensures WellFormed(AfterDelete(st, cwd, s))
  {
  }

  // ---------------------------------------------------------------------------------------
  // The disk as a mutable object

  /** The filesystem the handler's `File` calls reach; each method is one
      `java.io` call and changes the state as the matching function says. */
  class FileSystem {
    const cwd: Path
    var dirs: set<Path>
    var files: map<Path, Bytes>

    function State(): DiskState
      reads this
    {
      DiskState(dirs, files)
    }

    ghost predicate Valid()
      reads this
    {
      WellFormed(State())
    }

    constructor (cwd: Path, initial: DiskState)
      requires WellFormed(initial)
      ensures Valid() && this.cwd == cwd && State() == initial
    {
      this.cwd := cwd;
      dirs := initial.dirs;
      files := initial.files;
    }

    /** `File.exists()`. */
    predicate Exists(s: string)
      reads this
    {
      PathExists(State(), cwd, s)
    }

    /** `File.mkdir()`. */
    method Mkdir(s: string) returns (ok: bool)
      requires Valid()
      modifies this`dirs
      ensures Valid()
      ensures ok == CanMkdir(old(State()), cwd, s)
      ensures State() == AfterMkdir(old(State()), cwd, s)
    {
      ok := CanMkdir(State(), cwd, s);
      MkdirPreserves(State(), cwd, s);
      if ok {
        dirs := dirs + {Locate(cwd, s).value};
      }
    }

    /** `File.mkdirs()`. */
    method Mkdirs(s: string) returns (ok: bool)
      requires Valid()
      modifies this`dirs
      ensures Valid()
      ensures ok == CanMkdirs(old(State()), cwd, s)
      ensures State() == AfterMkdirs(old(State()), cwd, s)
    {
      ok := CanMkdirs(State(), cwd, s);
      MkdirsPreserves(State(), cwd, s);
      if ok {
        dirs := dirs + Prefixes(Locate(cwd, s).value);
      }
    }

    /** `File.createNewFile()`; None stands for the `IOException`. */
    method CreateNewFile(s: string) returns (created: Option<bool>)
      requires Valid()
      modifies this`files
      ensures Valid()
      ensures created == CreateNewFileResult(old(State()), cwd, s)
      ensures State() == AfterCreateNewFile(old(State()), cwd, s)
    {
      created := CreateNewFileResult(State(), cwd, s);
      CreateNewFilePreserves(State(), cwd, s);
      if created == Some(true) {
        files := files[Locate(cwd, s).value := []];
      }
    }

    /** `new FileOutputStream(file, false)`: the open file, or None for the
        `FileNotFoundException`. */
    method OpenForWrite(s: string) returns (stream: Option<Path>)
      requires Valid()
      modifies this`files
      ensures Valid()
      ensures stream.Some? <==> CanOpenForWrite(old(State()), cwd, s)
      ensures stream.Some? ==> stream == Locate(cwd, s) && stream.value in files
      ensures State() == AfterOpenForWrite(old(State()), cwd, s)
    {
      OpenForWritePreserves(State(), cwd, s);
      if CanOpenForWrite(State(), cwd, s) {
        stream := Locate(cwd, s);
        files := files[stream.value := []];
      } else {
        stream := None;
      }
    }

    /** `write(data)` on the stream open on `p`. */
    method Write(p: Path, data: Bytes)
      requires Valid() && p in files
      modifies this`files
      ensures Valid()
      ensures State() == AfterAppend(old(State()), p, data)
    {
      AppendPreserves(State(), p, data);
      files := files[p := files[p] + data];
    }

    /** `File.delete()`. */
    method Delete(s: string) returns (ok: bool)
      requires Valid()
      modifies this`dirs, this`files
      ensures Valid()
      ensures ok == CanDelete(old(State()), cwd, s)
      ensures State() == AfterDelete(old(State()), cwd, s)
    {
      ok := CanDelete(State(), cwd, s);
      DeletePreserves(State(), cwd, s);
      if ok {
        var p := Locate(cwd, s).value;
        if p in files {
          files := files - {p};
        } else {
          dirs := dirs - {p};
        }
      }
    }
  }
}
