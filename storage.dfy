/** The file system the program reads and writes, as one shared object:
    files map a path to their text, and directories are a set of paths.
    Paths are texts joined with '/', as `pathlib` prints them. */
module Storage {
  import opened Wrappers
  import opened Py
  import Text

  class FileSystem {
    var files: map<string, string>
    var dirs: set<string>

    constructor(files0: map<string, string>, dirs0: set<string>)
      ensures files == files0 && dirs == dirs0
    {
      files := files0;
      dirs := dirs0;
    }

    /** `Path(p).exists()`: a file or a directory. */
    predicate Exists(p: string)
      reads this
    {
      p in files || p in dirs
    }

    /** `Path(p).read_text()`. */
    function ReadText(p: string): (r: Result<string>)
      reads this
      ensures r.Ok? <==> p in files
      ensures r.Ok? ==> r.value == files[p]
    {
      if p in files then Ok(files[p]) else Err(NotAFile(p, dirs))
    }

    /** `Path(p).write_text(text)`. */
    method WriteText(p: string, text: string)
      modifies this`files
      ensures files == old(files)[p := text]
    {
      files := files[p := text];
    }

    /** `Path(p).write_text(text)` where the directory it goes into may be
        missing: the write raises as `WriteError` says and changes nothing. */
    method TryWriteText(p: string, text: string) returns (r: Result<()>)
      modifies this`files
      ensures r.Err? <==> WriteError(p, dirs).Some?
      ensures r.Err? ==> r.error == WriteError(p, dirs).value
      ensures files == if r.Ok? then old(files)[p := text] else old(files)
    {
      var e := WriteError(p, dirs);
      if e.Some? {
        return Err(e.value);
      }
      files := files[p := text];
      return Ok(());
    }

    /** `Path(p).mkdir(parents=True, exist_ok=True)` for `p` itself. */
    method Mkdir(p: string)
      modifies this`dirs
      ensures dirs == old(dirs) + {p}
    {
      dirs := dirs + {p};
    }

    /** `Path(p).unlink()`. */
    method Unlink(p: string) returns (r: Result<bool>)
      modifies this`files
      ensures r.Ok? <==> p in old(files)
      ensures r.Err? ==> r.error == NotAFile(p, dirs)
      ensures files == if r.Ok? then old(files) - {p} else old(files)
    {
      if p in files {
        files := files - {p};
        r := Ok(true);
      } else {
        r := Err(NotAFile(p, dirs));
      }
    }
  }

  /** No path is both a file and a directory, as on a real file system. */
  predicate NoFileIsADir(files: map<string, string>, dirs: set<string>) {
    forall p :: p in files ==> p !in dirs
  }

  /** The error reading or unlinking a path that is not a file raises. */
  function NotAFile(p: string, dirs: set<string>): Error {
    if p in dirs then Error(IsADirectoryError, "[Errno 21] Is a directory: '" + p + "'")
    else Error(FileNotFoundError, "[Errno 2] No such file or directory: '" + p + "'")
  }

  /** `Path(a) / b`. */
  function PathJoin(a: string, b: string): string {
    a + "/" + b
  }

  /** The last component of a path, `Path(p).name`. */
  function Name(p: string): (r: string)
    ensures '/' !in r
    ensures |r| <= |p| && r == p[|p| - |r|..]
    ensures |r| < |p| ==> p[|p| - |r| - 1] == '/'
  {
    if |p| == 0 || p[|p| - 1] == '/' then ""
    else
      var r := Name(p[..|p| - 1]) + [p[|p| - 1]];
      assert p[|p| - |r|..] == p[..|p| - 1][|p| - |r|..] + [p[|p| - 1]];
      r
  }

  /** `Path(p).parent`: the path before the last '/', "/" for a name
      right under the root, "." for a bare name. */
  function Parent(p: string): (r: string)
    ensures |Name(p)| < |p| && |p| - |Name(p)| - 1 > 0 ==> PathJoin(r, Name(p)) == p
  {
    var n := Name(p);
    if |n| == |p| then "."
    else if |p| - |n| - 1 == 0 then "/"
    else
      assert p == p[..|p| - |n| - 1] + "/" + n;
      p[..|p| - |n| - 1]
  }

  /** Why opening `p` for writing raises, if it does: `p` is a directory,
      or the directory it goes into does not exist (the working directory
      and the root always do). */
  function WriteError(p: string, dirs: set<string>): (r: Option<Error>)
    ensures r.Some? <==> p in dirs || (Parent(p) !in dirs && Parent(p) != "." && Parent(p) != "/")
    ensures r.Some? ==> r.value == NotAFile(p, dirs)
  {
    var d := Parent(p);
    if p in dirs || (d !in dirs && d != "." && d != "/") then Some(NotAFile(p, dirs)) else None
  }

  /** Writing into a directory that does not exist, other than the working
      directory or the root, raises FileNotFoundError. */
  lemma MissingParent(p: string, dirs: set<string>)
    requires p !in dirs && Parent(p) !in dirs && |Parent(p)| >= 2
    ensures WriteError(p, dirs) == Some(Error(FileNotFoundError, "[Errno 2] No such file or directory: '" + p + "'"))
  {
    assert Parent(p) != "." && Parent(p) != "/";
  }

  /** The last component of `a / b` is `b` when `b` has no '/'. */
  lemma {:induction false} NameOfJoin(a: string, b: string)
    requires '/' !in b
    ensures Name(PathJoin(a, b)) == b
  {
    var p := PathJoin(a, b);
    if b != [] {
      var b' := b[..|b| - 1];
      assert p[..|p| - 1] == PathJoin(a, b');
      NameOfJoin(a, b');
      assert b == b' + [b[|b| - 1]];
    }
  }

  /** The parent of `a / b` is `a` when `b` is one component. */
  lemma ParentOfJoin(a: string, b: string)
    requires '/' !in b && |a| > 0
    ensures Parent(PathJoin(a, b)) == a
  {
    var p := PathJoin(a, b);
    NameOfJoin(a, b);
    assert p[..|p| - |b| - 1] == a;
  }

  /** `Path(name).suffix`: from the last '.' on, when that dot is neither the
      first nor the last character of the name. */
  function Suffix(name: string): (r: string)
    ensures r == [] || (r[0] == '.' && |r| >= 2 && '.' !in r[1..])
    ensures |r| <= |name| && r == name[|name| - |r|..]
  {
    match LastDot(name)
    case Some(i) => if 0 < i < |name| - 1 then name[i..] else ""
    case None => ""
  }

  /** `name.rfind('.')`. */
  function LastDot(name: string): (r: Option<nat>)
    ensures r.Some? ==> (r.value < |name| && name[r.value] == '.'
                         && forall k :: r.value < k < |name| ==> name[k] != '.')
    ensures r.None? ==> '.' !in name
  {
    if |name| == 0 then None
    else if name[|name| - 1] == '.' then Some(|name| - 1)
    else LastDot(name[..|name| - 1])
  }

  /** The names `Path(dir).glob("*.md")` yields: entries directly inside `dir`
      (files or directories) whose name ends in ".md". */
  function MdEntries(fs: map<string, string>, dirs: set<string>, dir: string): (names: set<string>)
    ensures forall n :: n in names ==> PathJoin(dir, n) in fs || PathJoin(dir, n) in dirs
  {
    (set p | p in fs && IsMdEntry(dir, p) :: EntryName(dir, p))
      + (set p | p in dirs && IsMdEntry(dir, p) :: EntryName(dir, p))
  }

  function EntryName(dir: string, p: string): (n: string)
    requires IsMdEntry(dir, p)
    ensures PathJoin(dir, n) == p
  {
    assert p == p[..|dir| + 1] + p[|dir| + 1..];
    p[|dir| + 1..]
  }

  predicate IsMdEntry(dir: string, p: string) {
    |p| > |dir| + 1 && p[..|dir| + 1] == dir + "/" && '/' !in p[|dir| + 1..]
      && |p| >= |dir| + 4 && p[|p| - 3..] == ".md"
  }
}
