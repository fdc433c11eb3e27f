/**
 * Filesystem paths as sequences of components, with the semantics of Rust's `std::path`
 * operations the program uses: `join`, `strip_prefix`, `file_name`, `extension`, `with_extension`
 * and `display`. The root of an absolute path is the component `/`; a `.` component is kept as
 * written, and `file_name` looks past trailing ones as `Path::components` does.
 */
module Paths {
  import opened Wrappers
  import Text

  type Path = seq<string>

  /** One `std::fs::write(path, contents)`: the model records writes instead of performing them. */
  datatype Write = Write(path: Path, contents: string)

  /** A component as `Path::components` yields it for a relative path: not empty, no separator, not `.`. */
  predicate NormalComponent(c: string) {
    c != "" && c != "." && '/' !in c
  }

  predicate NormalPath(p: Path) {
    forall i :: 0 <= i < |p| ==> NormalComponent(p[i])
  }

  /** Index of the last `.` in a name. */
  function LastDot(name: string): (r: Option<nat>)
    ensures r.Some? ==> r.value < |name| && name[r.value] == '.'
    ensures r.Some? ==> forall j :: r.value < j < |name| ==> name[j] != '.'
    ensures r.None? ==> '.' !in name
  {
    if name == [] then None
    else if name[|name| - 1] == '.' then Some(|name| - 1)
    else LastDot(name[..|name| - 1])
  }

  /**
   * Rust's private `rsplit_file_at_dot`: a file name's stem and extension. The extension is what
   * follows the last dot, unless that dot starts the name (`.bashrc` has none) or the name is `..`.
   */
  function SplitAtDot(name: string): (r: (string, Option<string>))
    ensures r.1.None? ==> r.0 == name
    ensures r.1.Some? ==> name == r.0 + "." + r.1.value && r.0 != "" && '.' !in r.1.value
  {
    if name == ".." then (name, None)
    else match LastDot(name)
      case None => (name, None)
      case Some(i) =>
        if i == 0 then (name, None)
        else
          assert name == name[..i] + "." + name[i + 1..];
          (name[..i], Some(name[i + 1..]))
  }

  /**
   * What `Path::components` drops at the end of a path: trailing `.` components, and the empty
   * pieces a trailing `/` leaves.
   */
  function TrimCurDir(p: Path): (r: Path)
    ensures |r| <= |p| && r == p[..|r|]
    ensures forall i :: |r| <= i < |p| ==> p[i] == "." || p[i] == ""
    ensures r != [] ==> r[|r| - 1] != "." && r[|r| - 1] != ""
  {
    if p != [] && (p[|p| - 1] == "." || p[|p| - 1] == "") then TrimCurDir(p[..|p| - 1]) else p
  }

  /**
   * `Path::file_name`: the last component `Path::components` yields, unless there is none or it
   * is `..` or the root.
   */
  function FileName(p: Path): (r: Option<string>)
    ensures r.Some? ==> r.value != "" && r.value != "." && r.value != ".." && r.value != "/"
  {
    var q := TrimCurDir(p);
    if q == [] || q[|q| - 1] == ".." || q[|q| - 1] == "/" then None else Some(q[|q| - 1])
  }

  /** A trailing `.` does not change the file name: `a/.` names `a`. */
  lemma FileNameCurDir(p: Path)
    ensures FileName(p + ["."]) == FileName(p)
  {
    assert (p + ["."])[..|p|] == p;
  }

  /** The root alone, `.` alone and a path ending in `..` have no file name. */
  lemma FileNameNone(p: Path)
    ensures FileName(["/"]) == None && FileName(["."]) == None && FileName(p + [".."]) == None
  {
    assert ["."][..0] == [];
  }

  /** On a path of normal components the file name is the last component. */
  lemma FileNameNormal(p: Path)
    requires NormalPath(p) && p != [] && p[|p| - 1] != ".."
    ensures TrimCurDir(p) == p && FileName(p) == Some(p[|p| - 1])
  {
    assert NormalComponent(p[|p| - 1]);
  }

  /** `Path::extension`. */
  function Extension(p: Path): Option<string> {
    match FileName(p)
    case None => None
    case Some(name) => SplitAtDot(name).1
  }

  /**
   * `Path::with_extension`: the path is cut back to the end of its file name's stem (trailing `.`
   * components go with it) and, when `ext` is not empty, `.ext` is added. A path without a file
   * name is returned as it is.
   */
  function WithExtension(p: Path, ext: string): (r: Path)
    ensures FileName(p).None? ==> r == p
    ensures FileName(p).Some? ==> var q := TrimCurDir(p);
      |r| == |q| && r[..|q| - 1] == q[..|q| - 1]
  {
    match FileName(p)
    case None => p
    case Some(name) =>
      var q := TrimCurDir(p);
      var stem := SplitAtDot(name).0;
      q[..|q| - 1] + [if ext == "" then stem else stem + "." + ext]
  }

  /** On a path ending in a normal name, the name is cut back to its stem and gains `.ext`. */
  lemma WithExtensionName(dir: Path, name: string, ext: string)
    requires NormalComponent(name) && name != ".."
    ensures var stem := SplitAtDot(name).0;
      WithExtension(dir + [name], ext) == dir + [if ext == "" then stem else stem + "." + ext]
  {
    assert TrimCurDir(dir + [name]) == dir + [name];
    assert FileName(dir + [name]) == Some(name);
    assert (dir + [name])[..|dir|] == dir;
  }

  /** A name without a dot gets exactly `.ext` appended. */
  lemma WithExtensionNoDot(dir: Path, name: string, ext: string)
    requires '.' !in name && name != "" && name != "/"
    ensures WithExtension(dir + [name], ext) == dir + [if ext == "" then name else name + "." + ext]
  {
    assert (dir + [name])[..|dir|] == dir;
  }

  /** Setting a dot-free extension and reading it back gives that extension. */
  lemma ExtensionOfWithExtension(p: Path, ext: string)
    requires FileName(p).Some? && ext != "" && '.' !in ext
    ensures Extension(WithExtension(p, ext)) == Some(ext)
  {
    var q := TrimCurDir(p);
    var stem := SplitAtDot(FileName(p).value).0;
    var name := stem + "." + ext;
    var r := q[..|q| - 1] + [name];
    assert WithExtension(p, ext) == r;
    assert stem != "";
    assert LastDot(name) == Some(|stem|) by {
      LastDotAppend(stem, ext);
    }
    assert |name| >= 3;
    assert name != ".." && name != "/" && name != "." && name != "";
    assert TrimCurDir(r) == r;
    assert FileName(r) == Some(name);
    assert name[..|stem|] == stem && name[|stem| + 1..] == ext;
  }

  lemma {:induction false} LastDotAppend(stem: string, ext: string)
    requires '.' !in ext
    ensures LastDot(stem + "." + ext) == Some(|stem|)
  {
    var name := stem + "." + ext;
    if ext != [] {
      assert name[..|name| - 1] == stem + "." + ext[..|ext| - 1];
      assert name[|name| - 1] == ext[|ext| - 1];
      LastDotAppend(stem, ext[..|ext| - 1]);
    }
  }

  /** `Path::strip_prefix` on component sequences. */
  function StripPrefix(p: Path, prefix: Path): (r: Option<Path>)
    ensures r.Some? <==> |prefix| <= |p| && p[..|prefix|] == prefix
    ensures r.Some? ==> p == prefix + r.value
  {
    if |prefix| <= |p| && p[..|prefix|] == prefix then Some(p[|prefix|..]) else None
  }

  /** `Path::display`: components joined by `/`, the root component `/` written once as the leading separator. */
  function Display(p: Path): string {
    if p != [] && p[0] == "/" then "/" + Text.JoinWith(p[1..], "/") else Text.JoinWith(p, "/")
  }

  /** The pieces of a string between `/` separators, empty pieces included. */
  function SplitSlash(s: string): (r: seq<string>)
    ensures |r| >= 1
    ensures forall i :: 0 <= i < |r| ==> '/' !in r[i]
    decreases |s|
  {
    match Text.SplitOnce(s, "/")
    case None =>
      assert forall k :: 0 <= k < |s| && s[k] == '/' ==> Text.OccursAt(s, "/", k);
      [s]
    case Some((a, b)) =>
      assert forall k :: 0 <= k < |a| && a[k] == '/' ==> Text.OccursAt(s, "/", k);
      [a] + SplitSlash(b)
  }

  function KeepNormal(pieces: seq<string>): (r: Path)
    ensures NormalPath(r)
  {
    if pieces == [] then []
    else if pieces[0] == "" || pieces[0] == "." || '/' in pieces[0] then KeepNormal(pieces[1..])
    else [pieces[0]] + KeepNormal(pieces[1..])
  }

  /** The components `Path::new(s)` yields for a relative path string (repeated `/` and `.` vanish). */
  function Parse(s: string): (r: Path)
    ensures NormalPath(r)
  {
    KeepNormal(SplitSlash(s))
  }

  /**
   * `Path::join` with a string: a relative string adds its components; an absolute one (leading
   * `/`) replaces the path, the root written as the component `/`.
   */
  function Join(p: Path, s: string): Path {
    if Text.StartsWith(s, "/") then ["/"] + Parse(s) else p + Parse(s)
  }

  /** Joining a plain name adds exactly that component. */
  lemma JoinName(p: Path, name: string)
    requires NormalComponent(name)
    ensures Join(p, name) == p + [name]
  {
    forall i: nat | i <= |name| ensures !Text.OccursAt(name, "/", i) {
      if i < |name| {
        assert name[i..i + 1] == [name[i]];
      }
    }
    assert SplitSlash(name) == [name];
    assert KeepNormal([name]) == [name] + KeepNormal([]);
    assert !Text.StartsWith(name, "/") by {
      assert name[0] != '/';
    }
  }

  lemma SplitSlashCons(a: string, rest: string)
    requires '/' !in a
    ensures SplitSlash(a + "/" + rest) == [a] + SplitSlash(rest)
  {
    var s := a + "/" + rest;
    assert Text.OccursAt(s, "/", |a|);
    var r := Text.SplitOnce(s, "/");
    assert r.Some?;
    var (x, y) := r.value;
    forall k: nat | k < |a| ensures !Text.OccursAt(s, "/", k) {
      assert s[k..k + 1] == [a[k]];
    }
    assert s[|x|..|x| + 1] == "/";
    assert x == a;
    assert y == rest by {
      assert s == a + "/" + y;
      assert s[|a| + 1..] == rest;
      assert s[|a| + 1..] == y;
    }
  }

  /** Displaying a normal path and reading it back gives the same components. */
  lemma {:induction false} ParseDisplay(p: Path)
    requires NormalPath(p)
    ensures Parse(Display(p)) == p
  {
    if p == [] {
      assert SplitSlash("") == [""] by {
        assert !Text.Contains("", "/");
      }
    } else if |p| == 1 {
      forall i: nat | i <= |p[0]| ensures !Text.OccursAt(p[0], "/", i) {
        if i < |p[0]| {
          assert p[0][i..i + 1] == [p[0][i]];
        }
      }
      assert SplitSlash(p[0]) == [p[0]];
      assert KeepNormal([p[0]]) == [p[0]] + KeepNormal([]);
    } else {
      assert NormalComponent(p[0]) && NormalComponent(p[1]);
      assert Display(p) == p[0] + "/" + Display(p[1..]);
      SplitSlashCons(p[0], Display(p[1..]));
      ParseDisplay(p[1..]);
    }
  }

  /** Splitting a displayed path at `/` gives back its components, empty ones and `.` included. */
  lemma {:induction false} SplitDisplay(p: Path)
    requires |p| >= 1 && forall i :: 0 <= i < |p| ==> '/' !in p[i]
    ensures SplitSlash(Display(p)) == p
  {
    if |p| == 1 {
      forall i: nat | i <= |p[0]| ensures !Text.OccursAt(p[0], "/", i) {
        if i < |p[0]| {
          assert p[0][i..i + 1] == [p[0][i]];
        }
      }
      assert !Text.Contains(p[0], "/");
    } else {
      assert '/' !in p[0] && '/' !in p[1];
      assert Display(p) == p[0] + "/" + Display(p[1..]);
      SplitSlashCons(p[0], Display(p[1..]));
      SplitDisplay(p[1..]);
    }
  }

  /** Distinct non-empty paths whose components have no `/` display differently. */
  lemma DisplayInjective(p: Path, q: Path)
    requires |p| >= 1 && forall i :: 0 <= i < |p| ==> '/' !in p[i]
    requires |q| >= 1 && forall i :: 0 <= i < |q| ==> '/' !in q[i]
    requires Display(p) == Display(q)
    ensures p == q
  {
    SplitDisplay(p);
    SplitDisplay(q);
  }
}
