/** `GenerateResource` of `bee generate resource`: finds the GOPATH entry the
    current directory lies in, derives the application name from the
    directory below it, splits the qualified resource name into package and
    resource, and writes five files rendered by `replaceTpl`: the REST
    handler, the business entity, repository and encoder, and the ORM
    model. */
module Resource {
  import opened GoStrings
  import opened GoPath
  import opened Templates
  import opened FileSystem
  import opened Render
  import RT = ResourceTemplates

  /** The package-level template variables the generator renders. */
  datatype Sources = Sources(
    rest: string, businessEntity: string, businessRepository: string,
    businessEncode: string, model: string)

  datatype Outcome =
    | Generated
    | Fatal(message: string)  // beeLogger.Log.Fatal: logged, and the process exits
    | Panic                   // a run-time panic: a slice or an index out of range

  const NotInGoPath := "Wrong generate resource command, current path is not $GOPATH"
  const WrongName := "Wrong generate resource command, it should like [bee generate resource package/resource]"

  // ---------------------------------------------------------------------
  // The GOPATH entry

  /** The index of the first GOPATH entry that occurs in `currpath`, or -1
      when there is none. */
  function FirstContained(gopaths: seq<string>, currpath: string): (r: int)
    ensures -1 <= r < |gopaths|
    ensures r >= 0 ==> Contains(currpath, gopaths[r])
    ensures forall k :: 0 <= k < (if r < 0 then |gopaths| else r) ==> !Contains(currpath, gopaths[k])
    decreases |gopaths|
  {
    if gopaths == [] then -1
    else if Contains(currpath, gopaths[0]) then 0
    else
      var r := FirstContained(gopaths[1..], currpath);
      if r < 0 then -1 else r + 1
  }

  /** The entry the generator settles on: empty when none occurs. */
  function InGoPath(gopaths: seq<string>, currpath: string): string {
    var i := FirstContained(gopaths, currpath);
    if i < 0 then "" else gopaths[i]
  }

  /** The loop over the GOPATH entries, stopping at the first one that
      occurs in the current path. */
  method FindGoPath(gopaths: seq<string>, currpath: string) returns (inGoPath: string)
    ensures inGoPath == InGoPath(gopaths, currpath)
  {
    inGoPath := "";
    var k := 0;
    while k < |gopaths|
      invariant 0 <= k <= |gopaths|
      invariant forall m :: 0 <= m < k ==> !Contains(currpath, gopaths[m])
    {
      if Contains(currpath, gopaths[k]) {
        inGoPath := gopaths[k];
        break;
      }
      k := k + 1;
    }
  }

  // ---------------------------------------------------------------------
  // The application name

  /** The second '/'-separated piece of `currpath` after the GOPATH entry
      and one more character; None where the slice or the index is out of
      range. */
  function AppNameOf(currpath: string, inGoPath: string): Option<string> {
    if |inGoPath| + 1 > |currpath| then None
    else
      var parts := Split(currpath[|inGoPath| + 1..], "/");
      if |parts| < 2 then None else Some(parts[1])
  }

  // ---------------------------------------------------------------------
  // The resource name

  /** The package and the resource named on the command line. */
  datatype Names = Names(packageName: string, resourceName: string)

  /** The qualified name with every '.' replaced by '/'. */
  function Slashed(cname: string): string {
    ReplaceAll(cname, ".", "/")
  }

  /** The package is the last directory of the path part of the slashed
      name, the resource its file part in title case; None, the fatal
      "Wrong generate resource command", when there is no path part. */
  function ParseResourceName(cname: string): (r: Option<Names>)
    ensures r.None? <==> '/' !in Slashed(cname)
    ensures r.Some? ==> '/' !in r.value.packageName && '/' !in ToLower(r.value.resourceName)
  {
    var (p, f) := SplitPath(Slashed(cname));
    if p == [] then None
    else
      var i := LastIndex(p[..|p| - 1], '/');
      ToLowerTitle(' ', f);
      Some(Names(p[i + 1..|p| - 1], Title(f)))
  }

  // ---------------------------------------------------------------------
  // The five files

  /** The area of the application file `j` goes to, counting the files
      from 0 in the order of the code. */
  function Area(j: int): string {
    if j == 0 then "rest" else if j <= 3 then "business" else "model"
  }

  function FileName(lower: string, j: int): string {
    match j
    case 2 => lower + "_repository.go"
    case 3 => "encode_" + lower + ".go"
    case _ => lower + ".go"
  }

  function Template(src: Sources, j: int): string {
    match j
    case 0 => src.rest
    case 1 => src.businessEntity
    case 2 => src.businessRepository
    case 3 => src.businessEncode
    case _ => src.model
  }

  /** The template of the source that file `j` is rendered from, line by
      line. */
  function TemplateLines(j: int): (t: Template)
    ensures WellFormed(t)
  {
    match j
    case 0 => RT.Rest()
    case 1 => RT.BusinessEntity()
    case 2 => RT.BusinessRepository()
    case 3 => RT.BusinessEncode()
    case _ => RT.Model()
  }

  /** Template variables that hold the templates of the source. */
  predicate HoldsOriginal(src: Sources) {
    forall j :: 0 <= j < 5 ==> Template(src, j) == Text(TemplateLines(j))
  }

  /** path.Join(currpath, area, package). */
  function Folder(currpath: string, pkg: string, j: int): string {
    JoinPath([currpath, Area(j), pkg])
  }

  function FilePath(currpath: string, pkg: string, lower: string, j: int): string {
    JoinPath([Folder(currpath, pkg, j), FileName(lower, j)])
  }

  /** The code makes the folder of file `j` before it: the first file of
      each area. */
  predicate OpensFolder(j: int) {
    j == 0 || j == 1 || j == 4
  }

  /** The actions for file `j`: os.MkdirAll of its folder when it opens
      one, the create echo, and the write of its contents. */
  function FileActs(currpath: string, pkg: string, lower: string, j: int, contents: string): seq<Action> {
    var p := FilePath(currpath, pkg, lower, j);
    (if OpensFolder(j) then [MkdirAll(Folder(currpath, pkg, j))] else []) + [Echo(p), Write(p, contents)]
  }

  /** The actions for the first `n` files, each rendered from its template
      with the values `v`. */
  function Emit(currpath: string, pkg: string, lower: string, src: Sources, v: Values, n: nat): seq<Action>
    requires n <= 5
  {
    if n == 0 then [] else
      Emit(currpath, pkg, lower, src, v, n - 1)
      + FileActs(currpath, pkg, lower, n - 1, Apply(Template(src, n - 1), v))
  }

  /** What one run of the generator does: its outcome and its actions. */
  datatype Generation = Generation(outcome: Outcome, acts: seq<Action>)

  /** The generator, for the GOPATH entries `gopaths`, the qualified name
      `cname` and the current directory `currpath`; `camel` is the
      camel-case conversion of the utilities package. */
  function Generate(gopaths: seq<string>, cname: string, currpath: string, camel: string -> string, src: Sources): Generation {
    var inGoPath := InGoPath(gopaths, currpath);
    if inGoPath == "" then Generation(Fatal(NotInGoPath), [])
    else match AppNameOf(currpath, inGoPath)
      case None => Generation(Panic, [])
      case Some(app) =>
        match ParseResourceName(cname)
        case None => Generation(Fatal(WrongName), [])
        case Some(names) =>
          var pkg, lower := names.packageName, ToLower(names.resourceName);
          match ValuesOf(app, pkg, lower, camel)
          case None =>
            Generation(Panic, [MkdirAll(Folder(currpath, pkg, 0)), Echo(FilePath(currpath, pkg, lower, 0))])
          case Some(v) => Generation(Generated, Emit(currpath, pkg, lower, src, v, 5))
  }

  /** Folder, echo and write of file `j`, rendered from its template. */
  method CreateResourceFile(d: Disk, currpath: string, app: string, pkg: string, lower: string,
      camel: string -> string, src: Sources, j: int)
    requires ValuesOf(app, pkg, lower, camel).Some?
    modifies d
    ensures d.log == old(d.log)
      + FileActs(currpath, pkg, lower, j, Apply(Template(src, j), ValuesOf(app, pkg, lower, camel).value))
  {
    var p := FilePath(currpath, pkg, lower, j);
    if OpensFolder(j) {
      d.MakeDirAll(Folder(currpath, pkg, j));
    }
    d.EchoCreate(p);
    var contents := ReplaceTpl(Template(src, j), app, pkg, lower, camel);
    d.WriteToFile(p, contents.value);
  }

  /** The five files of the resource, for the application name `app`,
      the package `pkg` and the lower-case resource name `lower`: the
      rendering of the first template panics after its folder is made and
      its creation echoed. */
  method WriteResource(d: Disk, currpath: string, app: string, pkg: string, lower: string,
      camel: string -> string, src: Sources) returns (r: Outcome)
    modifies d
    ensures ValuesOf(app, pkg, lower, camel).None? ==> (r == Panic
      && d.log == old(d.log) + [MkdirAll(Folder(currpath, pkg, 0)), Echo(FilePath(currpath, pkg, lower, 0))])
    ensures ValuesOf(app, pkg, lower, camel).Some? ==> (r == Generated
      && d.log == old(d.log) + Emit(currpath, pkg, lower, src, ValuesOf(app, pkg, lower, camel).value, 5))
  {
    ghost var start := d.log;
    d.MakeDirAll(Folder(currpath, pkg, 0));
    d.EchoCreate(FilePath(currpath, pkg, lower, 0));
    var rest := ReplaceTpl(src.rest, app, pkg, lower, camel);
    if rest.None? {
      return Panic;
    }
    ghost var v := ValuesOf(app, pkg, lower, camel).value;
    d.WriteToFile(FilePath(currpath, pkg, lower, 0), rest.value);
    assert d.log == start + Emit(currpath, pkg, lower, src, v, 1);
    CreateResourceFile(d, currpath, app, pkg, lower, camel, src, 1);
    EmitStep(start, currpath, pkg, lower, src, v, 1);
    CreateResourceFile(d, currpath, app, pkg, lower, camel, src, 2);
    EmitStep(start, currpath, pkg, lower, src, v, 2);
    CreateResourceFile(d, currpath, app, pkg, lower, camel, src, 3);
    EmitStep(start, currpath, pkg, lower, src, v, 3);
    CreateResourceFile(d, currpath, app, pkg, lower, camel, src, 4);
    EmitStep(start, currpath, pkg, lower, src, v, 4);
    return Generated;
  }

  lemma EmitStep(pre: seq<Action>, currpath: string, pkg: string, lower: string, src: Sources, v: Values, n: nat)
    requires n < 5
    ensures pre + Emit(currpath, pkg, lower, src, v, n + 1)
      == pre + Emit(currpath, pkg, lower, src, v, n) + FileActs(currpath, pkg, lower, n, Apply(Template(src, n), v))
  {
  }

  /** GenerateResource: the GOPATH check, the application name, the
      resource name, then the five files. */
  method GenerateResource(d: Disk, gopaths: seq<string>, cname: string, currpath: string,
      camel: string -> string, src: Sources) returns (r: Outcome)
    modifies d
    ensures r == Generate(gopaths, cname, currpath, camel, src).outcome
    ensures d.log == old(d.log) + Generate(gopaths, cname, currpath, camel, src).acts
  {
    var inGoPath := FindGoPath(gopaths, currpath);
    if inGoPath == "" {
      return Fatal(NotInGoPath);
    }
    var app := AppNameOf(currpath, inGoPath);
    if app.None? {
      return Panic;
    }
    var names := ParseResourceName(cname);
    if names.None? {
      return Fatal(WrongName);
    }
    r := WriteResource(d, currpath, app.value, names.value.packageName, ToLower(names.value.resourceName), camel, src);
  }

  // ---------------------------------------------------------------------
  // Properties of the GOPATH lookup and the application name

  /** The application name is the second piece after the GOPATH entry's
      length plus one, whatever text that slice starts from. */
  lemma AppNameAfter(currpath: string, gp: string, x: string, name: string, rest: string)
    requires |gp| + 1 <= |currpath| && currpath[|gp| + 1..] == x + "/" + name + rest
    requires '/' !in x && '/' !in name && (rest == [] || rest[0] == '/')
    ensures AppNameOf(currpath, gp) == Some(name)
  {
    var tail := currpath[|gp| + 1..];
    assert tail == x + ['/'] + (name + rest);
    SplitAtChar(x, '/', name + rest);
    var parts := Split(tail, "/");
    assert parts == [x] + Split(name + rest, "/");
    if rest == [] {
      assert name + rest == name;
      SplitWithoutChar(name, '/');
      assert parts == [x, name];
    } else {
      assert name + rest == name + ['/'] + rest[1..];
      SplitAtChar(name, '/', rest[1..]);
      assert parts[1] == name;
    }
  }

  /** In `$GOPATH/src/<app>/...` the application name is `<app>`. */
  lemma AppNameUnderGoPath(gp: string, name: string, rest: string)
    requires '/' !in name && (rest == [] || rest[0] == '/')
    ensures AppNameOf(gp + "/src/" + name + rest, gp) == Some(name)
  {
    var currpath := gp + "/src/" + name + rest;
    assert currpath[|gp| + 1..] == "src" + "/" + name + rest;
    AppNameAfter(currpath, gp, "src", name, rest);
  }

  /** Run in `$GOPATH/src` itself, or anywhere with no second piece, the
      generator indexes out of range. */
  lemma AppNameMissing(gp: string, x: string)
    requires '/' !in x
    ensures AppNameOf(gp + "/" + x, gp).None?
  {
    assert (gp + "/" + x)[|gp| + 1..] == x;
    SplitWithoutChar(x, '/');
  }

  /** The application name is only the first directory below `src`: for a
      project in `$GOPATH/src/github.com/user/app` it is "github.com". */
  lemma AppNameNested()
    ensures AppNameOf("/go/src/github.com/user/app", "/go") == Some("github.com")
  {
    AppNameUnderGoPath("/go", "github.com", "/user/app");
    assert "/go" + "/src/" + "github.com" + "/user/app" == "/go/src/github.com/user/app";
  }

  /** A GOPATH entry is chosen when it occurs anywhere in the current path,
      not only at its start, and the slice then counts from the start: in
      "/x/go/src/app" with GOPATH "/go" the application name is "src". */
  lemma AppNameInfix()
    ensures InGoPath(["/go"], "/x/go/src/app") == "/go"
    ensures AppNameOf("/x/go/src/app", "/go") == Some("src")
  {
    var cp := "/x/go/src/app";
    assert OccursAt(cp, "/go", 2) by {
      assert cp[2..5] == "/go";
    }
    assert Contains(cp, "/go");
    assert cp[4..] == "o/src/app";
    assert "o/src/app" == "o" + "/" + "src" + "/app";
    AppNameAfter(cp, "/go", "o", "src", "/app");
  }

  // ---------------------------------------------------------------------
  // Properties of the resource name

  /** Fatal exactly when the name holds neither '.' nor '/'. */
  lemma ParseFatal(cname: string)
    ensures ParseResourceName(cname).None? <==> '.' !in cname && '/' !in cname
  {
    ReplaceCharAt(cname, '.', '/');
    var s := Slashed(cname);
    if '/' in s {
      var i :| 0 <= i < |s| && s[i] == '/';
      assert cname[i] == '.' || cname[i] == '/';
    }
    if '.' in cname {
      var i :| 0 <= i < |cname| && cname[i] == '.';
      assert s[i] == '/';
    }
    if '/' in cname {
      var i :| 0 <= i < |cname| && cname[i] == '/';
      assert s[i] == '/';
    }
  }

  /** The package is the last directory of the slashed name and the
      resource its last element, in title case. */
  lemma ParsePackageResource(cname: string, pre: string, pkg: string, f: string)
    requires Slashed(cname) == pre + pkg + "/" + f
    requires '/' !in pkg && '/' !in f && (pre == [] || pre[|pre| - 1] == '/')
    ensures ParseResourceName(cname) == Some(Names(pkg, Title(f)))
  {
    var s := Slashed(cname);
    SplitPathAt(pre + pkg, f);
    var p := pre + pkg + "/";
    assert p[..|p| - 1] == pre + pkg;
    var i := LastIndex(pre + pkg, '/');
    if pre == [] {
      assert pre + pkg == pkg;
    } else {
      assert (pre + pkg)[|pre| - 1] == '/';
    }
    assert p[i + 1..|p| - 1] == pkg;
  }

  /** `package.resource` and `package/resource` name the same resource. */
  lemma ParseDotted(pkg: string, sep: char, res: string)
    requires sep == '.' || sep == '/'
    requires '.' !in pkg && '/' !in pkg && '.' !in res && '/' !in res
    ensures ParseResourceName(pkg + [sep] + res) == Some(Names(pkg, Title(res)))
  {
    var cname := pkg + [sep] + res;
    ReplaceCharAt(cname, '.', '/');
    var s := Slashed(cname);
    assert s == pkg + "/" + res by {
      forall i | 0 <= i < |s| ensures s[i] == (pkg + "/" + res)[i] {
        if i < |pkg| {
          assert cname[i] == pkg[i];
        } else if i > |pkg| {
          assert cname[i] == res[i - |pkg| - 1];
        }
      }
    }
    ParsePackageResource(cname, [], pkg, res);
  }

  /** The file names use the resource name lower-cased: title case does
      not change them. */
  lemma LowerResourceName(pkg: string, sep: char, res: string)
    requires sep == '.' || sep == '/'
    requires '.' !in pkg && '/' !in pkg && '.' !in res && '/' !in res
    ensures ParseResourceName(pkg + [sep] + res).Some?
    ensures ToLower(ParseResourceName(pkg + [sep] + res).value.resourceName) == ToLower(res)
  {
    ParseDotted(pkg, sep, res);
    ToLowerTitle(' ', res);
  }

  // ---------------------------------------------------------------------
  // Properties of the five files

  /** The path elements of file `j` below the current directory. */
  function Segments(pkg: string, lower: string, j: int): seq<string> {
    [Area(j), pkg, FileName(lower, j)]
  }

  lemma FilePathUnder(currpath: string, pkg: string, lower: string, j: int)
    requires pkg != [] && lower != []
    ensures FilePath(currpath, pkg, lower, j) == Join2(currpath, JoinPath(Segments(pkg, lower, j)))
  {
    var segs := Segments(pkg, lower, j);
    var elems := [currpath] + segs;
    var folder, name := Folder(currpath, pkg, j), FileName(lower, j);
    assert elems[..3] == [currpath, Area(j), pkg];
    assert JoinPath(elems) == Join2(folder, name);
    assert [folder, name][..1] == [folder] && [folder][..0] == [];
    assert JoinPath([folder]) == folder;
    assert FilePath(currpath, pkg, lower, j) == Join2(folder, name);
    JoinPathUnder(currpath, segs);
  }

  /** The five files have five different paths. */
  lemma FilePathsDistinct(currpath: string, pkg: string, lower: string, j: int, k: int)
    requires pkg != [] && '/' !in pkg && lower != [] && '/' !in lower
    requires 0 <= j < 5 && 0 <= k < 5 && j != k
    ensures FilePath(currpath, pkg, lower, j) != FilePath(currpath, pkg, lower, k)
  {
    var s, t := Segments(pkg, lower, j), Segments(pkg, lower, k);
    assert Elements(s) && Elements(t);
    assert s[0] != t[0] || |s[2]| != |t[2]|;
    JoinPathInjective(s, t);
    FilePathUnder(currpath, pkg, lower, j);
    FilePathUnder(currpath, pkg, lower, k);
    Join2Injective(currpath, JoinPath(s), JoinPath(t));
  }

  /** The paths of the first `n` files, in order. */
  function FilePaths(currpath: string, pkg: string, lower: string, n: nat): (r: seq<string>)
    ensures |r| == n
    ensures forall j :: 0 <= j < n ==> r[j] == FilePath(currpath, pkg, lower, j)
  {
    if n == 0 then [] else FilePaths(currpath, pkg, lower, n - 1) + [FilePath(currpath, pkg, lower, n - 1)]
  }

  /** What the actions of one file do to the world. */
  lemma RunFileActs(w: World, currpath: string, pkg: string, lower: string, j: int, c: string)
    ensures Run(w, FileActs(currpath, pkg, lower, j, c)) == w.(
      dirs := w.dirs + (if OpensFolder(j) then Ancestry(Folder(currpath, pkg, j)) else {}),
      echoed := w.echoed + [FilePath(currpath, pkg, lower, j)],
      files := w.files[FilePath(currpath, pkg, lower, j) := c])
  {
    var p := FilePath(currpath, pkg, lower, j);
    var acts := FileActs(currpath, pkg, lower, j, c);
    var tail := [Echo(p), Write(p, c)];
    var w0 := w.(dirs := w.dirs + (if OpensFolder(j) then Ancestry(Folder(currpath, pkg, j)) else {}));
    if OpensFolder(j) {
      var m := MkdirAll(Folder(currpath, pkg, j));
      assert acts == [m] + tail;
      assert [m][..0] == [];
      assert Run(w, [m]) == w0;
      RunAppend(w, [m], tail);
    } else {
      assert acts == tail;
      assert w0 == w;
    }
    assert tail[..1] == [Echo(p)] && tail[..1][..0] == [];
    assert Run(w0, tail[..1]) == w0.(echoed := w0.echoed + [p]);
  }

  /** After the first `n` files, file `j < n` holds its rendering. */
  lemma {:induction false} EmitContents(w: World, currpath: string, pkg: string, lower: string, src: Sources, v: Values, n: nat, j: nat)
    requires pkg != [] && '/' !in pkg && lower != [] && '/' !in lower
    requires j < n <= 5
    ensures FilePath(currpath, pkg, lower, j) in Run(w, Emit(currpath, pkg, lower, src, v, n)).files
    ensures Run(w, Emit(currpath, pkg, lower, src, v, n)).files[FilePath(currpath, pkg, lower, j)]
      == Apply(Template(src, j), v)
  {
    var prev := Emit(currpath, pkg, lower, src, v, n - 1);
    var c := Apply(Template(src, n - 1), v);
    RunAppend(w, prev, FileActs(currpath, pkg, lower, n - 1, c));
    RunFileActs(Run(w, prev), currpath, pkg, lower, n - 1, c);
    if j < n - 1 {
      EmitContents(w, currpath, pkg, lower, src, v, n - 1, j);
      FilePathsDistinct(currpath, pkg, lower, j, n - 1);
    }
  }

  /** A path that is none of the first `n` files keeps what it held. */
  lemma {:induction false} EmitUntouched(w: World, currpath: string, pkg: string, lower: string, src: Sources, v: Values, n: nat, p: string)
    requires n <= 5
    requires forall j :: 0 <= j < n ==> FilePath(currpath, pkg, lower, j) != p
    ensures p in Run(w, Emit(currpath, pkg, lower, src, v, n)).files <==> p in w.files
    ensures p in w.files ==> Run(w, Emit(currpath, pkg, lower, src, v, n)).files[p] == w.files[p]
  {
    if n > 0 {
      var prev := Emit(currpath, pkg, lower, src, v, n - 1);
      var c := Apply(Template(src, n - 1), v);
      RunAppend(w, prev, FileActs(currpath, pkg, lower, n - 1, c));
      RunFileActs(Run(w, prev), currpath, pkg, lower, n - 1, c);
      EmitUntouched(w, currpath, pkg, lower, src, v, n - 1, p);
    }
  }

  /** After the first `n` files, the folder of each of them exists and
      the directories that existed still do. */
  lemma {:induction false} EmitFolders(w: World, currpath: string, pkg: string, lower: string, src: Sources, v: Values, n: nat)
    requires n <= 5
    ensures w.dirs <= Run(w, Emit(currpath, pkg, lower, src, v, n)).dirs
    ensures forall j :: 0 <= j < n ==> Folder(currpath, pkg, j) in Run(w, Emit(currpath, pkg, lower, src, v, n)).dirs
  {
    if n > 0 {
      var prev := Emit(currpath, pkg, lower, src, v, n - 1);
      var c := Apply(Template(src, n - 1), v);
      RunAppend(w, prev, FileActs(currpath, pkg, lower, n - 1, c));
      RunFileActs(Run(w, prev), currpath, pkg, lower, n - 1, c);
      EmitFolders(w, currpath, pkg, lower, src, v, n - 1);
      if !OpensFolder(n - 1) {
        assert Folder(currpath, pkg, n - 1) == Folder(currpath, pkg, n - 2);
      }
    }
  }

  /** The creations echoed for the first `n` files are their paths, in
      order. */
  lemma {:induction false} EmitEchoes(w: World, currpath: string, pkg: string, lower: string, src: Sources, v: Values, n: nat)
    requires n <= 5
    ensures Run(w, Emit(currpath, pkg, lower, src, v, n)).echoed
      == w.echoed + FilePaths(currpath, pkg, lower, n)
  {
    if n > 0 {
      var prev := Emit(currpath, pkg, lower, src, v, n - 1);
      var c := Apply(Template(src, n - 1), v);
      RunAppend(w, prev, FileActs(currpath, pkg, lower, n - 1, c));
      RunFileActs(Run(w, prev), currpath, pkg, lower, n - 1, c);
      EmitEchoes(w, currpath, pkg, lower, src, v, n - 1);
    }
  }

  // ---------------------------------------------------------------------
  // Properties of the generator

  /** Making the first folder and echoing the first file write nothing. */
  lemma StartOnly(w: World, currpath: string, pkg: string, lower: string)
    ensures Run(w, [MkdirAll(Folder(currpath, pkg, 0)), Echo(FilePath(currpath, pkg, lower, 0))]).files == w.files
  {
    var acts := [MkdirAll(Folder(currpath, pkg, 0)), Echo(FilePath(currpath, pkg, lower, 0))];
    assert acts[..1] == [acts[0]] && acts[..1][..0] == [];
    assert Run(w, acts[..1]).files == w.files;
    assert Run(w, acts) == Step(Run(w, acts[..1]), acts[1]);
  }

  /** When the generator does not complete, it has written no file: at
      most the folder of the REST handler is made and its creation
      echoed, and a fatal error comes before any action. */
  lemma GenerateFailure(w: World, gopaths: seq<string>, cname: string, currpath: string, camel: string -> string, src: Sources)
    requires Generate(gopaths, cname, currpath, camel, src).outcome != Generated
    ensures Run(w, Generate(gopaths, cname, currpath, camel, src).acts).files == w.files
    ensures |Generate(gopaths, cname, currpath, camel, src).acts| <= 2
    ensures Generate(gopaths, cname, currpath, camel, src).outcome.Fatal? ==> Generate(gopaths, cname, currpath, camel, src).acts == []
  {
    var inGoPath := InGoPath(gopaths, currpath);
    if inGoPath != "" && AppNameOf(currpath, inGoPath).Some? && ParseResourceName(cname).Some? {
      var names := ParseResourceName(cname).value;
      var pkg, lower := names.packageName, ToLower(names.resourceName);
      if ValuesOf(AppNameOf(currpath, inGoPath).value, pkg, lower, camel).None? {
        StartOnly(w, currpath, pkg, lower);
      }
    }
  }

  /** A name that parses to an empty package or resource gets past the
      checks and panics in `replaceTpl` on the first file, after its folder
      is made and its creation echoed. */
  lemma GenerateEmptyName(gopaths: seq<string>, cname: string, currpath: string, camel: string -> string, src: Sources)
    requires InGoPath(gopaths, currpath) != "" && AppNameOf(currpath, InGoPath(gopaths, currpath)).Some?
    requires ParseResourceName(cname).Some?
    requires ParseResourceName(cname).value.packageName == [] || ParseResourceName(cname).value.resourceName == []
    ensures Generate(gopaths, cname, currpath, camel, src).outcome == Panic
    ensures Generate(gopaths, cname, currpath, camel, src).acts == [
      MkdirAll(Folder(currpath, ParseResourceName(cname).value.packageName, 0)),
      Echo(FilePath(currpath, ParseResourceName(cname).value.packageName,
        ToLower(ParseResourceName(cname).value.resourceName), 0))]
  {
  }

  /** Path `p` holds the same file, or none, in both maps. */
  predicate Keeps(before: map<string, string>, after: map<string, string>, p: string) {
    (p in after <==> p in before) && (p in before ==> after[p] == before[p])
  }

  /** A completed run writes the five files, each rendered by `replaceTpl`
      from its template with the same application, package and resource
      names; makes their folders; echoes their paths in order; and changes
      no other file. */
  lemma GenerateFiles(w: World, gopaths: seq<string>, cname: string, currpath: string, camel: string -> string, src: Sources,
      app: string, names: Names)
    requires InGoPath(gopaths, currpath) != "" && AppNameOf(currpath, InGoPath(gopaths, currpath)) == Some(app)
    requires ParseResourceName(cname) == Some(names)
    requires ValuesOf(app, names.packageName, ToLower(names.resourceName), camel).Some?
    ensures Generate(gopaths, cname, currpath, camel, src).outcome == Generated
    ensures forall j :: 0 <= j < 5 ==>
      var p := FilePath(currpath, names.packageName, ToLower(names.resourceName), j);
      var after := Run(w, Generate(gopaths, cname, currpath, camel, src).acts);
      && p in after.files
      && after.files[p] == ReplaceTpl(Template(src, j), app, names.packageName, ToLower(names.resourceName), camel).value
      && Folder(currpath, names.packageName, j) in after.dirs
    ensures Run(w, Generate(gopaths, cname, currpath, camel, src).acts).echoed
      == w.echoed + FilePaths(currpath, names.packageName, ToLower(names.resourceName), 5)
    ensures forall p :: ((forall j :: 0 <= j < 5 ==> FilePath(currpath, names.packageName, ToLower(names.resourceName), j) != p)
      ==> Keeps(w.files, Run(w, Generate(gopaths, cname, currpath, camel, src).acts).files, p))
  {
    var pkg, lower := names.packageName, ToLower(names.resourceName);
    var v := ValuesOf(app, pkg, lower, camel).value;
    assert Generate(gopaths, cname, currpath, camel, src).acts == Emit(currpath, pkg, lower, src, v, 5);
    forall j | 0 <= j < 5
      ensures FilePath(currpath, pkg, lower, j) in Run(w, Emit(currpath, pkg, lower, src, v, 5)).files
      ensures Run(w, Emit(currpath, pkg, lower, src, v, 5)).files[FilePath(currpath, pkg, lower, j)]
        == ReplaceTpl(Template(src, j), app, pkg, lower, camel).value
    {
      EmitContents(w, currpath, pkg, lower, src, v, 5, j);
    }
    EmitFolders(w, currpath, pkg, lower, src, v, 5);
    EmitEchoes(w, currpath, pkg, lower, src, v, 5);
    forall p | (forall j :: 0 <= j < 5 ==> FilePath(currpath, pkg, lower, j) != p)
      ensures Keeps(w.files, Run(w, Emit(currpath, pkg, lower, src, v, 5)).files, p)
    {
      EmitUntouched(w, currpath, pkg, lower, src, v, 5, p);
    }
  }

  /** File `j` of the world `after` holds template `t` with its
      placeholders filled with the values `v`. */
  predicate FileFilled(after: World, currpath: string, names: Names, j: int, t: Template, v: Values) {
    var p := FilePath(currpath, names.packageName, ToLower(names.resourceName), j);
    p in after.files && after.files[p] == Text(Subst(t, Env(v)))
  }

  /** A run that gets to write the five files, with names that hold no
      opening brace. */
  predicate BraceFreeRun(gopaths: seq<string>, cname: string, currpath: string, camel: string -> string,
      app: string, names: Names)
  {
    && InGoPath(gopaths, currpath) != "" && AppNameOf(currpath, InGoPath(gopaths, currpath)) == Some(app)
    && ParseResourceName(cname) == Some(names)
    && ValuesOf(app, names.packageName, ToLower(names.resourceName), camel).Some?
    && '{' !in app && '{' !in names.packageName && '{' !in ToLower(names.resourceName)
    && '{' !in camel(names.packageName) && '{' !in camel(ToLower(names.resourceName))
  }

  /** When file `j` is rendered from a template variable that holds the
      text of a well-formed template `t`, and the names hold no opening
      brace, the file is `t` with every placeholder filled with its value,
      and all other text as `t` has it. */
  lemma GenerateFilled(w: World, gopaths: seq<string>, cname: string, currpath: string, camel: string -> string,
      src: Sources, app: string, names: Names, j: int, t: Template)
    requires 0 <= j < 5 && WellFormed(t) && Template(src, j) == Text(t)
    requires BraceFreeRun(gopaths, cname, currpath, camel, app, names)
    ensures FileFilled(Run(w, Generate(gopaths, cname, currpath, camel, src).acts), currpath, names, j, t,
      ValuesOf(app, names.packageName, ToLower(names.resourceName), camel).value)
  {
    GenerateFiles(w, gopaths, cname, currpath, camel, src, app, names);
    ReplaceTplFills(t, app, names.packageName, ToLower(names.resourceName), camel);
  }

  /** The generator with the templates of the source: each of the five
      files is its template with every placeholder filled. */
  lemma GenerateOriginal(w: World, gopaths: seq<string>, cname: string, currpath: string, camel: string -> string,
      src: Sources, app: string, names: Names)
    requires HoldsOriginal(src)
    requires BraceFreeRun(gopaths, cname, currpath, camel, app, names)
    ensures forall j :: 0 <= j < 5 ==>
      FileFilled(Run(w, Generate(gopaths, cname, currpath, camel, src).acts), currpath, names, j, TemplateLines(j),
        ValuesOf(app, names.packageName, ToLower(names.resourceName), camel).value)
  {
    forall j | 0 <= j < 5
      ensures FileFilled(Run(w, Generate(gopaths, cname, currpath, camel, src).acts), currpath, names, j, TemplateLines(j),
        ValuesOf(app, names.packageName, ToLower(names.resourceName), camel).value)
    {
      GenerateFilled(w, gopaths, cname, currpath, camel, src, app, names, j, TemplateLines(j));
    }
  }

  /** The filled REST handler declares the resource type on its ninth
      line. */
  lemma RestDeclaresType(v: Values)
    ensures |Subst(RT.Rest(), Env(v))| == 35
    ensures LineText(Subst(RT.Rest(), Env(v))[8]) == "type " + v.ResourceName + " struct {"
  {
    var l := RT.Rest()[8];
    assert l == RT.RestPart2()[0];
    var m := SubstLine(l, Env(v));
    assert m == [Lit("type "), Lit(v.ResourceName), Lit(" struct "), Open];
    LineTextCons(m[0], m[1..]);
    LineTextCons(m[1], m[2..]);
    LineTextCons(m[2], m[3..]);
    LineTextCons(m[3], m[4..]);
  }
}
