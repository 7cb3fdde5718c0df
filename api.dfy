/** `createAPI` of the `bee api` command: derives the application name,
    defaults the database driver, and creates the skeleton of an API
    application, one directory or file at a time, echoing each creation. */
module Api {
  import opened GoStrings
  import opened GoPath
  import opened Templates
  import opened FileSystem
  import opened Plans
  import T = ApiTemplates

  /** The package-level template variables `createAPI` writes from. */
  datatype Sources = Sources(
    conf: string, main: string, gitIgnore: string,
    rest: string, restLogin: string, restInit: string,
    business: string, businessRepository: string, businessEncode: string,
    businessAuth: string, businessInit: string,
    model: string, modelInit: string)

  /** path.Join(appPath, segs...). */
  function Under(appPath: string, segs: seq<string>): string {
    JoinPath([appPath] + segs)
  }

  /** A template with every `{{.Appname}}` replaced by the application
      name. */
  function Fill(t: string, appName: string): string {
    assert |Token("Appname")| > 0;
    ReplaceAll(t, Token("Appname"), appName)
  }

  /** The elements, under the application directory, of the path of create
      event `j` of `createAPI`, counting from 0 in the order of the code. */
  function ApiLayout(j: int): seq<string> {
    match j
    case 0 => []
    case 1 => ["conf"]
    case 2 => ["rest"]
    case 3 => ["model"]
    case 4 => ["business"]
    case 5 => ["conf", "app.conf"]
    case 6 => ["rest", "account"]
    case 7 => ["rest", "account", "user.go"]
    case 8 => ["rest", "account", "login_user.go"]
    case 9 => ["rest", "init.go"]
    case 10 => ["business", "account"]
    case 11 => ["business", "account", "user.go"]
    case 12 => ["business", "account", "user_repository.go"]
    case 13 => ["business", "account", "encode_user.go"]
    case 14 => ["business", "account", "auth_user_service.go"]
    case 15 => ["business", "init.go"]
    case 16 => ["model", "account"]
    case 17 => ["model", "account", "user.go"]
    case 18 => ["model", "init.go"]
    case 19 => ["main.go"]
    case _ => [".gitignore"]
  }

  /** Create event `j` makes a directory rather than a file. */
  predicate ApiIsDir(j: int) {
    j == 0 || j == 1 || j == 2 || j == 3 || j == 4 || j == 6 || j == 10 || j == 16
  }

  /** The template variable the file of create event `j` is written from. */
  function ApiSource(src: Sources, j: int): string {
    match j
    case 5 => src.conf
    case 7 => src.rest
    case 8 => src.restLogin
    case 9 => src.restInit
    case 11 => src.business
    case 12 => src.businessRepository
    case 13 => src.businessEncode
    case 14 => src.businessAuth
    case 15 => src.businessInit
    case 17 => src.model
    case 18 => src.modelInit
    case 19 => src.main
    case _ => src.gitIgnore
  }

  /** Create event `j`: the application directory is made with its
      parents, every other directory alone; every file is its template with
      `{{.Appname}}` replaced by the application name, except the example
      model (event 17), which is written as it is. */
  function ApiEntry(a: string, n: string, src: Sources, j: int): Entry {
    var p := Under(a, ApiLayout(j));
    if ApiIsDir(j) then Dir(p, j == 0)
    else if j == 17 then File(p, ApiSource(src, j))
    else File(p, Fill(ApiSource(src, j), n))
  }

  /** The 21 create events of `createAPI` for application directory `a` and
      application name `n`. */
  function ApiPlan(a: string, n: string, src: Sources): (r: seq<Entry>)
    ensures |r| == 21
  {
    seq(21, j => ApiEntry(a, n, src, j))
  }

  /** The result of utils.CheckEnv: the application path, or an error. */
  datatype EnvCheck = Resolved(appPath: string) | EnvError(message: string)

  datatype Outcome = Created | Fatal(message: string)

  const MissingArgument := "Argument [appname] is missing"

  /** The generator's package-level settings that `createAPI` changes. */
  class Settings {
    var sqlDriver: string

    constructor (driver: string)
      ensures sqlDriver == driver
    {
      sqlDriver := driver;
    }
  }

  /** The driver after `createAPI`: "mysql" when none was set. */
  function DefaultDriver(driver: string): (r: string)
    ensures r != []
    ensures driver == [] ==> r == "mysql"
    ensures driver != [] ==> r == driver
  {
    if driver == "" then "mysql" else driver
  }

  /** os.Mkdir or os.MkdirAll followed by the create echo. */
  method CreateDir(d: Disk, p: string, parents: bool)
    modifies d
    ensures d.log == old(d.log) + Acts(Dir(p, parents))
  {
    if parents {
      d.MakeDirAll(p);
    } else {
      d.MakeDir(p);
    }
    d.EchoCreate(p);
  }

  /** The create echo followed by utils.WriteToFile. */
  method CreateFile(d: Disk, p: string, c: string)
    modifies d
    ensures d.log == old(d.log) + Acts(File(p, c))
  {
    d.EchoCreate(p);
    d.WriteToFile(p, c);
  }

  /** The application directory and its four top-level directories. */
  method CreateRoot(d: Disk, a: string, n: string, src: Sources)
    modifies d
    ensures d.log == old(d.log) + Expand(ApiPlan(a, n, src)[0..5])
  {
    ghost var part, start := ApiPlan(a, n, src)[0..5], d.log;
    UnderRoot(a);
    assert part == [
      Dir(a, true),
      Dir(Under(a, ["conf"]), false),
      Dir(Under(a, ["rest"]), false),
      Dir(Under(a, ["model"]), false),
      Dir(Under(a, ["business"]), false)];
    assert start == start + Expand(part[..0]);
    CreateDir(d, a, true);
    ExpandStep(start, part, 0);
    CreateDir(d, Under(a, ["conf"]), false);
    ExpandStep(start, part, 1);
    CreateDir(d, Under(a, ["rest"]), false);
    ExpandStep(start, part, 2);
    CreateDir(d, Under(a, ["model"]), false);
    ExpandStep(start, part, 3);
    CreateDir(d, Under(a, ["business"]), false);
    ExpandStep(start, part, 4);
    assert part[..5] == part;
  }

  /** conf/app.conf. */
  method CreateConf(d: Disk, a: string, n: string, src: Sources)
    modifies d
    ensures d.log == old(d.log) + Expand(ApiPlan(a, n, src)[5..6])
  {
    ghost var part, start := ApiPlan(a, n, src)[5..6], d.log;
    assert |part| == 1 && part[0] == ApiEntry(a, n, src, 5);
    assert part == [
      File(Under(a, ["conf", "app.conf"]), Fill(src.conf, n))];
    assert start == start + Expand(part[..0]);
    CreateFile(d, Under(a, ["conf", "app.conf"]), Fill(src.conf, n));
    ExpandStep(start, part, 0);
    assert part[..1] == part;
  }

  /** The example REST resources. */
  method CreateRest(d: Disk, a: string, n: string, src: Sources)
    modifies d
    ensures d.log == old(d.log) + Expand(ApiPlan(a, n, src)[6..10])
  {
    ghost var part, start := ApiPlan(a, n, src)[6..10], d.log;
    assert part == [
      Dir(Under(a, ["rest", "account"]), false),
      File(Under(a, ["rest", "account", "user.go"]), Fill(src.rest, n)),
      File(Under(a, ["rest", "account", "login_user.go"]), Fill(src.restLogin, n)),
      File(Under(a, ["rest", "init.go"]), Fill(src.restInit, n))];
    assert start == start + Expand(part[..0]);
    CreateDir(d, Under(a, ["rest", "account"]), false);
    ExpandStep(start, part, 0);
    CreateFile(d, Under(a, ["rest", "account", "user.go"]), Fill(src.rest, n));
    ExpandStep(start, part, 1);
    CreateFile(d, Under(a, ["rest", "account", "login_user.go"]), Fill(src.restLogin, n));
    ExpandStep(start, part, 2);
    CreateFile(d, Under(a, ["rest", "init.go"]), Fill(src.restInit, n));
    ExpandStep(start, part, 3);
    assert part[..4] == part;
  }

  /** The example business layer. */
  method CreateBusiness(d: Disk, a: string, n: string, src: Sources)
    modifies d
    ensures d.log == old(d.log) + Expand(ApiPlan(a, n, src)[10..16])
  {
    CreateBusinessAccount(d, a, n, src);
    CreateBusinessServices(d, a, n, src);
    ExpandSplit(old(d.log), ApiPlan(a, n, src), 10, 13, 16);
  }

  /** The business account package, its entity and its repository. */
  method CreateBusinessAccount(d: Disk, a: string, n: string, src: Sources)
    modifies d
    ensures d.log == old(d.log) + Expand(ApiPlan(a, n, src)[10..13])
  {
    ghost var part, start := ApiPlan(a, n, src)[10..13], d.log;
    assert part == [
      Dir(Under(a, ["business", "account"]), false),
      File(Under(a, ["business", "account", "user.go"]), Fill(src.business, n)),
      File(Under(a, ["business", "account", "user_repository.go"]), Fill(src.businessRepository, n))];
    assert start == start + Expand(part[..0]);
    CreateDir(d, Under(a, ["business", "account"]), false);
    ExpandStep(start, part, 0);
    CreateFile(d, Under(a, ["business", "account", "user.go"]), Fill(src.business, n));
    ExpandStep(start, part, 1);
    CreateFile(d, Under(a, ["business", "account", "user_repository.go"]), Fill(src.businessRepository, n));
    ExpandStep(start, part, 2);
    assert part[..3] == part;
  }

  /** The encoder, the authentication service and the package file of the
      business layer. */
  method CreateBusinessServices(d: Disk, a: string, n: string, src: Sources)
    modifies d
    ensures d.log == old(d.log) + Expand(ApiPlan(a, n, src)[13..16])
  {
    ghost var part, start := ApiPlan(a, n, src)[13..16], d.log;
    assert part == [
      File(Under(a, ["business", "account", "encode_user.go"]), Fill(src.businessEncode, n)),
      File(Under(a, ["business", "account", "auth_user_service.go"]), Fill(src.businessAuth, n)),
      File(Under(a, ["business", "init.go"]), Fill(src.businessInit, n))];
    assert start == start + Expand(part[..0]);
    CreateFile(d, Under(a, ["business", "account", "encode_user.go"]), Fill(src.businessEncode, n));
    ExpandStep(start, part, 0);
    CreateFile(d, Under(a, ["business", "account", "auth_user_service.go"]), Fill(src.businessAuth, n));
    ExpandStep(start, part, 1);
    CreateFile(d, Under(a, ["business", "init.go"]), Fill(src.businessInit, n));
    ExpandStep(start, part, 2);
    assert part[..3] == part;
  }

  /** The example model, written without substitution, and its package file. */
  method CreateModel(d: Disk, a: string, n: string, src: Sources)
    modifies d
    ensures d.log == old(d.log) + Expand(ApiPlan(a, n, src)[16..19])
  {
    ghost var part, start := ApiPlan(a, n, src)[16..19], d.log;
    assert part == [
      Dir(Under(a, ["model", "account"]), false),
      File(Under(a, ["model", "account", "user.go"]), src.model),
      File(Under(a, ["model", "init.go"]), Fill(src.modelInit, n))];
    assert start == start + Expand(part[..0]);
    CreateDir(d, Under(a, ["model", "account"]), false);
    ExpandStep(start, part, 0);
    CreateFile(d, Under(a, ["model", "account", "user.go"]), src.model);
    ExpandStep(start, part, 1);
    CreateFile(d, Under(a, ["model", "init.go"]), Fill(src.modelInit, n));
    ExpandStep(start, part, 2);
    assert part[..3] == part;
  }

  /** main.go and .gitignore. */
  method CreateTop(d: Disk, a: string, n: string, src: Sources)
    modifies d
    ensures d.log == old(d.log) + Expand(ApiPlan(a, n, src)[19..21])
  {
    ghost var part, start := ApiPlan(a, n, src)[19..21], d.log;
    assert part == [
      File(Under(a, ["main.go"]), Fill(src.main, n)),
      File(Under(a, [".gitignore"]), Fill(src.gitIgnore, n))];
    assert start == start + Expand(part[..0]);
    CreateFile(d, Under(a, ["main.go"]), Fill(src.main, n));
    ExpandStep(start, part, 0);
    CreateFile(d, Under(a, [".gitignore"]), Fill(src.gitIgnore, n));
    ExpandStep(start, part, 1);
    assert part[..2] == part;
  }

  /** The 21 create events of `createAPI`, in order. */
  method CreateSkeleton(d: Disk, a: string, n: string, src: Sources)
    modifies d
    ensures d.log == old(d.log) + Expand(ApiPlan(a, n, src))
  {
    CreateRoot(d, a, n, src);
    CreateConf(d, a, n, src);
    CreateRest(d, a, n, src);
    CreateBusiness(d, a, n, src);
    CreateModel(d, a, n, src);
    CreateTop(d, a, n, src);
    ExpandSections(old(d.log), ApiPlan(a, n, src));
  }

  /** createAPI: with no argument, or when the environment check fails, it
      stops before changing anything; otherwise it defaults the driver and
      performs the 21 create events of `ApiPlan` in order. */
  method CreateApi(d: Disk, settings: Settings, src: Sources, args: seq<string>, check: EnvCheck) returns (r: Outcome)
    modifies d, settings
    ensures args == [] ==> r == Fatal(MissingArgument)
    ensures args != [] && check.EnvError? ==> r == Fatal(check.message)
    ensures r.Fatal? ==> (d.log == old(d.log)
      && settings.sqlDriver == old(settings.sqlDriver))
    ensures args != [] && check.Resolved? ==> (r == Created
      && d.log == old(d.log) + Expand(ApiPlan(check.appPath, Base(args[0]), src))
      && d.State() == Run(old(d.State()), Expand(ApiPlan(check.appPath, Base(args[0]), src)))
      && settings.sqlDriver == DefaultDriver(old(settings.sqlDriver)))
  {
    if |args| < 1 {
      return Fatal(MissingArgument);
    }
    var appName := Base(args[0]);
    if check.EnvError? {
      return Fatal(check.message);
    }
    var appPath := check.appPath;
    if settings.sqlDriver == "" {
      settings.sqlDriver := "mysql";
    }
    ghost var before := d.log;
    CreateSkeleton(d, appPath, appName, src);
    RunAppend(d.initial, before, Expand(ApiPlan(appPath, appName, src)));
    return Created;
  }

  // ---------------------------------------------------------------------
  // Properties of the plan

  /** Two consecutive stretches of a plan, carried out one after the
      other. */
  lemma ExpandSplit(pre: seq<Action>, plan: seq<Entry>, i: nat, j: nat, k: nat)
    requires i <= j <= k <= |plan|
    ensures pre + Expand(plan[i..j]) + Expand(plan[j..k]) == pre + Expand(plan[i..k])
  {
    assert plan[i..k] == plan[i..j] + plan[j..k];
    ExpandAfter(pre, plan[i..j], plan[j..k]);
  }

  /** The actions of the plan, section by section as `createAPI` performs
      them. */
  lemma ExpandSections(pre: seq<Action>, plan: seq<Entry>)
    requires |plan| == 21
    ensures pre + Expand(plan[0..5]) + Expand(plan[5..6]) + Expand(plan[6..10])
      + Expand(plan[10..16]) + Expand(plan[16..19]) + Expand(plan[19..21]) == pre + Expand(plan)
  {
    calc {
      pre + Expand(plan[0..5]) + Expand(plan[5..6]) + Expand(plan[6..10])
        + Expand(plan[10..16]) + Expand(plan[16..19]) + Expand(plan[19..21]);
    == { ExpandSplit(pre, plan, 0, 5, 6); }
      pre + Expand(plan[0..6]) + Expand(plan[6..10])
        + Expand(plan[10..16]) + Expand(plan[16..19]) + Expand(plan[19..21]);
    == { ExpandSplit(pre, plan, 0, 6, 10); }
      pre + Expand(plan[0..10]) + Expand(plan[10..16]) + Expand(plan[16..19]) + Expand(plan[19..21]);
    == { ExpandSplit(pre, plan, 0, 10, 16); }
      pre + Expand(plan[0..16]) + Expand(plan[16..19]) + Expand(plan[19..21]);
    == { ExpandSplit(pre, plan, 0, 16, 19); }
      pre + Expand(plan[0..19]) + Expand(plan[19..21]);
    == { ExpandSplit(pre, plan, 0, 19, 21); assert plan[0..21] == plan; }
      pre + Expand(plan);
    }
  }

  /** The application directory is the first element of every path. */
  lemma UnderRoot(a: string)
    ensures Under(a, []) == a
  {
    assert [a] + [] == [a];
    assert [a][..0] == [];
    assert JoinPath([a]) == Join2(JoinPath([]), a);
  }

  /** An element added to a path lies directly inside the directory the
      path names. */
  lemma UnderChild(a: string, segs: seq<string>, leaf: string, full: seq<string>)
    requires leaf != [] && '/' !in leaf && full == segs + [leaf]
    ensures InDir(Under(a, full), Under(a, segs))
  {
    assert ([a] + full)[..|segs| + 1] == [a] + segs;
    InDirJoin(Under(a, segs), leaf);
  }

  /** Different element lists under the same directory give different
      paths. */
  lemma UnderInjective(a: string, s: seq<string>, t: seq<string>)
    requires Elements(s) && Elements(t) && s != t
    ensures Under(a, s) != Under(a, t)
  {
    JoinPathUnder(a, s);
    JoinPathUnder(a, t);
    JoinPathInjective(s, t);
    if s != [] && t != [] {
      Join2Injective(a, JoinPath(s), JoinPath(t));
    }
  }

  /** The plan makes 8 directories and writes 13 files: the application
      directory first, with its parents, and every other directory alone. */
  lemma ApiPlanShape(a: string, n: string, src: Sources)
    ensures |ApiPlan(a, n, src)| == 21
    ensures forall j :: 0 <= j < 21 ==>
      (ApiPlan(a, n, src)[j].Dir? <==> j in {0, 1, 2, 3, 4, 6, 10, 16})
    ensures ApiPlan(a, n, src)[0] == Dir(a, true)
    ensures forall j :: 0 < j < 21 && ApiPlan(a, n, src)[j].Dir? ==> !ApiPlan(a, n, src)[j].parents
  {
    UnderRoot(a);
  }

  /** The event of the directory that directly holds the element of event
      `j`. */
  function ApiParent(j: int): int {
    [0, 0, 0, 0, 0, 1, 2, 6, 6, 2, 4, 10, 10, 10, 10, 4, 3, 16, 3, 0, 0][if 0 <= j < 21 then j else 0]
  }

  /** Every path of the plan is spelled with proper elements. */
  lemma ApiLayoutElements()
    ensures forall j :: 0 <= j < 21 ==> Elements(ApiLayout(j))
  {
    ApiLayoutElementsLow();
    ApiLayoutElementsHigh();
  }

  lemma ApiLayoutElementsLow()
    ensures forall j :: 0 <= j < 11 ==> Elements(ApiLayout(j))
  {
    forall j | 0 <= j < 11 ensures Elements(ApiLayout(j)) {
      match j
      case 0 =>
      case 1 =>
      case 2 =>
      case 3 =>
      case 4 =>
      case 5 =>
      case 6 =>
      case 7 =>
      case 8 =>
      case 9 =>
      case 10 =>
    }
  }

  lemma ApiLayoutElementsHigh()
    ensures forall j :: 11 <= j < 21 ==> Elements(ApiLayout(j))
  {
    forall j | 11 <= j < 21 ensures Elements(ApiLayout(j)) {
      match j
      case 11 =>
      case 12 =>
      case 13 =>
      case 14 =>
      case 15 =>
      case 16 =>
      case 17 =>
      case 18 =>
      case 19 =>
      case 20 =>
    }
  }

  /** Every path but the root's extends the path of an earlier directory
      event by one element. */
  lemma ApiLayoutNested()
    ensures forall j :: 0 < j < 21 ==>
      0 <= ApiParent(j) < j && ApiIsDir(ApiParent(j)) && |ApiLayout(j)| > 0
      && ApiLayout(j) == ApiLayout(ApiParent(j)) + [ApiLayout(j)[|ApiLayout(j)| - 1]]
  {
    ApiLayoutNestedLow();
    ApiLayoutNestedHigh();
  }

  lemma ApiLayoutNestedLow()
    ensures forall j :: 1 <= j < 11 ==> (0 <= ApiParent(j) < j && ApiIsDir(ApiParent(j)) && |ApiLayout(j)| > 0
      && ApiLayout(j) == ApiLayout(ApiParent(j)) + [ApiLayout(j)[|ApiLayout(j)| - 1]])
  {
    forall j | 1 <= j < 11 ensures 0 <= ApiParent(j) < j && ApiIsDir(ApiParent(j)) && |ApiLayout(j)| > 0
        && ApiLayout(j) == ApiLayout(ApiParent(j)) + [ApiLayout(j)[|ApiLayout(j)| - 1]] {
      match j
      case 1 =>
      case 2 =>
      case 3 =>
      case 4 =>
      case 5 =>
      case 6 =>
      case 7 =>
      case 8 =>
      case 9 =>
      case 10 =>
    }
  }

  lemma ApiLayoutNestedHigh()
    ensures forall j :: 11 <= j < 21 ==> (0 <= ApiParent(j) < j && ApiIsDir(ApiParent(j)) && |ApiLayout(j)| > 0
      && ApiLayout(j) == ApiLayout(ApiParent(j)) + [ApiLayout(j)[|ApiLayout(j)| - 1]])
  {
    forall j | 11 <= j < 21 ensures 0 <= ApiParent(j) < j && ApiIsDir(ApiParent(j)) && |ApiLayout(j)| > 0
        && ApiLayout(j) == ApiLayout(ApiParent(j)) + [ApiLayout(j)[|ApiLayout(j)| - 1]] {
      match j
      case 11 =>
      case 12 =>
      case 13 =>
      case 14 =>
      case 15 =>
      case 16 =>
      case 17 =>
      case 18 =>
      case 19 =>
      case 20 =>
    }
  }

  /** No two events have the same path elements. */
  lemma ApiLayoutDistinct()
    ensures forall i, j :: 0 <= i < j < 21 ==> ApiLayout(i) != ApiLayout(j)
  {
  }

  /** Create event `j` is for the path its layout names, and is a directory
      event exactly when the table says so. */
  lemma ApiPlanAt(a: string, n: string, src: Sources, j: nat)
    requires j < 21
    ensures ApiPlan(a, n, src)[j].path == Under(a, ApiLayout(j))
    ensures ApiPlan(a, n, src)[j].Dir? <==> ApiIsDir(j)
  {
  }

  /** Every create event after the first is for an element directly inside
      a directory that an earlier event created. */
  lemma ApiParentsFirst(a: string, n: string, src: Sources)
    ensures ParentsFirst(ApiPlan(a, n, src))
  {
    var plan := ApiPlan(a, n, src);
    ApiLayoutElements();
    ApiLayoutNested();
    forall j | 0 < j < |plan| ensures ParentBefore(plan, j) {
      var i, full := ApiParent(j), ApiLayout(j);
      ApiPlanAt(a, n, src, i);
      ApiPlanAt(a, n, src, j);
      assert Elements(full);
      UnderChild(a, ApiLayout(i), full[|full| - 1], full);
      assert plan[i].Dir? && InDir(plan[j].path, plan[i].path);
    }
  }

  /** No two create events are for the same path. */
  lemma ApiDistinctPaths(a: string, n: string, src: Sources)
    ensures DistinctPaths(ApiPlan(a, n, src))
  {
    var plan := ApiPlan(a, n, src);
    ApiLayoutElements();
    ApiLayoutDistinct();
    forall i, j | 0 <= i < j < |plan| ensures plan[i].path != plan[j].path {
      UnderInjective(a, ApiLayout(i), ApiLayout(j));
    }
  }

  /** After the plan, the terminal has shown the 21 paths in order, every
      directory of the plan exists, and every file holds what the plan
      writes to it: its template filled with the application name, except
      the model, which is written as it is. */
  lemma ApiOutcome(w: World, a: string, n: string, src: Sources)
    ensures Run(w, Expand(ApiPlan(a, n, src))).echoed == w.echoed + Paths(ApiPlan(a, n, src))
    ensures forall j :: 0 <= j < |ApiPlan(a, n, src)| && ApiPlan(a, n, src)[j].Dir? ==>
      ApiPlan(a, n, src)[j].path in Run(w, Expand(ApiPlan(a, n, src))).dirs
    ensures forall j :: 0 <= j < |ApiPlan(a, n, src)| && ApiPlan(a, n, src)[j].File? ==>
      (ApiPlan(a, n, src)[j].path in Run(w, Expand(ApiPlan(a, n, src))).files
      && Run(w, Expand(ApiPlan(a, n, src))).files[ApiPlan(a, n, src)[j].path] == ApiPlan(a, n, src)[j].contents)
    ensures Under(a, ["conf", "app.conf"]) in Run(w, Expand(ApiPlan(a, n, src))).files
      && Run(w, Expand(ApiPlan(a, n, src))).files[Under(a, ["conf", "app.conf"])] == Fill(src.conf, n)
    ensures Under(a, ["model", "account", "user.go"]) in Run(w, Expand(ApiPlan(a, n, src))).files
      && Run(w, Expand(ApiPlan(a, n, src))).files[Under(a, ["model", "account", "user.go"])] == src.model
  {
    var plan := ApiPlan(a, n, src);
    var acts := Expand(plan);
    RunEchoes(w, acts);
    EchoesExpand(plan);
    ApiDistinctPaths(a, n, src);
    forall j | 0 <= j < |plan| && plan[j].Dir? ensures plan[j].path in Run(w, acts).dirs {
      MadeDir(w, plan, j);
    }
    forall j | 0 <= j < |plan| && plan[j].File?
      ensures plan[j].path in Run(w, acts).files && Run(w, acts).files[plan[j].path] == plan[j].contents
    {
      FinalContents(w, plan, j);
    }
    assert plan[5].path == Under(a, ["conf", "app.conf"]);
    assert plan[17].path == Under(a, ["model", "account", "user.go"]);
  }

  /** The configuration names the application on its first line and as the
      database name and user. */
  lemma ConfNamesApp(n: string)
    ensures var lines := ReplaceEach(LineTexts(T.Conf()), Token("Appname"), n);
      Fill(Text(T.Conf()), n) == JoinLines(lines)
      && lines[0] == "appname = " + n
      && lines[10] == "DB_NAME = " + n
      && lines[11] == "DB_USER = " + n
    ensures "appname = " + n + "\n" <= Fill(Text(T.Conf()), n)
  {
    ConfByLine(n);
    ConfAppLine(n);
    ConfNameLine(n);
    ConfUserLine(n);
    FirstLine(ReplaceEach(LineTexts(T.Conf()), Token("Appname"), n));
  }

  lemma ConfByLine(n: string)
    ensures Fill(Text(T.Conf()), n) == JoinLines(ReplaceEach(LineTexts(T.Conf()), Token("Appname"), n))
  {
    TokenShape("Appname");
    ReplaceByLine(LineTexts(T.Conf()), Token("Appname"), n);
  }

  lemma ConfAppLine(n: string)
    ensures ReplaceEach(LineTexts(T.Conf()), Token("Appname"), n)[0] == "appname = " + n
  {
    KeyLine("appname = ", n);
  }

  lemma ConfNameLine(n: string)
    ensures ReplaceEach(LineTexts(T.Conf()), Token("Appname"), n)[10] == "DB_NAME = " + n
  {
    KeyLine("DB_NAME = ", n);
  }

  lemma ConfUserLine(n: string)
    ensures ReplaceEach(LineTexts(T.Conf()), Token("Appname"), n)[11] == "DB_USER = " + n
  {
    KeyLine("DB_USER = ", n);
  }

  lemma FirstLine(lines: seq<string>)
    requires |lines| > 0
    ensures lines[0] + "\n" <= JoinLines(lines)
  {
  }

  /** A line made of a key and the application-name placeholder becomes the
      key followed by the name. */
  lemma KeyLine(key: string, n: string)
    requires '{' !in key
    ensures |Token("Appname")| > 0
    ensures ReplaceAll(LineText([Lit(key), Slot("Appname")]), Token("Appname"), n) == key + n
  {
    TokenShape("Appname");
    var l := [Lit(key), Slot("Appname")];
    assert WellFormedPiece(l[0]) && WellFormedPiece(l[1]);
    ReplaceSlotInLine(l, "Appname", n);
    var m := SubstLine(l, map["Appname" := n]);
    assert m == [Lit(key), Lit(n)];
    assert LineText(m) == key + LineText(m[1..]);
    assert LineText(m[1..]) == n + LineText([]);
  }

  /** A well-formed template without an application-name slot is written
      as it is. */
  lemma PlainTemplateKept(t: Template, n: string)
    requires WellFormed(t)
    requires forall k, i :: 0 <= k < |t| && 0 <= i < |t[k]| && t[k][i].Slot? ==> t[k][i].name != "Appname"
    ensures Fill(Text(t), n) == Text(t)
  {
    ReplaceSlot(t, "Appname", n);
    SubstNoSlot(t, map["Appname" := n]);
  }


  /** The example model has no application-name placeholder: writing it
      as it is, as the code does, is the same as filling it. */
  lemma ModelFillKept(n: string)
    ensures Fill(Text(T.Model()), n) == Text(T.Model())
  {
    PlainTemplateKept(T.Model(), n);
  }

  /** `business/init.go` has no placeholder and is written as it is. */
  lemma BusinessInitKept(n: string)
    ensures Fill(Text(T.BusinessInit()), n) == Text(T.BusinessInit())
  {
    PlainTemplateKept(T.BusinessInit(), n);
  }

  /** File event `j` of the world `after` holds template `t` with its
      application-name slots filled with `n`. */
  predicate ApiFileFilled(after: World, a: string, j: int, t: Template, n: string) {
    var p := Under(a, ApiLayout(j));
    p in after.files && after.files[p] == Text(Subst(t, map["Appname" := n]))
  }

  /** A file written from a template variable that holds the text of a
      well-formed template `t` is `t` with every `{{.Appname}}` slot filled
      with the application name, and all other text as `t` has it. */
  lemma ApiFilled(w: World, a: string, n: string, src: Sources, j: int, t: Template)
    requires 0 <= j < 21 && !ApiIsDir(j) && j != 17
    requires WellFormed(t) && ApiSource(src, j) == Text(t)
    ensures ApiFileFilled(Run(w, Expand(ApiPlan(a, n, src))), a, j, t, n)
  {
    ApiOutcome(w, a, n, src);
    assert ApiPlan(a, n, src)[j] == File(Under(a, ApiLayout(j)), Fill(Text(t), n));
    ReplaceSlot(t, "Appname", n);
  }

  /** The example model is written as its template variable holds it. */
  lemma ApiModelKept(w: World, a: string, n: string, src: Sources)
    ensures var p := Under(a, ["model", "account", "user.go"]);
      var after := Run(w, Expand(ApiPlan(a, n, src)));
      p in after.files && after.files[p] == src.model
  {
    ApiOutcome(w, a, n, src);
  }

  /** The template of the source that create event `j` writes, line by
      line. */
  function ApiTemplate(j: int): (t: Template)
    ensures WellFormed(t)
  {
    if j < 10 then ConfRestTemplate(j)
    else if j < 16 then BusinessTemplate(j)
    else match j
      case 17 => T.Model()
      case 18 => T.ModelInit()
      case 19 => T.Main()
      case _ => T.GitIgnore()
  }

  /** The templates of `conf/app.conf` and of the files under `rest`. */
  function ConfRestTemplate(j: int): (t: Template)
    ensures WellFormed(t)
  {
    match j
    case 5 => T.Conf()
    case 7 => T.Rest()
    case 8 => T.RestLogin()
    case _ => T.RestInit()
  }

  /** The templates of the files under `business`. */
  function BusinessTemplate(j: int): (t: Template)
    ensures WellFormed(t)
  {
    match j
    case 11 => T.Business()
    case 12 => T.BusinessRepository()
    case 13 => T.BusinessEncode()
    case 14 => T.BusinessAuth()
    case _ => T.BusinessInit()
  }

  /** Template variables that hold the templates of the source: each file
      is written from the text of its template. The example model, which
      the code writes without filling, is named on its own. */
  predicate HoldsOriginal(src: Sources) {
    && (forall j :: 0 <= j < 21 && !ApiIsDir(j) && j != 17 ==> ApiSource(src, j) == Text(ApiTemplate(j)))
    && src.model == Text(T.Model())
  }

  /** With the templates of the source, every file but the example model
      is its template with the application name filled in. */
  lemma ApiOriginal(w: World, a: string, n: string, src: Sources)
    requires HoldsOriginal(src)
    ensures forall j :: 0 <= j < 21 && !ApiIsDir(j) && j != 17 ==>
      ApiFileFilled(Run(w, Expand(ApiPlan(a, n, src))), a, j, ApiTemplate(j), n)
  {
    forall j | 0 <= j < 21 && !ApiIsDir(j) && j != 17
      ensures ApiFileFilled(Run(w, Expand(ApiPlan(a, n, src))), a, j, ApiTemplate(j), n)
    {
      ApiFilled(w, a, n, src, j, ApiTemplate(j));
    }
  }

  /** With the templates of the source, the example model is its template
      as it is. */
  lemma ApiModelOriginal(w: World, a: string, n: string, src: Sources)
    requires HoldsOriginal(src)
    ensures var p := Under(a, ["model", "account", "user.go"]);
      p in Run(w, Expand(ApiPlan(a, n, src))).files
      && Run(w, Expand(ApiPlan(a, n, src))).files[p] == Text(T.Model())
  {
    ApiModelKept(w, a, n, src);
  }
}
