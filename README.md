# bee scaffolder: a Dafny model of template rendering and file emission

This project models the two scaffolding routines of the `bee` command-line
tool (the cisordeng fork):

- `bee api <appname>` is `createAPI` in `cmd/commands/api/apiapp.go`. It
  checks its argument and takes the application name from the last
  element of the path. It sets the database driver to "mysql" when none
  was given. Then it creates the skeleton of an API application, one
  directory or file at a time. It makes each directory and then echoes a
  "create <path>" line for it. For each file it echoes the line first and
  then writes the file. Every file is its template constant with `{{.Appname}}` replaced
  by the application name. The one exception is `model/account/user.go`,
  which is written verbatim.
- `bee generate resource <package.resource>` is `GenerateResource` in
  `generate/g_resource.go`. It finds the GOPATH entry the current
  directory lies in, and takes the application name from the path below
  it. It splits the qualified name into a package and a resource, with
  '.' treated as '/'. Then it writes five files, each rendered by
  `replaceTpl` from its template: the REST handler, the business entity,
  repository and encoder, and the ORM model. `replaceTpl` runs seven
  replace-all passes in a fixed order, using the application name and
  three spellings each of the package and resource names.

The model is laid out in these modules:

- `GoStrings` and `GoPath` hold the parts of Go's `strings`, `path` and
  `path/filepath` packages that the code calls, as functions on
  `seq<char>`.
- `Templates` keeps every template as lines of pieces of three kinds:
  - literal text without '{';
  - a lone '{', which is followed on its line by literal text or nothing;
  - placeholder slots.

  A template of this shape is well formed. For such a template, one
  replace-all pass fills exactly the slots with that name. Every template
  constant of the two routines is proved well formed by its own table
  function.
- `Render` is `replaceTpl`.
- `FileSystem` is the outside world, in two parts:
  - a `World` of directories, files and echoed lines;
  - a `Disk` class whose methods append each effect to a log. The state
    of the disk is its initial world run through that log.
- `Plans` describes an ordered list of create events and proves what
  carrying them out leaves behind.
- `Api` is `createAPI`. It is a method on the disk proved equal to a
  21-event plan.
- `Resource` is `GenerateResource`. It is a method on the disk, proved to
  act as the specification function `Generate`.
- `ApiTemplates` and `ResourceTemplates` hold the template constants,
  line by line.

`createAPI` interleaves directories and files
(cmd/commands/api/apiapp.go:386-450):
- first the application directory and `conf`, `rest`, `model` and
  `business`;
- then `conf/app.conf`;
- then `rest/account` and its files;
- and so on.

It creates 8 directories and 13 files in all.

The GOPATH lookup is modelled as written:
- It picks the first entry that occurs anywhere in the current path
  (`strings.Contains`).
- It then slices the current path at that entry's length plus one, as if
  the entry were a prefix.

So the application name is the second '/'-separated piece of what follows
that slice. For the intended layout, `$GOPATH/src/<app>/...`, this is
`<app>` (`AppNameUnderGoPath`). For a project under
`$GOPATH/src/github.com/user/app` it is "github.com" (`AppNameNested`). For
an entry that is not a prefix it is whatever lands in that position
(`AppNameInfix`).

## Model

| member | source | states |
|---|---|---|
| GoStrings.ReplaceAllIsJoinSplit | generate/g_resource.go:273-275 | replace-all with a non-empty pattern is the text split at the pattern and joined with the replacement |
| GoStrings.ReplaceAllAbsent | generate/g_resource.go:273-275 | a text in which the pattern does not occur comes back unchanged |
| GoStrings.ReplaceAllAround | cmd/commands/api/apiapp.go:400-401 | a pattern without the character `c` is replaced independently on each side of `c`; replacing by line rests on this |
| GoStrings.ReplaceCharAt | generate/g_resource.go:221 | replacing one character by another keeps the length and maps each position on its own |
| GoStrings.JoinSplit | generate/g_resource.go:220 | joining the pieces of a split with the separator gives back the text |
| GoStrings.SplitAtChar | generate/g_resource.go:220 | the text before the first separator is the first piece, and the rest splits on its own |
| GoStrings.SplitWithoutChar | generate/g_resource.go:220 | a text without the separator splits into itself alone |
| GoStrings.LastIndex | generate/g_resource.go:227 | the index of the last occurrence, with no occurrence after it; -1 exactly when there is none |
| GoStrings.ToLower | generate/g_resource.go:239 | same length, every character lower-cased on its own |
| GoStrings.ToLowerTitle | generate/g_resource.go:223-241 | lower-casing the title-cased resource name gives the lower-cased name: the file names depend on the name, not on Title |
| GoPath.SplitPath | generate/g_resource.go:222 | the directory part and the file part concatenate to the path; the file part has no '/'; the directory part is empty or ends in '/' |
| GoPath.SplitPathAt | generate/g_resource.go:222 | the split of `d/f`, with `f` free of '/', is `(d/, f)` |
| GoPath.Base | cmd/commands/api/apiapp.go:376 | the base is never empty, and it is "/" or free of '/' |
| GoPath.BaseOfLastElement | cmd/commands/api/apiapp.go:376 | the base of `d/n` followed by any number of slashes is `n` |
| GoPath.BaseBare | cmd/commands/api/apiapp.go:376 | a bare name without '/', followed by any number of slashes, is its own base |
| GoPath.Join2 | cmd/commands/api/apiapp.go:388 | an empty element is dropped, and two non-empty ones are joined by one '/' |
| GoPath.JoinPath3 | cmd/commands/api/apiapp.go:400 | three non-empty elements join as `a/b/c` |
| GoPath.JoinPathUnder | cmd/commands/api/apiapp.go:404 | joining a root with further elements is the root joined with their path |
| GoPath.SplitJoin2 | generate/g_resource.go:222 | splitting undoes a join with a last element free of '/' |
| GoPath.JoinPathInjective | cmd/commands/api/apiapp.go:386-450 | different lists of proper elements join to different paths |
| Templates.TokenNoOtherToken | generate/g_resource.go:273-275 | the placeholder of one name never occurs inside the placeholder of another |
| Templates.ReplaceSlotInLine | generate/g_resource.go:273-275 | one pass over a well-formed line replaces exactly its slots with that name, and nothing else |
| Templates.ReplaceByLine | cmd/commands/api/apiapp.go:400-401 | a pattern without a newline is replaced line by line |
| Templates.ReplaceSlot | generate/g_resource.go:273-275 | one pass over a well-formed template equals substituting the value for that slot name |
| Templates.SubstWellFormed | generate/g_resource.go:273-275 | filling slots with values free of '{' keeps a template well formed, so the next pass sees only real placeholders |
| Templates.SubstTwice | generate/g_resource.go:273-275 | two substitutions in a row act as one, with the earlier values winning |
| Render.LowerCamel | generate/g_resource.go:268 | the lower-camel spelling is the raw name's first character followed by the camel-case spelling from its second character on; it panics (None) exactly when either is empty |
| Render.ValuesOf | generate/g_resource.go:267-271 | the seven values `replaceTpl` binds; a panic exactly when the package, the resource or a camel-case spelling is empty |
| Render.ReplaceTpl | generate/g_resource.go:266-276 | panics exactly when `ValuesOf` does; otherwise the seven passes in the code's order |
| Render.PassStep | generate/g_resource.go:273 | one pass fills one placeholder and keeps the template well formed |
| Render.PassThree | generate/g_resource.go:274 | three passes for three distinct names fill all three at once |
| Render.ApplyFills | generate/g_resource.go:273-275 | with values free of '{', the seven passes fill every one of the seven placeholders with its value and leave all other text alone |
| Render.ReplaceTplFills | generate/g_resource.go:266-276 | `replaceTpl` of a well-formed template, with non-empty names, is the template with the seven placeholders substituted |
| Render.ApplyChains | generate/g_resource.go:273-275 | the passes run over the previous pass's output: an application name that holds a later placeholder gets it replaced |
| Render.UntouchedPass | generate/g_resource.go:273-275 | a pass leaves text without '{' unchanged |
| Render.ApplyNoTokens | generate/g_resource.go:273-275 | text holding none of the seven placeholders comes back unchanged |
| Render.UnknownTokenKept | generate/g_resource.go:273-275 | a placeholder with any other name stays in the text |
| Render.FooKept | generate/g_resource.go:273-275 | `{{.Foo}}` comes back as it is |
| FileSystem.Ancestry | generate/g_resource.go:238 | os.MkdirAll makes the directory itself, along with its ancestors |
| FileSystem.RunAppend | cmd/commands/api/apiapp.go:386-450 | running two stretches of actions in turn is running them together |
| FileSystem.RunEchoes | cmd/commands/api/apiapp.go:386-450 | the terminal shows the echoed paths in order, and directories and files only grow |
| FileSystem.RunWritten | cmd/commands/api/apiapp.go:400-450 | a file written and not written again holds what was written |
| FileSystem.RunUntouched | generate/g_resource.go:237-263 | a path never written keeps its file, or its absence |
| FileSystem.Disk.MakeDirAll | generate/g_resource.go:238 | os.MkdirAll appends its action and changes nothing else |
| FileSystem.Disk.MakeDir | cmd/commands/api/apiapp.go:388 | os.Mkdir appends its action |
| FileSystem.Disk.EchoCreate | cmd/commands/api/apiapp.go:387 | the create line appends its action |
| FileSystem.Disk.WriteToFile | cmd/commands/api/apiapp.go:400-401 | utils.WriteToFile appends its action |
| Plans.ExpandAt | cmd/commands/api/apiapp.go:399-401 | each event's two actions sit together: a file's echo immediately precedes its write, and a directory's creation its echo |
| Plans.EchoesExpand | cmd/commands/api/apiapp.go:386-450 | the echoed lines of a plan are its paths, in order |
| Plans.FinalContents | cmd/commands/api/apiapp.go:400-450 | a file not written again later holds its contents after the plan |
| Plans.MadeDir | cmd/commands/api/apiapp.go:386-437 | every directory of the plan exists after it |
| Api.ApiPlan | cmd/commands/api/apiapp.go:386-450 | the create events of `createAPI`, exactly 21 |
| Api.DefaultDriver | cmd/commands/api/apiapp.go:380-382 | never empty; an empty driver becomes "mysql", and a non-empty one is kept |
| Api.CreateDir | cmd/commands/api/apiapp.go:386-389 | os.MkdirAll for the application directory or os.Mkdir otherwise, then the echo |
| Api.CreateFile | cmd/commands/api/apiapp.go:399-401 | the echo, then the write |
| Api.CreateRoot | cmd/commands/api/apiapp.go:386-395 | the log grows by events 0-4 of the plan |
| Api.CreateConf | cmd/commands/api/apiapp.go:398-401 | the log grows by event 5 |
| Api.CreateRest | cmd/commands/api/apiapp.go:403-414 | the log grows by events 6-9 |
| Api.CreateBusiness | cmd/commands/api/apiapp.go:416-433 | the log grows by events 10-15 |
| Api.CreateBusinessAccount | cmd/commands/api/apiapp.go:416-424 | the log grows by events 10-12: the business/account directory, then its user and user repository files |
| Api.CreateBusinessServices | cmd/commands/api/apiapp.go:425-433 | the log grows by events 13-15: the encoder and the authentication service, then business/init.go |
| Api.CreateModel | cmd/commands/api/apiapp.go:435-442 | the log grows by events 16-18 |
| Api.CreateTop | cmd/commands/api/apiapp.go:444-450 | the log grows by events 19-20 |
| Api.CreateSkeleton | cmd/commands/api/apiapp.go:386-450 | the log grows by the whole plan, section by section |
| Api.CreateApi | cmd/commands/api/apiapp.go:361-454 | fatal with "Argument [appname] is missing" when there is no argument, and fatal with the error of the environment check; a fatal run changes neither the disk nor the driver; otherwise the disk is its old state run through the plan for the checked path and the base of the argument, and the driver is defaulted |
| Api.ApiPlanShape | cmd/commands/api/apiapp.go:386-450 | 21 events; directories at events 0-4, 6, 10 and 16; the first is the application directory with its parents, and every other directory is made alone |
| Api.ApiPlanAt | cmd/commands/api/apiapp.go:386-450 | event `j` is for the application path joined with its elements from the layout table |
| Api.ApiLayoutNested | cmd/commands/api/apiapp.go:386-437 | every event after the first is one element below an earlier directory event |
| Api.ApiLayoutDistinct | cmd/commands/api/apiapp.go:386-450 | no two events have the same elements |
| Api.ApiParentsFirst | cmd/commands/api/apiapp.go:386-437 | every event after the first is for a path directly inside a directory that an earlier event created |
| Api.ApiDistinctPaths | cmd/commands/api/apiapp.go:386-450 | no two events are for the same path |
| Api.UnderInjective | cmd/commands/api/apiapp.go:386-450 | different element lists under the application directory give different paths |
| Api.ApiOutcome | cmd/commands/api/apiapp.go:386-450 | afterwards, the echoed lines are the 21 paths in order, every directory exists, and every file holds its contents; `conf/app.conf` holds the filled configuration and `model/account/user.go` the model template verbatim |
| Api.ConfNamesApp | cmd/commands/api/apiapp.go:73-84 | the filled configuration begins with "appname = " and the name, and its DB_NAME and DB_USER lines carry the name |
| Api.KeyLine | cmd/commands/api/apiapp.go:83 | a `key {{.Appname}}` line becomes the key followed by the name |
| Api.PlainTemplateKept | cmd/commands/api/apiapp.go:432-433 | a well-formed template without an application-name slot is written unchanged |
| Api.ApiFilled | cmd/commands/api/apiapp.go:399-450 | every file other than the model, whose source is the text of a well-formed template, holds that template with its application-name slots filled |
| Api.ApiModelKept | cmd/commands/api/apiapp.go:438-439 | `model/account/user.go` holds the model template verbatim |
| Api.ApiTemplate | cmd/commands/api/apiapp.go:69-352 | the template of each file event is well formed |
| Api.ApiOriginal | cmd/commands/api/apiapp.go:69-450 | with the code's own template constants, every file other than the model holds its template with the application name in each slot |
| Api.ApiModelOriginal | cmd/commands/api/apiapp.go:204-227 | with the code's own template constants, the model file holds the text of the model template |
| Api.ModelFillKept | cmd/commands/api/apiapp.go:204-227 | the model template has no application-name slot, so writing it verbatim equals filling it |
| Api.BusinessInitKept | cmd/commands/api/apiapp.go:348-352 | the template of `business/init.go` is written unchanged |
| Resource.FirstContained | generate/g_resource.go:210-216 | the index of the first GOPATH entry occurring in the current path: no earlier entry occurs; -1 when none does |
| Resource.FindGoPath | generate/g_resource.go:210-216 | the loop with its break returns the first entry that occurs, or "" |
| Resource.AppNameAfter | generate/g_resource.go:220 | the application name is the second '/'-separated piece after the entry's length plus one |
| Resource.AppNameUnderGoPath | generate/g_resource.go:220 | in `$GOPATH/src/<app>/...` the application name is `<app>` |
| Resource.AppNameMissing | generate/g_resource.go:220 | with only one piece after the entry, the index is out of range (a panic) |
| Resource.AppNameNested | generate/g_resource.go:220 | in `/go/src/github.com/user/app` the application name is "github.com" |
| Resource.AppNameInfix | generate/g_resource.go:212-220 | an entry that occurs inside the path but not at its start is still chosen, and the slice counts from the start |
| Resource.ParseResourceName | generate/g_resource.go:221-231 | fatal exactly when the name has no '/' once its dots become slashes; the package and the lower-cased resource are free of '/' |
| Resource.ParseFatal | generate/g_resource.go:221-231 | fatal exactly when the name holds neither '.' nor '/' |
| Resource.ParsePackageResource | generate/g_resource.go:222-229 | for `.../pkg/f` the package is `pkg` and the resource is `Title(f)` |
| Resource.ParseDotted | generate/g_resource.go:221-229 | `pkg.res` and `pkg/res` both give package `pkg` and resource `Title(res)` |
| Resource.LowerResourceName | generate/g_resource.go:223-241 | the file names use the resource lower-cased, whatever title case did |
| Resource.FilePathsDistinct | generate/g_resource.go:237-263 | the five files have five different paths |
| Resource.RunFileActs | generate/g_resource.go:237-241 | one file's actions make its folder when it opens one, echo its path and write it |
| Resource.EmitContents | generate/g_resource.go:237-263 | afterwards, each file holds its template rendered with the values |
| Resource.EmitUntouched | generate/g_resource.go:237-263 | any other path keeps its file |
| Resource.EmitFolders | generate/g_resource.go:237-263 | every file's folder exists afterwards, and so does every directory that existed before |
| Resource.EmitEchoes | generate/g_resource.go:237-263 | the echoed lines are the file paths, in order |
| Resource.CreateResourceFile | generate/g_resource.go:244-248 | the folder when the file opens one, the echo, then the write of the rendering |
| Resource.WriteResource | generate/g_resource.go:236-263 | a panic after the first folder and echo when rendering panics; otherwise all five files in order |
| Resource.GenerateResource | generate/g_resource.go:207-264 | the outcome and the new log are those of `Generate` |
| Resource.GenerateFailure | generate/g_resource.go:217-241 | a run that does not complete writes no file, and performs at most two actions; a fatal error comes before any action |
| Resource.GenerateEmptyName | generate/g_resource.go:226-241 | an empty package or resource gets past the checks and panics at the first write, after the rest folder is made and echoed |
| Resource.GenerateFiles | generate/g_resource.go:237-263 | a completed run writes five files: `rest/<pkg>/<r>.go`, then `business/<pkg>/<r>.go`, `<r>_repository.go` and `encode_<r>.go`, then `model/<pkg>/<r>.go`. Each is rendered by `replaceTpl` from the same application, package and lower-cased resource. Their folders exist afterwards, their paths are echoed in that order, and no other file changes |
| Resource.TemplateLines | generate/g_resource.go:28-205 | the template of each of the five files is well formed |
| Resource.GenerateFilled | generate/g_resource.go:237-276 | with brace-free names, a completed run leaves each file holding its well-formed template with the seven placeholders substituted |
| Resource.GenerateOriginal | generate/g_resource.go:28-276 | with the code's own template constants and brace-free names, all five files hold their templates with the seven placeholders substituted |
| Resource.RestDeclaresType | generate/g_resource.go:28-36 | the rendered REST handler has 35 lines, and its ninth line declares the struct named after the resource |
| ResourceTemplates.Rest | generate/g_resource.go:28-63 | the REST handler template is well formed |
| ResourceTemplates.BusinessEntity | generate/g_resource.go:65-101 | the business entity template is well formed |
| ResourceTemplates.BusinessRepository | generate/g_resource.go:103-154 | the repository template is well formed |
| ResourceTemplates.BusinessEncode | generate/g_resource.go:156-182 | the encoder template is well formed |
| ResourceTemplates.Model | generate/g_resource.go:184-205 | the ORM model template is well formed |
| ApiTemplates.GitIgnore | cmd/commands/api/apiapp.go:69-72 | the `.gitignore` template is well formed |
| ApiTemplates.Conf | cmd/commands/api/apiapp.go:73-94 | the configuration template is well formed |
| ApiTemplates.Main | cmd/commands/api/apiapp.go:95-107 | the `main.go` template is well formed |
| ApiTemplates.Rest | cmd/commands/api/apiapp.go:109-148 | the example REST resource template is well formed |
| ApiTemplates.RestLogin | cmd/commands/api/apiapp.go:150-192 | the login resource template is well formed |
| ApiTemplates.RestInit | cmd/commands/api/apiapp.go:194-202 | the `rest/init.go` template is well formed |
| ApiTemplates.Model | cmd/commands/api/apiapp.go:204-227 | the example model template is well formed |
| ApiTemplates.ModelInit | cmd/commands/api/apiapp.go:229-237 | the `model/init.go` template is well formed |
| ApiTemplates.Business | cmd/commands/api/apiapp.go:239-283 | the example business entity template is well formed |
| ApiTemplates.BusinessRepository | cmd/commands/api/apiapp.go:285-303 | the user repository template is well formed |
| ApiTemplates.BusinessEncode | cmd/commands/api/apiapp.go:305-320 | the user encoder template is well formed |
| ApiTemplates.BusinessAuth | cmd/commands/api/apiapp.go:322-346 | the authentication service template is well formed |
| ApiTemplates.BusinessInit | cmd/commands/api/apiapp.go:348-352 | the `business/init.go` template is well formed |

## Left out

- Flag parsing of the extra `bee api` arguments (`-tables`, `-driver`, `-conn`) and its error log are not modelled. Only the driver default is.
- `utils.CheckEnv` is an input: the resolved application path, or its error. `utils.GetGOPATHs` is an input too: the list of entries.
- `utils.CamelCase` is a parameter `camel: string -> string` about which nothing is assumed. `utils.CamelString` only feeds a log line and is left out.
- `beeLogger` calls, the version banner and the ANSI colour codes of the create lines are left out. `Log.Fatal` is modelled as a `Fatal` outcome that ends the run, because the logger source is not part of this model.
- Errors of `os.Mkdir`, `os.MkdirAll` and `utils.WriteToFile` are ignored by the code, so every action succeeds in the model. `utils.WriteToFile` is not part of this model. It is taken to replace the file's contents.
- GoPath.JoinPath: `path.Join` is modelled without its final `Clean`. With the elements the code passes this makes a difference only for paths holding "." or ".." elements or doubled slashes.
- GoStrings.ToLower, GoStrings.Title: only ASCII letters change case. Go's word-boundary test for non-ASCII characters is simplified.
- The template text itself is kept as data only. What the generated Go code means is not modelled.
- Render.LowerCamel: Go's `string(resource_name[0])` takes the first byte as a character, and `ResourceName[1:]` drops the first byte. The model takes and drops characters, so it differs from the code when the first character of either name is not ASCII. The same holds for the package names.
- Resource.AppNameOf: the slice `currpath[len(gopath)+1:]` counts bytes in Go. The model counts characters, so it differs from the code when the GOPATH entry holds non-ASCII characters.
- Resource.GenerateOriginal, Api.ApiOriginal: the code's own template constants are stated as a hypothesis on the sources (each is the text of its table), not as one fixed value, so that each proof reads only the tables it needs.
