/** The effects the scaffolder has on the outside world, as a log of
    actions: directories made, create events echoed to the terminal, and
    files written. Errors of these calls are ignored by the scaffolder, so
    every action succeeds. */
module FileSystem {
  datatype Action =
    | MkdirAll(path: string)     // os.MkdirAll: the directory and its parents
    | Mkdir(path: string)        // os.Mkdir: the directory alone
    | Echo(path: string)         // the coloured "create <path>" line
    | Write(path: string, contents: string)  // utils.WriteToFile

  datatype World = World(dirs: set<string>, files: map<string, string>, echoed: seq<string>)

  /** The directories os.MkdirAll makes for `p`: every prefix of `p` that
      ends just before a '/', and `p` itself. */
  function Ancestry(p: string): (r: set<string>)
    ensures p in r
  {
    {p} + set i | 0 < i < |p| && p[i] == '/' :: p[..i]
  }

  function Step(w: World, a: Action): World {
    match a
    case MkdirAll(p) => w.(dirs := w.dirs + Ancestry(p))
    case Mkdir(p) => w.(dirs := w.dirs + {p})
    case Echo(p) => w.(echoed := w.echoed + [p])
    case Write(p, c) => w.(files := w.files[p := c])
  }

  /** The world after the actions, applied in order. */
  function Run(w: World, acts: seq<Action>): World {
    if acts == [] then w else Step(Run(w, acts[..|acts| - 1]), acts[|acts| - 1])
  }

  /** The echoed paths of a sequence of actions. */
  function Echoes(acts: seq<Action>): seq<string> {
    if acts == [] then []
    else (if acts[0].Echo? then [acts[0].path] else []) + Echoes(acts[1..])
  }

  // ---------------------------------------------------------------------
  // Properties

  /** Running two sequences one after another is running their
      concatenation. */
  lemma {:induction false} RunAppend(w: World, a: seq<Action>, b: seq<Action>)
    ensures Run(w, a + b) == Run(Run(w, a), b)
    decreases |b|
  {
    if b == [] {
      assert a + b == a;
    } else {
      assert (a + b)[..|a + b| - 1] == a + b[..|b| - 1];
      RunAppend(w, a, b[..|b| - 1]);
    }
  }

  /** The terminal shows exactly the echoed paths, in order; directories
      and files only grow. */
  lemma {:induction false} RunEchoes(w: World, acts: seq<Action>)
    ensures Run(w, acts).echoed == w.echoed + Echoes(acts)
    ensures w.dirs <= Run(w, acts).dirs
    ensures w.files.Keys <= Run(w, acts).files.Keys
    decreases |acts|
  {
    if acts != [] {
      var last := acts[|acts| - 1];
      var init := acts[..|acts| - 1];
      RunEchoes(w, init);
      EchoesSnoc(init, last);
      assert acts == init + [last];
    }
  }

  lemma {:induction false} EchoesSnoc(a: seq<Action>, x: Action)
    ensures Echoes(a + [x]) == Echoes(a) + (if x.Echo? then [x.path] else [])
  {
    if a == [] {
      assert a + [x] == [x] && [x][1..] == [];
    } else {
      var s := a + [x];
      assert s[0] == a[0];
      assert s[1..] == a[1..] + [x];
      EchoesSnoc(a[1..], x);
    }
  }


  /** A file written by the actions and not written again afterwards holds
      what was last written. */
  lemma {:induction false} RunWritten(w: World, acts: seq<Action>, i: nat)
    requires i < |acts| && acts[i].Write?
    requires forall j :: i < j < |acts| && acts[j].Write? ==> acts[j].path != acts[i].path
    ensures acts[i].path in Run(w, acts).files
    ensures Run(w, acts).files[acts[i].path] == acts[i].contents
    decreases |acts|
  {
    if i < |acts| - 1 {
      RunWritten(w, acts[..|acts| - 1], i);
    }
  }

  /** A file that the actions never write keeps its contents. */
  lemma {:induction false} RunUntouched(w: World, acts: seq<Action>, p: string)
    requires forall j :: 0 <= j < |acts| && acts[j].Write? ==> acts[j].path != p
    ensures p in Run(w, acts).files <==> p in w.files
    ensures p in w.files ==> Run(w, acts).files[p] == w.files[p]
    decreases |acts|
  {
    if acts != [] {
      RunUntouched(w, acts[..|acts| - 1], p);
    }
  }

  /** The file system and the terminal: the world they started in and the
      actions performed on them since, in order. */
  class Disk {
    const initial: World
    var log: seq<Action>

    function State(): World
      reads this
    {
      Run(initial, log)
    }

    constructor (w: World)
      ensures initial == w && log == []
    {
      initial, log := w, [];
    }

    /** os.MkdirAll(p, 0755). */
    method MakeDirAll(p: string)
      modifies this
      ensures log == old(log) + [MkdirAll(p)]
    {
      log := log + [MkdirAll(p)];
    }

    /** os.Mkdir(p, 0755). */
    method MakeDir(p: string)
      modifies this
      ensures log == old(log) + [Mkdir(p)]
    {
      log := log + [Mkdir(p)];
    }

    /** The coloured "create <p>" line on standard output. */
    method EchoCreate(p: string)
      modifies this
      ensures log == old(log) + [Echo(p)]
    {
      log := log + [Echo(p)];
    }

    /** utils.WriteToFile(p, c): the file holds `c` afterwards. */
    method WriteToFile(p: string, c: string)
      modifies this
      ensures log == old(log) + [Write(p, c)]
    {
      log := log + [Write(p, c)];
    }
  }
}
