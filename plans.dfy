/** A scaffolding plan: the ordered create events of a generator, each a
    directory or a file, and the actions on the file system and terminal
    that carry them out. */
module Plans {
  import opened GoStrings
  import opened GoPath
  import opened FileSystem

  /** One create event: a directory (made with its parents when `parents`
      holds) or a file with its contents. */
  datatype Entry = Dir(path: string, parents: bool) | File(path: string, contents: string)

  /** What the scaffolder does for one entry: a directory is made and then
      echoed, a file is echoed and then written. */
  function Acts(e: Entry): (r: seq<Action>)
    ensures |r| == 2
  {
    match e
    case Dir(p, parents) => [if parents then MkdirAll(p) else Mkdir(p), Echo(p)]
    case File(p, c) => [Echo(p), Write(p, c)]
  }

  /** The actions of a plan, entry by entry. */
  function Expand(plan: seq<Entry>): (r: seq<Action>)
    ensures |r| == 2 * |plan|
  {
    if plan == [] then [] else Expand(plan[..|plan| - 1]) + Acts(plan[|plan| - 1])
  }

  /** The paths of the entries, in order. */
  function Paths(plan: seq<Entry>): (r: seq<string>)
    ensures |r| == |plan|
    ensures forall i :: 0 <= i < |plan| ==> r[i] == plan[i].path
  {
    seq(|plan|, i requires 0 <= i < |plan| => plan[i].path)
  }

  /** `p` names an element directly inside directory `d`. */
  predicate InDir(p: string, d: string) {
    var leaf := SplitPath(p).1;
    leaf != [] && p == Join2(d, leaf)
  }

  /** Entry `j` lies directly inside a directory that an earlier entry
      creates. */
  predicate ParentBefore(plan: seq<Entry>, j: nat)
    requires j < |plan|
  {
    exists i :: 0 <= i < j && plan[i].Dir? && InDir(plan[j].path, plan[i].path)
  }

  /** Every entry after the first lies directly inside a directory that an
      earlier entry creates. */
  predicate ParentsFirst(plan: seq<Entry>) {
    forall j :: 0 < j < |plan| ==> ParentBefore(plan, j)
  }

  /** No two entries of the plan create the same path. */
  predicate DistinctPaths(plan: seq<Entry>) {
    forall i, j :: 0 <= i < j < |plan| ==> plan[i].path != plan[j].path
  }

  // ---------------------------------------------------------------------
  // Properties

  /** One more entry of a plan done: its two actions follow. */
  lemma ExpandStep(pre: seq<Action>, plan: seq<Entry>, i: nat)
    requires i < |plan|
    ensures pre + Expand(plan[..i + 1]) == pre + Expand(plan[..i]) + Acts(plan[i])
  {
    assert plan[..i + 1][..i] == plan[..i];
  }

  /** The actions of two plans one after the other. */
  lemma {:induction false} ExpandAppend(p: seq<Entry>, q: seq<Entry>)
    ensures Expand(p + q) == Expand(p) + Expand(q)
    decreases |q|
  {
    if q == [] {
      assert p + q == p;
    } else {
      assert (p + q)[..|p + q| - 1] == p + q[..|q| - 1];
      ExpandAppend(p, q[..|q| - 1]);
    }
  }

  lemma ExpandAfter(pre: seq<Action>, p: seq<Entry>, q: seq<Entry>)
    ensures pre + Expand(p + q) == pre + Expand(p) + Expand(q)
  {
    ExpandAppend(p, q);
  }

  /** Entry `m` is carried out by actions `2m` and `2m + 1`: a directory
      is made just before its echo, a file is echoed just before it is
      written. */
  lemma {:induction false} ExpandAt(plan: seq<Entry>, m: nat)
    requires m < |plan|
    ensures Expand(plan)[2 * m] == Acts(plan[m])[0]
    ensures Expand(plan)[2 * m + 1] == Acts(plan[m])[1]
    decreases |plan|
  {
    if m < |plan| - 1 {
      ExpandAt(plan[..|plan| - 1], m);
    }
  }

  /** The actions of one entry echo its path once. */
  lemma EchoesActs(pre: seq<Action>, e: Entry)
    ensures Echoes(pre + Acts(e)) == Echoes(pre) + [e.path]
  {
    var acts := Acts(e);
    assert pre + acts == pre + [acts[0]] + [acts[1]];
    EchoesSnoc(pre, acts[0]);
    EchoesSnoc(pre + [acts[0]], acts[1]);
  }

  /** The terminal shows the path of every entry, in the order of the
      plan, and nothing else. */
  lemma {:induction false} EchoesExpand(plan: seq<Entry>)
    ensures Echoes(Expand(plan)) == Paths(plan)
    decreases |plan|
  {
    if plan != [] {
      var init, last := plan[..|plan| - 1], plan[|plan| - 1];
      EchoesExpand(init);
      EchoesActs(Expand(init), last);
      assert Paths(init) + [last.path] == Paths(plan);
    }
  }


  /** A file entry whose path no later file entry writes holds its contents
      once the plan is carried out. */
  lemma FinalContents(w: World, plan: seq<Entry>, j: nat)
    requires j < |plan| && plan[j].File?
    requires forall k :: j < k < |plan| && plan[k].File? ==> plan[k].path != plan[j].path
    ensures plan[j].path in Run(w, Expand(plan)).files
    ensures Run(w, Expand(plan)).files[plan[j].path] == plan[j].contents
  {
    var acts := Expand(plan);
    ExpandAt(plan, j);
    forall k | 2 * j + 1 < k < |acts| && acts[k].Write?
      ensures acts[k].path != plan[j].path
    {
      var m := k / 2;
      ExpandAt(plan, m);
      assert k == 2 * m + 1;
    }
    RunWritten(w, acts, 2 * j + 1);
  }

  /** A directory entry exists as a directory once the plan is carried
      out. */
  lemma MadeDir(w: World, plan: seq<Entry>, j: nat)
    requires j < |plan| && plan[j].Dir?
    ensures plan[j].path in Run(w, Expand(plan)).dirs
  {
    var pre, post := plan[..j + 1], plan[j + 1..];
    assert plan == pre + post;
    ExpandAppend(pre, post);
    assert pre[..j] + [plan[j]] == pre;
    ExpandAppend(pre[..j], [plan[j]]);
    assert Expand([plan[j]]) == Acts(plan[j]);
    var mid := Run(w, Expand(pre[..j]));
    RunAppend(w, Expand(pre[..j]), Acts(plan[j]));
    assert plan[j].path in Run(mid, Acts(plan[j])).dirs;
    RunAppend(w, Expand(pre), Expand(post));
    RunEchoes(Run(w, Expand(pre)), Expand(post));
  }

  /** The element `leaf` joined under a directory lies directly inside it. */
  lemma InDirJoin(d: string, leaf: string)
    requires leaf != [] && '/' !in leaf
    ensures InDir(Join2(d, leaf), d)
  {
    if d != [] {
      SplitPathAt(d, leaf);
    } else {
      assert SplitPath(leaf) == ([], leaf);
    }
  }
}
