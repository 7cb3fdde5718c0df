/** The parts of Go's `path` and `path/filepath` packages that the
    scaffolder uses, for '/'-separated paths. */
module GoPath {
  import opened GoStrings

  /** path.Split: splits after the last '/', so that `dir` ends in '/'
      (or is empty) and `file` holds no '/'. */
  function SplitPath(p: string): (r: (string, string))
    ensures r.0 + r.1 == p
    ensures '/' !in r.1
    ensures r.0 == [] || r.0[|r.0| - 1] == '/'
  {
    var i := LastIndex(p, '/');
    if i < 0 then ([], p)
    else
      assert p == p[..i + 1] + p[i + 1..];
      (p[..i + 1], p[i + 1..])
  }

  /** `p` without its trailing slashes. */
  function TrimTrailingSlashes(p: string): (r: string)
    ensures r <= p
    ensures r == [] || r[|r| - 1] != '/'
    ensures forall i :: |r| <= i < |p| ==> p[i] == '/'
  {
    if p != [] && p[|p| - 1] == '/' then TrimTrailingSlashes(p[..|p| - 1]) else p
  }

  /** filepath.Base on a '/'-separated path: the last element, with
      trailing slashes removed; "." for the empty path and "/" for a path
      made only of slashes. */
  function Base(p: string): (r: string)
    ensures r != []
    ensures r == "/" || '/' !in r
  {
    if p == [] then "."
    else
      var t := TrimTrailingSlashes(p);
      var i := LastIndex(t, '/');
      var last := t[i + 1..];
      if last == [] then "/" else last
  }

  /** path.Join of two elements, without the final Clean: an empty element
      is dropped and two non-empty ones are joined by a single '/'. */
  function Join2(a: string, b: string): (r: string)
    ensures a == [] ==> r == b
    ensures b == [] ==> r == a
    ensures a != [] && b != [] ==> r == a + "/" + b
  {
    if a == [] then b else if b == [] then a else a + "/" + b
  }

  /** path.Join(elems...), without the final Clean. */
  function JoinPath(elems: seq<string>): string
  {
    if elems == [] then [] else Join2(JoinPath(elems[..|elems| - 1]), elems[|elems| - 1])
  }

  // ---------------------------------------------------------------------
  // Properties

  /** Split keeps the text after the last '/' as the file part. */
  lemma SplitPathAt(d: string, f: string)
    requires '/' !in f
    ensures SplitPath(d + "/" + f) == (d + "/", f)
  {
    var p := d + "/" + f;
    assert p[|d|] == '/';
    assert p[|d| + 1..] == f;
    assert p[..|d| + 1] == d + "/";
  }

  /** The base of a path `d/n` with `n` free of slashes is `n`, also when
      trailing slashes follow. */
  lemma BaseOfLastElement(d: string, n: string, slashes: nat)
    requires n != [] && '/' !in n
    ensures Base(d + "/" + n + seq(slashes, _ => '/')) == n
  {
    var tail := seq(slashes, _ => '/');
    var p := d + "/" + n + tail;
    TrimSlashesAfter(d + "/" + n, slashes);
    SplitPathAt(d, n);
  }

  /** A bare name, with or without trailing slashes, is its own base. */
  lemma BaseBare(n: string, slashes: nat)
    requires n != [] && '/' !in n
    ensures Base(n + seq(slashes, _ => '/')) == n
  {
    TrimSlashesAfter(n, slashes);
  }

  lemma {:induction false} TrimSlashesAfter(q: string, slashes: nat)
    requires q != [] && q[|q| - 1] != '/'
    ensures TrimTrailingSlashes(q + seq(slashes, _ => '/')) == q
  {
    if slashes > 0 {
      var p := q + seq(slashes, _ => '/');
      assert p[..|p| - 1] == q + seq(slashes - 1, _ => '/');
      TrimSlashesAfter(q, slashes - 1);
    } else {
      assert q + seq(slashes, _ => '/') == q;
    }
  }

  /** Joining non-empty elements puts exactly one '/' between them. */
  lemma JoinPath3(a: string, b: string, c: string)
    requires a != [] && b != [] && c != []
    ensures JoinPath([a, b, c]) == a + "/" + b + "/" + c
  {
    assert [a][..0] == [];
    assert JoinPath([a]) == a;
    assert [a, b][..1] == [a];
    assert JoinPath([a, b]) == a + "/" + b;
    assert [a, b, c][..2] == [a, b];
  }

  /** Joining is associative when the last element is not empty. */
  lemma Join2Assoc(a: string, x: string, y: string)
    requires y != []
    ensures Join2(Join2(a, x), y) == Join2(a, Join2(x, y))
  {
  }

  /** path.Join of a root and further non-empty elements is the root
      joined with the path the further elements make. */
  lemma {:induction false} JoinPathUnder(a: string, segs: seq<string>)
    requires forall i :: 0 <= i < |segs| ==> segs[i] != []
    ensures JoinPath([a] + segs) == Join2(a, JoinPath(segs))
    decreases |segs|
  {
    if segs == [] {
      assert [a] + segs == [a];
      assert [a][..0] == [];
    } else {
      var init := segs[..|segs| - 1];
      var last := segs[|segs| - 1];
      assert ([a] + segs)[..|segs|] == [a] + init;
      JoinPathUnder(a, init);
      Join2Assoc(a, JoinPath(init), last);
    }
  }

  /** Joining a root with two different non-empty paths gives two different
      paths. */
  lemma Join2Injective(a: string, x: string, y: string)
    requires x != [] && y != [] && x != y
    ensures Join2(a, x) != Join2(a, y)
  {
    if a != [] {
      assert Join2(a, x)[|a| + 1..] == x;
      assert Join2(a, y)[|a| + 1..] == y;
    }
  }

  /** Path elements as the scaffolder spells them: non-empty and free of
      '/'. */
  predicate Elements(segs: seq<string>) {
    forall i :: 0 <= i < |segs| ==> segs[i] != [] && '/' !in segs[i]
  }

  /** Split undoes a join with a last element free of '/'. */
  lemma SplitJoin2(d: string, leaf: string)
    requires leaf != [] && '/' !in leaf
    ensures SplitPath(Join2(d, leaf)) == (if d == [] then [] else d + "/", leaf)
  {
    if d != [] {
      SplitPathAt(d, leaf);
    }
  }

  /** A join with a last element free of '/' determines both its parts. */
  lemma Join2Cancel(d1: string, l1: string, d2: string, l2: string)
    requires l1 != [] && '/' !in l1 && l2 != [] && '/' !in l2
    requires Join2(d1, l1) == Join2(d2, l2)
    ensures d1 == d2 && l1 == l2
  {
    SplitJoin2(d1, l1);
    SplitJoin2(d2, l2);
    if d1 != [] && d2 != [] {
      assert (d1 + "/")[..|d1|] == d1;
      assert (d2 + "/")[..|d2|] == d2;
    }
  }

  /** Different sequences of elements join to different paths. */
  lemma {:induction false} JoinPathInjective(s: seq<string>, t: seq<string>)
    requires Elements(s) && Elements(t) && s != t
    ensures JoinPath(s) != JoinPath(t)
    decreases |s|
  {
    if s == [] {
      assert t[|t| - 1] != [];
    } else if t == [] {
      assert s[|s| - 1] != [];
    } else {
      var si, sl := s[..|s| - 1], s[|s| - 1];
      var ti, tl := t[..|t| - 1], t[|t| - 1];
      assert s == si + [sl] && t == ti + [tl];
      if JoinPath(s) == JoinPath(t) {
        Join2Cancel(JoinPath(si), sl, JoinPath(ti), tl);
        JoinPathInjective(si, ti);
        assert false;
      }
    }
  }


}
