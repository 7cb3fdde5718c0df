/** The parts of Go's `strings` package that the scaffolder uses, on
    `string = seq<char>`: Contains, Replace with n = -1, Split, LastIndex,
    ToLower and Title. Case mapping is restricted to ASCII. */
module GoStrings {

  /** `sub` occurs in `s` starting at index `i`. */
  predicate OccursAt(s: string, sub: string, i: nat) {
    i + |sub| <= |s| && s[i..i + |sub|] == sub
  }

  /** strings.Contains: `sub` occurs somewhere in `s` (the empty string occurs everywhere). */
  predicate Contains(s: string, sub: string) {
    exists i: nat :: i <= |s| && OccursAt(s, sub, i)
  }

  /** strings.Replace(s, pat, rep, -1): replaces the non-overlapping
      occurrences of `pat`, found scanning from left to right. Go inserts
      `rep` between runes when `pat` is empty; every call in the scaffolder
      passes a non-empty `pat`, and this model requires it. */
  function ReplaceAll(s: string, pat: string, rep: string): string
    requires |pat| > 0
    decreases |s|
  {
    if |s| < |pat| then s
    else if s[..|pat|] == pat then rep + ReplaceAll(s[|pat|..], pat, rep)
    else [s[0]] + ReplaceAll(s[1..], pat, rep)
  }

  /** strings.Split(s, sep) for a non-empty `sep`: the pieces of `s` between
      the non-overlapping occurrences of `sep`, scanning from left to right. */
  function Split(s: string, sep: string): (parts: seq<string>)
    requires |sep| > 0
    ensures |parts| >= 1
    decreases |s|
  {
    if |s| < |sep| then [s]
    else if s[..|sep|] == sep then [""] + Split(s[|sep|..], sep)
    else
      var rest := Split(s[1..], sep);
      [[s[0]] + rest[0]] + rest[1..]
  }

  /** strings.Join(parts, sep). */
  function Join(parts: seq<string>, sep: string): string
    requires |parts| >= 1
  {
    if |parts| == 1 then parts[0] else parts[0] + sep + Join(parts[1..], sep)
  }

  /** strings.LastIndex(s, string(c)): the index of the last `c` in `s`, or -1. */
  function LastIndex(s: string, c: char): (r: int)
    ensures -1 <= r < |s|
    ensures r == -1 <==> c !in s
    ensures r >= 0 ==> s[r] == c && c !in s[r + 1..]
  {
    if |s| == 0 then -1
    else if s[|s| - 1] == c then |s| - 1
    else
      assert s == s[..|s| - 1] + [s[|s| - 1]];
      LastIndex(s[..|s| - 1], c)
  }

  function LowerChar(c: char): char {
    if 'A' <= c <= 'Z' then (c as int - 'A' as int + 'a' as int) as char else c
  }

  function UpperChar(c: char): char {
    if 'a' <= c <= 'z' then (c as int - 'a' as int + 'A' as int) as char else c
  }

  /** strings.ToLower, for ASCII letters. */
  function ToLower(s: string): (r: string)
    ensures |r| == |s|
    ensures forall i :: 0 <= i < |s| ==> r[i] == LowerChar(s[i])
  {
    if s == [] then [] else [LowerChar(s[0])] + ToLower(s[1..])
  }

  /** Go's word separator test used by strings.Title, for ASCII: letters,
      digits and '_' continue a word, every other ASCII character separates
      words; characters outside ASCII are taken to continue a word. */
  predicate IsSeparator(c: char) {
    c as int <= 0x7F && !('0' <= c <= '9' || 'a' <= c <= 'z' || 'A' <= c <= 'Z' || c == '_')
  }

  /** strings.Title: upper-cases every letter that starts a word. `prev` is
      the character before `s`; Title itself starts from a space. */
  function TitleAfter(prev: char, s: string): (r: string)
    ensures |r| == |s|
    decreases |s|
  {
    if s == [] then []
    else [if IsSeparator(prev) then UpperChar(s[0]) else s[0]] + TitleAfter(s[0], s[1..])
  }

  function Title(s: string): string {
    TitleAfter(' ', s)
  }

  // ---------------------------------------------------------------------
  // Properties

  lemma LowerUpper(c: char)
    ensures LowerChar(UpperChar(c)) == LowerChar(c)
  {
  }

  /** Title only changes the case of letters, so lower-casing forgets it. */
  lemma {:induction false} ToLowerTitle(prev: char, s: string)
    ensures ToLower(TitleAfter(prev, s)) == ToLower(s)
    decreases |s|
  {
    if s != [] {
      ToLowerTitle(s[0], s[1..]);
      LowerUpper(s[0]);
    }
  }

  /** Split followed by Join gives back the original string. */
  lemma {:induction false} JoinSplit(s: string, sep: string)
    requires |sep| > 0
    ensures Join(Split(s, sep), sep) == s
    decreases |s|
  {
    if |s| < |sep| {
    } else if s[..|sep|] == sep {
      JoinSplit(s[|sep|..], sep);
      var rest := Split(s[|sep|..], sep);
      assert Split(s, sep) == [""] + rest;
      assert s == sep + s[|sep|..];
    } else {
      JoinSplit(s[1..], sep);
      var rest := Split(s[1..], sep);
      var parts := [[s[0]] + rest[0]] + rest[1..];
      assert Split(s, sep) == parts;
      if |rest| == 1 {
        assert Join(parts, sep) == [s[0]] + rest[0];
      } else {
        assert parts[1..] == rest[1..];
        assert Join(parts, sep) == [s[0]] + rest[0] + sep + Join(rest[1..], sep);
      }
      assert s == [s[0]] + s[1..];
    }
  }

  /** Replacing every `pat` by `rep` is splitting at `pat` and joining with
      `rep`: the text between occurrences is kept as it is. */
  lemma {:induction false} ReplaceAllIsJoinSplit(s: string, pat: string, rep: string)
    requires |pat| > 0
    ensures ReplaceAll(s, pat, rep) == Join(Split(s, pat), rep)
    decreases |s|
  {
    if |s| < |pat| {
    } else if s[..|pat|] == pat {
      ReplaceAllIsJoinSplit(s[|pat|..], pat, rep);
      assert Split(s, pat) == [""] + Split(s[|pat|..], pat);
    } else {
      ReplaceAllIsJoinSplit(s[1..], pat, rep);
      var rest := Split(s[1..], pat);
      var parts := [[s[0]] + rest[0]] + rest[1..];
      assert Split(s, pat) == parts;
      if |rest| > 1 {
        assert parts[1..] == rest[1..];
      }
    }
  }

  /** Text in which `pat` does not occur is returned unchanged. */
  lemma {:induction false} ReplaceAllAbsent(s: string, pat: string, rep: string)
    requires |pat| > 0
    requires !Contains(s, pat)
    ensures ReplaceAll(s, pat, rep) == s
    decreases |s|
  {
    if |s| >= |pat| {
      assert !OccursAt(s, pat, 0);
      assert !Contains(s[1..], pat) by {
        forall i: nat | i <= |s[1..]| && OccursAt(s[1..], pat, i)
          ensures false
        {
          assert s[1..][i..i + |pat|] == s[i + 1..i + 1 + |pat|];
          assert OccursAt(s, pat, i + 1);
        }
      }
      ReplaceAllAbsent(s[1..], pat, rep);
      assert s == [s[0]] + s[1..];
    }
  }

  /** A prefix in which no occurrence of `pat` can start is copied as it is,
      and the scan continues after it. */
  /** Where `pat` does not start, the first character is kept as it is. */
  lemma ReplaceAllKeepFirst(s: string, pat: string, rep: string)
    requires |pat| > 0 && s != [] && !OccursAt(s, pat, 0)
    ensures ReplaceAll(s, pat, rep) == [s[0]] + ReplaceAll(s[1..], pat, rep)
  {
    if |s| < |pat| {
      assert ReplaceAll(s[1..], pat, rep) == s[1..];
      assert s == [s[0]] + s[1..];
    }
  }

  /** An occurrence in the text after its first character is one in the
      whole text, one position on. */
  lemma OccursShift(s: string, pat: string, j: nat)
    requires s != []
    ensures OccursAt(s[1..], pat, j) == OccursAt(s, pat, j + 1)
  {
    if j + 1 + |pat| <= |s| {
      assert s[j + 1..j + 1 + |pat|] == s[1..][j..j + |pat|];
    }
  }

  /** Text with no occurrence starting in its first `|a|` positions keeps
      that property once its first character is dropped. */
  lemma NoOccurrenceTail(a: string, b: string, pat: string)
    requires a != []
    requires forall j: nat :: j < |a| ==> !OccursAt(a + b, pat, j)
    ensures forall j: nat :: j < |a[1..]| ==> !OccursAt(a[1..] + b, pat, j)
  {
    var s := a + b;
    assert s[1..] == a[1..] + b;
    forall j: nat | j < |a[1..]|
      ensures !OccursAt(a[1..] + b, pat, j)
    {
      OccursShift(s, pat, j);
    }
  }

  /** One step of `ReplaceAllSkip`: a first character where `pat` does not
      start is kept in front of the rest. */
  lemma ReplaceAllSkipStep(a: string, b: string, pat: string, rep: string, r: string)
    requires |pat| > 0 && a != [] && !OccursAt(a + b, pat, 0)
    requires ReplaceAll(a[1..] + b, pat, rep) == a[1..] + r
    ensures ReplaceAll(a + b, pat, rep) == a + r
  {
    var s := a + b;
    assert s[0] == a[0] && s[1..] == a[1..] + b;
    ReplaceAllKeepFirst(s, pat, rep);
    assert a == [a[0]] + a[1..];
  }

  lemma {:induction false} ReplaceAllSkip(a: string, b: string, pat: string, rep: string)
    requires |pat| > 0
    requires forall j: nat :: j < |a| ==> !OccursAt(a + b, pat, j)
    ensures ReplaceAll(a + b, pat, rep) == a + ReplaceAll(b, pat, rep)
    decreases |a|
  {
    if a != [] {
      NoOccurrenceTail(a, b, pat);
      ReplaceAllSkip(a[1..], b, pat, rep);
      ReplaceAllSkipStep(a, b, pat, rep, ReplaceAll(b, pat, rep));
    } else {
      assert a + b == b;
    }
  }




  /** A character that cannot be part of `pat` splits the text: each side is
      replaced on its own. */
  lemma {:induction false} ReplaceAllAround(x: string, c: char, y: string, pat: string, rep: string)
    requires |pat| > 0 && c !in pat
    ensures ReplaceAll(x + [c] + y, pat, rep) == ReplaceAll(x, pat, rep) + [c] + ReplaceAll(y, pat, rep)
    decreases |x|
  {
    var s := x + [c] + y;
    if x == [] {
      assert s == [c] + y;
      if |s| >= |pat| {
        assert s[..|pat|][0] == c;
        assert s[1..] == y;
      } else {
        assert ReplaceAll(y, pat, rep) == y;
      }
    } else if OccursAt(x, pat, 0) {
      AroundMatch(x, c, y, pat, rep);
    } else {
      AroundNoMatch(x, c, y, pat, rep);
    }
  }

  lemma {:induction false} AroundMatch(x: string, c: char, y: string, pat: string, rep: string)
    requires |pat| > 0 && c !in pat && OccursAt(x, pat, 0)
    ensures ReplaceAll(x + [c] + y, pat, rep) == ReplaceAll(x, pat, rep) + [c] + ReplaceAll(y, pat, rep)
    decreases |x|, 0
  {
    var s := x + [c] + y;
    var x' := x[|pat|..];
    assert s[..|pat|] == pat;
    assert s[|pat|..] == x' + [c] + y;
    ReplaceAllAround(x', c, y, pat, rep);
    assert ReplaceAll(x, pat, rep) == rep + ReplaceAll(x', pat, rep);
  }

  lemma {:induction false} AroundNoMatch(x: string, c: char, y: string, pat: string, rep: string)
    requires |pat| > 0 && c !in pat && x != [] && !OccursAt(x, pat, 0)
    ensures ReplaceAll(x + [c] + y, pat, rep) == ReplaceAll(x, pat, rep) + [c] + ReplaceAll(y, pat, rep)
    decreases |x|, 0
  {
    var s := x + [c] + y;
    var x' := x[1..];
    assert s[0] == x[0] && s[1..] == x' + [c] + y;
    NoMatchBeforeChar(x, c, y, pat);
    ReplaceAllAround(x', c, y, pat, rep);
    ReplaceAllKeepFirst(s, pat, rep);
    ReplaceAllKeepFirst(x, pat, rep);
    ConsAround(x[0], ReplaceAll(x', pat, rep), c, ReplaceAll(y, pat, rep));
  }

  lemma ConsAround(h: char, u: string, c: char, v: string)
    ensures [h] + (u + [c] + v) == [h] + u + [c] + v
  {
  }

  /** `pat` cannot start at the front of `x + [c] + y` when it does not start
      at the front of `x` and cannot contain `c`. */
  lemma NoMatchBeforeChar(x: string, c: char, y: string, pat: string)
    requires c !in pat && !OccursAt(x, pat, 0)
    ensures !OccursAt(x + [c] + y, pat, 0)
  {
    var s := x + [c] + y;
    if |pat| <= |s| {
      if |pat| <= |x| {
        assert s[..|pat|] == x[..|pat|];
      } else {
        assert s[..|pat|][|x|] == c;
      }
    }
  }


  /** An occurrence at the front is replaced, and the scan continues after it. */
  lemma ReplaceAllFront(b: string, pat: string, rep: string)
    requires |pat| > 0
    ensures ReplaceAll(pat + b, pat, rep) == rep + ReplaceAll(b, pat, rep)
  {
    assert (pat + b)[..|pat|] == pat;
    assert (pat + b)[|pat|..] == b;
  }

  /** Splitting at a character: the text before its first occurrence is
      the first piece. */
  lemma {:induction false} SplitAtChar(x: string, c: char, y: string)
    requires c !in x
    ensures Split(x + [c] + y, [c]) == [x] + Split(y, [c])
    decreases |x|
  {
    var s := x + [c] + y;
    if x == [] {
      assert s[..1] == [c] && s[1..] == y;
    } else {
      assert s[..1] == [x[0]] && s[1..] == x[1..] + [c] + y;
      SplitAtChar(x[1..], c, y);
      assert [x[0]] + x[1..] == x;
    }
  }

  /** Text without the separator character splits into itself alone. */
  lemma {:induction false} SplitWithoutChar(x: string, c: char)
    requires c !in x
    ensures Split(x, [c]) == [x]
    decreases |x|
  {
    if x != [] {
      assert x[..1] == [x[0]];
      SplitWithoutChar(x[1..], c);
      assert [x[0]] + x[1..] == x;
    }
  }

  /** Replacing one character by another acts character by character. */
  lemma {:induction false} ReplaceCharAt(s: string, a: char, b: char)
    ensures |ReplaceAll(s, [a], [b])| == |s|
    ensures forall i :: 0 <= i < |s| ==>
      ReplaceAll(s, [a], [b])[i] == if s[i] == a then b else s[i]
    decreases |s|
  {
    if s != [] {
      ReplaceCharAt(s[1..], a, b);
      assert s[..1] == [s[0]];
    }
  }
}
