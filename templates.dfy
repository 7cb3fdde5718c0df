/** Text templates as the scaffolder writes them: Go string constants in
    which placeholders of the form `{{.name}}` stand for values. A template
    is kept as its sequence of lines, and a line as a sequence of pieces:
    literal text without an opening brace, a single opening brace, or a
    placeholder.
    The places where values go, and the braces that could start one, are
    thus explicit; `Text` gives the string the source holds (every template
    of the source ends in a newline). */
module Templates {
  import opened GoStrings

  datatype Piece = Lit(text: string) | Open | Slot(name: string)

  /** One line of a template, without its newline. */
  type Line = seq<Piece>

  type Template = seq<Line>

  /** The placeholder token `{{.name}}`. */
  function Token(name: string): string {
    "{{." + name + "}}"
  }

  function PieceText(p: Piece): string {
    match p
    case Lit(t) => t
    case Open => "{"
    case Slot(n) => Token(n)
  }

  function LineText(l: Line): string {
    if l == [] then [] else PieceText(l[0]) + LineText(l[1..])
  }

  /** Strings joined as lines: each followed by a newline. */
  function JoinLines(ls: seq<string>): string {
    if ls == [] then [] else ls[0] + "\n" + JoinLines(ls[1..])
  }

  function LineTexts(t: Template): (r: seq<string>)
    ensures |r| == |t|
  {
    seq(|t|, k requires 0 <= k < |t| => LineText(t[k]))
  }

  /** The template as the string constant of the source. */
  function Text(t: Template): string {
    JoinLines(LineTexts(t))
  }

  predicate ValidName(n: string) {
    '{' !in n && '}' !in n && '\n' !in n
  }

  /** A placeholder name: no brace and no newline in it. */
  type Name = n: string | ValidName(n)

  type NonBrace = c: char | c != '{'

  /** Literal text that holds no opening brace. */
  function Plain(s: seq<NonBrace>): (p: Piece)
    ensures p.Lit? && p.text == s && '{' !in p.text
  {
    Lit(s)
  }

  predicate WellFormedPiece(p: Piece) {
    match p
    case Lit(t) => '{' !in t
    case Open => true
    case Slot(n) => ValidName(n)
  }

  /** Every placeholder token in the text of a well-formed line is one of
      its slots: literal text holds no brace, and an opening brace ends the
      line or is followed by literal text, so that no "{{" forms outside a
      slot. */
  predicate WellFormedLine(l: Line) {
    (forall i :: 0 <= i < |l| ==> WellFormedPiece(l[i]))
    && (forall i :: 0 <= i < |l| - 1 && l[i].Open? ==> l[i + 1].Lit? && l[i + 1].text != [])
  }

  predicate WellFormed(t: Template) {
    forall k :: 0 <= k < |t| ==> WellFormedLine(t[k])
  }

  /** A slot named in `env` becomes literal text holding its value; other
      pieces stay. */
  function SubstPiece(p: Piece, env: map<string, string>): Piece {
    if p.Slot? && p.name in env then Lit(env[p.name]) else p
  }

  function SubstLine(l: Line, env: map<string, string>): (r: Line)
    ensures |r| == |l|
  {
    seq(|l|, i requires 0 <= i < |l| => SubstPiece(l[i], env))
  }

  function Subst(t: Template, env: map<string, string>): (r: Template)
    ensures |r| == |t|
  {
    seq(|t|, k requires 0 <= k < |t| => SubstLine(t[k], env))
  }

  predicate BraceFreeValues(env: map<string, string>) {
    forall n :: n in env ==> '{' !in env[n]
  }

  // ---------------------------------------------------------------------
  // Properties

  lemma TokenShape(n: string)
    ensures |Token(n)| == |n| + 5
    ensures Token(n)[0] == '{' && Token(n)[1] == '{' && Token(n)[2] == '.'
    ensures Token(n)[|n| + 3] == '}' && Token(n)[|n| + 4] == '}'
    ensures forall k :: 0 <= k < |n| ==> Token(n)[k + 3] == n[k]
  {
  }

  /** The token of one name does not occur at any position inside the token
      of another. */
  lemma TokenNoOtherToken(m: string, b: string, n: string, j: nat)
    requires ValidName(m) && ValidName(n) && m != n
    requires j < |Token(m)|
    ensures !OccursAt(Token(m) + b, Token(n), j)
  {
    TokenShape(m);
    TokenShape(n);
    var u, t := Token(m), Token(n);
    var s := u + b;
    if j == 0 {
      if |n| < |m| {
        assert s[|n| + 3] == m[|n|] != t[|n| + 3];
      } else if |m| < |n| {
        assert s[|m| + 3] == '}' != t[|m| + 3];
      } else {
        assert s[..|t|] == u;
        assert u[3..|u| - 2] == m && t[3..|t| - 2] == n;
      }
    } else if j == 1 {
      assert s[2] == '.';
    } else {
      assert s[j] == u[j] != '{';
    }
  }

  lemma LineTextCons(p: Piece, l: Line)
    ensures LineText([p] + l) == PieceText(p) + LineText(l)
  {
    assert ([p] + l)[1..] == l;
  }

  /** The text of a line that starts with non-empty literal text starts
      with its first character. */
  lemma LineTextStart(l: Line)
    requires l != [] && l[0].Lit? && l[0].text != []
    ensures LineText(l) != [] && LineText(l)[0] == l[0].text[0]
  {
  }

  /** The first piece of a well-formed line is replaced on its own: an
      opening brace is not followed by another one. */
  lemma ReplaceFirstPiece(p: Piece, b: string, n: string, v: string)
    requires WellFormedPiece(p) && ValidName(n)
    requires p.Open? ==> b == [] || b[0] != '{'
    ensures ReplaceAll(PieceText(p) + b, Token(n), v)
      == PieceText(SubstPiece(p, map[n := v])) + ReplaceAll(b, Token(n), v)
  {
    var tok := Token(n);
    var a := PieceText(p);
    TokenShape(n);
    match p
    case Slot(m) =>
      if m == n {
        ReplaceAllFront(b, tok, v);
      } else {
        forall j: nat | j < |a| ensures !OccursAt(a + b, tok, j) {
          TokenNoOtherToken(m, b, n, j);
        }
        ReplaceAllSkip(a, b, tok, v);
      }
    case Open =>
      assert !OccursAt(a + b, tok, 0) by {
        if |tok| <= |a + b| {
          assert (a + b)[1] == b[0];
          assert (a + b)[..|tok|][1] == (a + b)[1];
        }
      }
      ReplaceAllSkip(a, b, tok, v);
    case Lit(x) =>
      forall j: nat | j < |a| ensures !OccursAt(a + b, tok, j) {
        if j + |tok| <= |a + b| {
          assert (a + b)[j..j + |tok|][0] == x[j];
        }
      }
      ReplaceAllSkip(a, b, tok, v);
  }

  /** One replace-all pass over a well-formed line replaces exactly its
      slots with that name by the value, and leaves all other text alone. */
  lemma {:induction false} ReplaceSlotInLine(l: Line, n: string, v: string)
    requires WellFormedLine(l) && ValidName(n)
    ensures ReplaceAll(LineText(l), Token(n), v) == LineText(SubstLine(l, map[n := v]))
  {
    var env := map[n := v];
    TokenShape(n);
    if l == [] {
      assert SubstLine(l, env) == [];
    } else {
      var rest := l[1..];
      assert WellFormedPiece(l[0]);
      assert WellFormedLine(rest) by {
        forall i | 0 <= i < |rest| ensures WellFormedPiece(rest[i]) {
          assert rest[i] == l[i + 1];
        }
        forall i | 0 <= i < |rest| - 1 && rest[i].Open?
          ensures rest[i + 1].Lit? && rest[i + 1].text != []
        {
          assert rest[i] == l[i + 1] && rest[i + 1] == l[i + 2];
        }
      }
      if l[0].Open? && rest != [] {
        LineTextStart(rest);
      }
      ReplaceSlotInLine(rest, n, v);
      ReplaceFirstPiece(l[0], LineText(rest), n, v);
      assert SubstLine(l, env) == [SubstPiece(l[0], env)] + SubstLine(rest, env);
      LineTextCons(SubstPiece(l[0], env), SubstLine(rest, env));
    }
  }

  /** The strings `ls` with `pat` replaced in each of them. */
  function ReplaceEach(ls: seq<string>, pat: string, rep: string): (r: seq<string>)
    requires |pat| > 0
    ensures |r| == |ls|
  {
    seq(|ls|, k requires 0 <= k < |ls| => ReplaceAll(ls[k], pat, rep))
  }

  /** A pattern without a newline is replaced line by line: no occurrence
      spans two lines. */
  lemma {:induction false} ReplaceByLine(ls: seq<string>, pat: string, rep: string)
    requires |pat| > 0 && '\n' !in pat
    ensures ReplaceAll(JoinLines(ls), pat, rep) == JoinLines(ReplaceEach(ls, pat, rep))
  {
    if ls != [] {
      ReplaceByLine(ls[1..], pat, rep);
      ReplaceAllAround(ls[0], '\n', JoinLines(ls[1..]), pat, rep);
      assert ReplaceEach(ls, pat, rep)[1..] == ReplaceEach(ls[1..], pat, rep);
    }
  }

  /** A replace-all pass for a placeholder over a well-formed template
      replaces exactly the slots with that name by the value, and leaves all
      other text alone. */
  lemma ReplaceSlot(t: Template, n: string, v: string)
    requires WellFormed(t) && ValidName(n)
    ensures ReplaceAll(Text(t), Token(n), v) == Text(Subst(t, map[n := v]))
  {
    TokenShape(n);
    ReplaceByLine(LineTexts(t), Token(n), v);
    forall k | 0 <= k < |t|
      ensures ReplaceEach(LineTexts(t), Token(n), v)[k] == LineTexts(Subst(t, map[n := v]))[k]
    {
      ReplaceSlotInLine(t[k], n, v);
    }
    assert ReplaceEach(LineTexts(t), Token(n), v) == LineTexts(Subst(t, map[n := v]));
  }

  /** Filling slots with brace-free values keeps a template well formed. */
  lemma SubstWellFormed(t: Template, env: map<string, string>)
    requires WellFormed(t) && BraceFreeValues(env)
    ensures WellFormed(Subst(t, env))
  {
    forall k | 0 <= k < |t| ensures WellFormedLine(Subst(t, env)[k]) {
      var l, m := t[k], Subst(t, env)[k];
      assert WellFormedLine(l);
      forall i | 0 <= i < |m| ensures WellFormedPiece(m[i]) {
        assert WellFormedPiece(l[i]);
      }
      forall i | 0 <= i < |m| - 1 && m[i].Open? ensures m[i + 1].Lit? && m[i + 1].text != [] {
        assert l[i].Open?;
      }
    }
  }

  /** Filling names that no slot has leaves a template as it is. */
  lemma SubstNoSlot(t: Template, env: map<string, string>)
    requires forall k, i :: 0 <= k < |t| && 0 <= i < |t[k]| && t[k][i].Slot? ==> t[k][i].name !in env
    ensures Subst(t, env) == t
  {
    forall k | 0 <= k < |t| ensures SubstLine(t[k], env) == t[k] {
    }
  }

  /** Two passes in a row fill as one pass whose earlier values win. */
  lemma SubstTwice(t: Template, e1: map<string, string>, e2: map<string, string>)
    ensures Subst(Subst(t, e1), e2) == Subst(t, e2 + e1)
  {
    forall k | 0 <= k < |t| ensures SubstLine(SubstLine(t[k], e1), e2) == SubstLine(t[k], e2 + e1) {
    }
  }
}
