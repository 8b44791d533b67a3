/**
 * `deslugify` of the typed tree: separators become spaces, then every word
 * matched by `/([A-Z]+|[A-Z]?[a-z]+)(?=[A-Z]|\b)/g` gets a space after it and,
 * except for the first, is lower-cased; finally the result is trimmed.
 * "userName" becomes "user name", "HTTPServer" becomes "HTTP server".
 */
module Deslugify {
  import opened Js
  import opened Wrappers
  import Tools

  // ---------------------------------------------------------------------------
  // The pieces of the regular expression

  /** `\w` */
  predicate IsWordChar(c: char) {
    IsUpper(c) || IsLower(c) || ('0' <= c <= '9') || c == '_'
  }

  /** `\b` at position `q`: a word character on exactly one side. */
  predicate Boundary(s: string, q: nat) {
    (0 < q <= |s| && IsWordChar(s[q - 1])) != (q < |s| && IsWordChar(s[q]))
  }

  /** `(?=[A-Z]|\b)` at position `q` */
  predicate Lookahead(s: string, q: nat) {
    (q < |s| && IsUpper(s[q])) || Boundary(s, q)
  }

  /** The length of the run of upper-case letters starting at `p`. */
  function UpperRun(s: string, p: nat): (n: nat)
    requires p <= |s|
    ensures p + n <= |s|
    ensures forall j :: p <= j < p + n ==> IsUpper(s[j])
    ensures p + n == |s| || !IsUpper(s[p + n])
    decreases |s| - p
  {
    if p < |s| && IsUpper(s[p]) then 1 + UpperRun(s, p + 1) else 0
  }

  /** The length of the run of lower-case letters starting at `p`. */
  function LowerRun(s: string, p: nat): (n: nat)
    requires p <= |s|
    ensures p + n <= |s|
    ensures forall j :: p <= j < p + n ==> IsLower(s[j])
    ensures p + n == |s| || !IsLower(s[p + n])
    decreases |s| - p
  {
    if p < |s| && IsLower(s[p]) then 1 + LowerRun(s, p + 1) else 0
  }

  /**
   * The length of the match starting at `p`, if any. The first alternative
   * backtracks from the longest run of capitals; every shorter run is followed
   * by a capital, so at most one step back is needed. In the second
   * alternative a shorter lower-case run is followed by a lower-case letter,
   * which is neither a capital nor a boundary, so only the longest run can match.
   */
  function MatchAt(s: string, p: nat): (r: Option<nat>)
    requires p < |s|
    ensures r.Some? ==> 1 <= r.value && p + r.value <= |s|
    ensures r.Some? ==> forall j :: p <= j < p + r.value ==> IsUpper(s[j]) || IsLower(s[j])
    ensures r.Some? ==> Lookahead(s, p + r.value)
  {
    var m := UpperRun(s, p);
    if m >= 1 && Lookahead(s, p + m) then Some(m)
    else if m >= 2 then Some(m - 1)
    else if m == 1 && LowerRun(s, p + 1) >= 1 && Lookahead(s, p + 1 + LowerRun(s, p + 1)) then Some(1 + LowerRun(s, p + 1))
    else if m == 0 && LowerRun(s, p) >= 1 && Lookahead(s, p + LowerRun(s, p)) then Some(LowerRun(s, p))
    else None
  }

  /** What the replace callback returns for a match: the first word keeps its case. */
  function Replacement(x: string, first: bool): string {
    (if first then x else LowerString(x)) + " "
  }

  /** The global replace, scanning from `p`; `first` is the callback's `firstWord` flag. */
  function ReplaceWords(s: string, p: nat, first: bool): string
    requires p <= |s|
    decreases |s| - p
  {
    if p == |s| then []
    else match MatchAt(s, p)
      case Some(n) => Replacement(s[p..p + n], first) + ReplaceWords(s, p + n, false)
      case None => [s[p]] + ReplaceWords(s, p + 1, first)
  }

  // ---------------------------------------------------------------------------
  // trim

  /** The characters `String.prototype.trim` strips: white space and line terminators. */
  predicate IsSpace(c: char) {
    c == ' ' || c == '\t' || c == '\n' || c == '\r' || c == '\U{000B}' || c == '\U{000C}'
    || c == '\U{00A0}' || c == '\U{1680}' || ('\U{2000}' <= c <= '\U{200A}') || c == '\U{2028}'
    || c == '\U{2029}' || c == '\U{202F}' || c == '\U{205F}' || c == '\U{3000}' || c == '\U{FEFF}'
  }

  function TrimStart(s: string): (r: string)
    ensures |r| <= |s| && r == s[|s| - |r|..]
    ensures r == [] || !IsSpace(r[0])
    ensures forall j :: 0 <= j < |s| - |r| ==> IsSpace(s[j])
  {
    if s != [] && IsSpace(s[0]) then TrimStart(s[1..]) else s
  }

  function TrimEnd(s: string): (r: string)
    ensures |r| <= |s| && r == s[..|r|]
    ensures r == [] || !IsSpace(r[|r| - 1])
    ensures forall j :: |r| <= j < |s| ==> IsSpace(s[j])
  {
    if s != [] && IsSpace(s[|s| - 1]) then TrimEnd(s[..|s| - 1]) else s
  }

  /** `s.trim()` */
  function Trim(s: string): (r: string)
    ensures r == [] || (!IsSpace(r[0]) && !IsSpace(r[|r| - 1]))
  {
    TrimEnd(TrimStart(s))
  }

  /** `deslugify(str)` */
  function Deslugify(s: string): string {
    Trim(ReplaceWords(Tools.DeslugifyPlain(s), 0, true))
  }

  // ---------------------------------------------------------------------------
  // Deslugify only adds and removes white space and changes letter case.

  /** The text with every white-space character removed. */
  function Squash(s: string): (r: string)
    ensures |r| <= |s|
  {
    if s == [] then [] else (if IsSpace(s[0]) then [] else [s[0]]) + Squash(s[1..])
  }

  lemma {:induction false} SquashAppend(a: string, b: string)
    ensures Squash(a + b) == Squash(a) + Squash(b)
    decreases |a|
  {
    if a != [] {
      var h := if IsSpace(a[0]) then [] else [a[0]];
      SquashAppend(a[1..], b);
      assert (a + b)[0] == a[0] && (a + b)[1..] == a[1..] + b;
      calc {
        Squash(a + b);
        h + Squash(a[1..] + b);
        h + (Squash(a[1..]) + Squash(b));
        (h + Squash(a[1..])) + Squash(b);
        Squash(a) + Squash(b);
      }
    } else {
      assert a + b == b;
    }
  }

  lemma {:induction false} LowerAppend(a: string, b: string)
    ensures LowerString(a + b) == LowerString(a) + LowerString(b)
  {
    var l := LowerString(a + b);
    assert forall j :: 0 <= j < |l| ==> l[j] == (LowerString(a) + LowerString(b))[j];
  }

  lemma LowerIdempotent(a: string)
    ensures LowerString(LowerString(a)) == LowerString(a)
  {
    var l := LowerString(LowerString(a));
    assert forall j :: 0 <= j < |l| ==> l[j] == LowerString(a)[j];
  }

  lemma {:induction false} SquashTrimStart(s: string)
    ensures Squash(TrimStart(s)) == Squash(s)
  {
    if s != [] && IsSpace(s[0]) {
      SquashTrimStart(s[1..]);
    }
  }

  lemma {:induction false} SquashTrimEnd(s: string)
    ensures Squash(TrimEnd(s)) == Squash(s)
    decreases |s|
  {
    if s != [] && IsSpace(s[|s| - 1]) {
      SquashTrimEnd(s[..|s| - 1]);
      SquashAppend(s[..|s| - 1], [s[|s| - 1]]);
      assert s[..|s| - 1] + [s[|s| - 1]] == s;
    }
  }

  lemma SquashLowerAppend(a: string, b: string)
    ensures Squash(LowerString(a + b)) == Squash(LowerString(a)) + Squash(LowerString(b))
  {
    LowerAppend(a, b);
    SquashAppend(LowerString(a), LowerString(b));
  }

  lemma SquashLowerReplacement(x: string, first: bool)
    ensures Squash(LowerString(Replacement(x, first))) == Squash(LowerString(x))
  {
    var y := if first then x else LowerString(x);
    LowerIdempotent(x);
    SquashLowerAppend(y, " ");
    assert LowerString(y) == LowerString(x);
    assert Squash(LowerString(" ")) == [];
  }

  /** One step of the scan, stated on plain values. */
  lemma StepJoin(head: string, rest: string, x: string, tail: string)
    requires Squash(LowerString(head)) == Squash(LowerString(x))
    requires Squash(LowerString(rest)) == Squash(LowerString(tail))
    ensures Squash(LowerString(head + rest)) == Squash(LowerString(x + tail))
  {
    SquashLowerAppend(head, rest);
    SquashLowerAppend(x, tail);
  }

  lemma SliceJoin(s: string, p: nat, q: nat)
    requires p <= q <= |s|
    ensures s[p..] == s[p..q] + s[q..]
  {
  }

  /** Where the scan goes on after position `p`, and with which `firstWord` flag. */
  function NextPos(s: string, p: nat): (q: nat)
    requires p < |s|
    ensures p < q <= |s|
  {
    match MatchAt(s, p)
    case Some(n) => p + n
    case None => p + 1
  }

  function NextFirst(s: string, p: nat, first: bool): bool
    requires p < |s|
  {
    first && MatchAt(s, p).None?
  }

  /** What the scan emits for position `p`: the replaced word, or the character it skips. */
  function Emitted(s: string, p: nat, first: bool): string
    requires p < |s|
  {
    match MatchAt(s, p)
    case Some(n) => Replacement(s[p..p + n], first)
    case None => [s[p]]
  }

  lemma ReplaceWordsUnfold(s: string, p: nat, first: bool)
    requires p < |s|
    ensures ReplaceWords(s, p, first) == Emitted(s, p, first) + ReplaceWords(s, NextPos(s, p), NextFirst(s, p, first))
  {
  }

  lemma EmittedKeepsLetters(s: string, p: nat, first: bool)
    requires p < |s|
    ensures Squash(LowerString(Emitted(s, p, first))) == Squash(LowerString(s[p..NextPos(s, p)]))
  {
    match MatchAt(s, p)
    case Some(n) => SquashLowerReplacement(s[p..p + n], first);
    case None => assert s[p..p + 1] == [s[p]];
  }

  lemma StepCase(s: string, p: nat, first: bool)
    requires p < |s|
    requires Squash(LowerString(ReplaceWords(s, NextPos(s, p), NextFirst(s, p, first))))
             == Squash(LowerString(s[NextPos(s, p)..]))
    ensures Squash(LowerString(ReplaceWords(s, p, first))) == Squash(LowerString(s[p..]))
  {
    var q := NextPos(s, p);
    ReplaceWordsUnfold(s, p, first);
    EmittedKeepsLetters(s, p, first);
    SliceJoin(s, p, q);
    StepJoin(Emitted(s, p, first), ReplaceWords(s, q, NextFirst(s, p, first)), s[p..q], s[q..]);
  }

  /** The word replacement inserts white space and lower-cases, nothing more. */
  lemma {:induction false} ReplaceWordsKeepsLetters(s: string, p: nat, first: bool)
    requires p <= |s|
    ensures Squash(LowerString(ReplaceWords(s, p, first))) == Squash(LowerString(s[p..]))
    decreases |s| - p
  {
    if p == |s| {
      assert s[p..] == [];
    } else {
      ReplaceWordsKeepsLetters(s, NextPos(s, p), NextFirst(s, p, first));
      StepCase(s, p, first);
    }
  }

  lemma {:induction false} LowerSquashCommute(s: string)
    ensures LowerString(Squash(s)) == Squash(LowerString(s))
  {
    if s != [] {
      LowerSquashCommute(s[1..]);
      assert s == [s[0]] + s[1..];
      LowerAppend([s[0]], s[1..]);
      SquashAppend(LowerString([s[0]]), LowerString(s[1..]));
      LowerAppend(if IsSpace(s[0]) then [] else [s[0]], Squash(s[1..]));
    }
  }

  /**
   * Apart from white space and letter case, `deslugify` keeps the text: the
   * slug with its separators turned into spaces.
   */
  lemma DeslugifyKeepsLetters(s: string)
    ensures Squash(LowerString(Deslugify(s))) == Squash(LowerString(Tools.DeslugifyPlain(s)))
  {
    var t := Tools.DeslugifyPlain(s);
    var w := ReplaceWords(t, 0, true);
    ReplaceWordsKeepsLetters(t, 0, true);
    assert t[0..] == t;
    LowerSquashCommute(Deslugify(s));
    LowerSquashCommute(w);
    SquashTrimStart(w);
    SquashTrimEnd(TrimStart(w));
  }

  /** The result never begins or ends with white space and holds no separator. */
  lemma {:induction false} DeslugifyShape(s: string)
    ensures var r := Deslugify(s);
            (r == [] || (!IsSpace(r[0]) && !IsSpace(r[|r| - 1])))
            && forall j :: 0 <= j < |r| ==> !Tools.IsSlugSeparator(r[j])
  {
    var t := Tools.DeslugifyPlain(s);
    NoSeparatorsAfterReplace(t, 0, true);
    var w := ReplaceWords(t, 0, true);
    var r := Deslugify(s);
    assert forall j :: 0 <= j < |r| ==> r[j] in w;
  }

  lemma {:induction false} NoSeparatorsAfterReplace(s: string, p: nat, first: bool)
    requires p <= |s|
    requires forall j :: 0 <= j < |s| ==> !Tools.IsSlugSeparator(s[j])
    ensures forall c :: c in ReplaceWords(s, p, first) ==> !Tools.IsSlugSeparator(c)
    decreases |s| - p
  {
    if p < |s| {
      var rest := ReplaceWords(s, NextPos(s, p), NextFirst(s, p, first));
      NoSeparatorsAfterReplace(s, NextPos(s, p), NextFirst(s, p, first));
      ReplaceWordsUnfold(s, p, first);
      EmittedNoSeparator(s, p, first);
      assert forall c :: c in Emitted(s, p, first) + rest ==> c in Emitted(s, p, first) || c in rest;
    }
  }

  /** A word the pattern matches is made of letters, and a skipped character is copied. */
  lemma EmittedNoSeparator(s: string, p: nat, first: bool)
    requires p < |s| && !Tools.IsSlugSeparator(s[p])
    ensures forall c :: c in Emitted(s, p, first) ==> !Tools.IsSlugSeparator(c)
  {
    match MatchAt(s, p)
    case Some(n) =>
      var x := s[p..p + n];
      assert forall j :: 0 <= j < |x| ==> x[j] == s[p + j];
      ReplacementNoSeparator(x, first);
    case None =>
  }

  lemma ReplacementNoSeparator(x: string, first: bool)
    requires forall j :: 0 <= j < |x| ==> IsUpper(x[j]) || IsLower(x[j])
    ensures forall c :: c in Replacement(x, first) ==> !Tools.IsSlugSeparator(c)
  {
    var y := if first then x else LowerString(x);
    assert forall j :: 0 <= j < |y| ==> IsUpper(y[j]) || IsLower(y[j]);
    assert Replacement(x, first) == y + " ";
  }

  // ---------------------------------------------------------------------------
  // The doubled space. The callback appends a space to each word, and the space
  // the first replace put between two words is still there, so every gap
  // between two words holds two spaces. The evidently intended text has one.

  /** The words of "a b": "b" at 2, nothing at the space, "a" at 0. */
  lemma SpacedWordsMatch()
    ensures MatchAt("a b", 2) == Some(1)
    ensures MatchAt("a b", 1) == None
    ensures MatchAt("a b", 0) == Some(1)
  {
    var t := "a b";
    assert UpperRun(t, 3) == 0 && LowerRun(t, 3) == 0;
    assert UpperRun(t, 2) == 0 && LowerRun(t, 2) == 1;
    assert Boundary(t, 3);
    assert UpperRun(t, 1) == 0 && LowerRun(t, 1) == 0;
    assert UpperRun(t, 0) == 0 && LowerRun(t, 0) == 1;
    assert Boundary(t, 1);
  }

  /** The replace over "a b" gives "a  b ". */
  lemma SpacedWordsReplace()
    ensures ReplaceWords("a b", 0, true) == "a  b "
  {
    var t := "a b";
    SpacedWordsMatch();
    assert ReplaceWords(t, 3, false) == [];
    assert t[2..3] == "b";
    assert ReplaceWords(t, 2, false) == LowerString("b") + " ";
    assert LowerString("b") == "b";
    assert ReplaceWords(t, 1, false) == [' '] + "b ";
    assert t[0..1] == "a";
    assert ReplaceWords(t, 0, true) == "a " + " b ";
  }

  /** The separator of "a_b" becomes a space. */
  lemma PlainSpaced()
    ensures Tools.DeslugifyPlain("a_b") == "a b"
  {
    var t := Tools.DeslugifyPlain("a_b");
    assert |t| == 3 && t[0] == 'a' && t[1] == ' ' && t[2] == 'b';
  }

  /** Trimming "a  b " drops the trailing space only. */
  lemma TrimDoubled()
    ensures Trim("a  b ") == "a  b"
  {
    var u := "a  b ";
    assert TrimStart(u) == u;
    var v := TrimEnd(u);
    assert u[..4] == "a  b";
    assert |v| == 4;
  }

  /** "a_b" deslugifies to "a  b", with two spaces, as written. */
  lemma DeslugifyDoublesSpace()
    ensures Deslugify("a_b") == "a  b"
  {
    PlainSpaced();
    SpacedWordsReplace();
    TrimDoubled();
  }

  /** Each run of spaces replaced by one space. */
  function Collapse(t: string): (r: string)
    ensures |r| <= |t|
    ensures t != [] ==> r != [] && r[0] == t[0] && r[|r| - 1] == t[|t| - 1]
    ensures forall j :: 0 <= j < |r| - 1 ==> !(r[j] == ' ' && r[j + 1] == ' ')
  {
    if |t| < 2 then t
    else if t[0] == ' ' && t[1] == ' ' then Collapse(t[1..])
    else [t[0]] + Collapse(t[1..])
  }

  /** Collapsing removes spaces only. */
  lemma {:induction false} SquashCollapse(t: string)
    ensures Squash(Collapse(t)) == Squash(t)
  {
    if |t| >= 2 {
      var rest := t[1..];
      SquashCollapse(rest);
      assert t == [t[0]] + rest;
      SquashAppend([t[0]], rest);
      if t[0] == ' ' && t[1] == ' ' {
        assert Squash([t[0]]) == [];
      } else {
        SquashAppend([t[0]], Collapse(rest));
      }
    }
  }

  /** `deslugify` with one space between words: the text as written, each run of spaces collapsed. */
  function DeslugifySpaced(s: string): (r: string)
    ensures r == [] || (!IsSpace(r[0]) && !IsSpace(r[|r| - 1]))
    ensures forall j :: 0 <= j < |r| - 1 ==> !(r[j] == ' ' && r[j + 1] == ' ')
  {
    Collapse(Deslugify(s))
  }

  /**
   * The corrected `deslugify` is trimmed, never holds two spaces in a row, and
   * keeps the slug's text up to white space and case.
   */
  lemma DeslugifySpacedKeepsLetters(s: string)
    ensures Squash(LowerString(DeslugifySpaced(s))) == Squash(LowerString(Tools.DeslugifyPlain(s)))
  {
    var d := Deslugify(s);
    DeslugifyKeepsLetters(s);
    LowerSquashCommute(Collapse(d));
    LowerSquashCommute(d);
    SquashCollapse(d);
  }

  /** The doubled space of "a  b" collapses to one. */
  lemma CollapseDoubled()
    ensures Collapse("a  b") == "a b"
  {
    var u := "a  b";
    assert u[1..] == "  b" && u[1..][1..] == " b";
    assert Collapse(" b") == " b";
    assert Collapse("  b") == " b";
  }

  /** "a_b" deslugifies to "a b" once the spaces are collapsed. */
  lemma DeslugifySpacedSingleSpace()
    ensures DeslugifySpaced("a_b") == "a b"
  {
    DeslugifyDoublesSpace();
    CollapseDoubled();
  }
}
