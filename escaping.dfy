/**
 * `escapeHTML` and `escapeScript`: the two escapers the views rely on to embed
 * record data in markup.
 */
module Escaping {
  import opened Js
  import opened Wrappers
  import opened Errors

  // ---------------------------------------------------------------------------
  // escapeHTML: each of & < > " ' becomes its entity, every other character is kept

  predicate IsSpecial(c: char) {
    c == '&' || c == '<' || c == '>' || c == '"' || c == '\''
  }

  /** The replacement table of `escapeHTML`. */
  function Entity(c: char): string
    requires IsSpecial(c)
  {
    match c
    case '&' => "&amp;"
    case '<' => "&lt;"
    case '>' => "&gt;"
    case '"' => "&quot;"
    case '\'' => "&#039;"
  }

  function EscapeChar(c: char): string {
    if IsSpecial(c) then Entity(c) else [c]
  }

  /**
   * The global replace of `escapeHTML` on a string. The result holds no
   * character that could open a tag or end an attribute value.
   */
  function EscapeString(s: string): (r: string)
    ensures |r| >= |s|
    ensures forall i :: 0 <= i < |r| ==> r[i] != '<' && r[i] != '>' && r[i] != '"' && r[i] != '\''
  {
    if s == [] then [] else EscapeChar(s[0]) + EscapeString(s[1..])
  }

  /** `escapeHTML(str)`: the argument goes through `String()` first. */
  function EscapeHTML(v: Value): string {
    EscapeString(ToStr(v))
  }

  /** Decoding of the five entities, the inverse of `EscapeString`. */
  function Unescape(t: string): string {
    if t == [] then []
    else if t[0] != '&' then [t[0]] + Unescape(t[1..])
    else if StartsWith(t, "&amp;") then "&" + Unescape(t[5..])
    else if StartsWith(t, "&lt;") then "<" + Unescape(t[4..])
    else if StartsWith(t, "&gt;") then ">" + Unescape(t[4..])
    else if StartsWith(t, "&quot;") then "\"" + Unescape(t[6..])
    else if StartsWith(t, "&#039;") then "'" + Unescape(t[6..])
    else "&" + Unescape(t[1..])
  }

  lemma UnescapeStep(c: char, rest: string)
    ensures Unescape(EscapeChar(c) + rest) == [c] + Unescape(rest)
  {
    var t := EscapeChar(c) + rest;
    if c == '&' {
      assert t[..5] == "&amp;" && t[5..] == rest;
    } else if c == '<' {
      assert t[1] == 'l' && t[..4] == "&lt;" && t[4..] == rest;
    } else if c == '>' {
      assert t[1] == 'g' && t[..4] == "&gt;" && t[4..] == rest;
    } else if c == '"' {
      assert t[1] == 'q' && t[..6] == "&quot;" && t[6..] == rest;
    } else if c == '\'' {
      assert t[1] == '#' && t[..6] == "&#039;" && t[6..] == rest;
    } else {
      assert t[0] == c && t[1..] == rest;
    }
  }

  /** Escaping loses nothing: decoding the entities gives back the original text. */
  lemma {:induction false} EscapeRoundTrip(s: string)
    ensures Unescape(EscapeString(s)) == s
  {
    if s != [] {
      UnescapeStep(s[0], EscapeString(s[1..]));
      EscapeRoundTrip(s[1..]);
      assert [s[0]] + s[1..] == s;
    }
  }

  /** A text with none of the five special characters is left exactly as it is. */
  lemma {:induction false} EscapePlainIsIdentity(s: string)
    requires forall i :: 0 <= i < |s| ==> !IsSpecial(s[i])
    ensures EscapeString(s) == s
  {
    if s != [] {
      EscapePlainIsIdentity(s[1..]);
      assert [s[0]] + s[1..] == s;
    }
  }

  // ---------------------------------------------------------------------------
  // escapeScript: every "</script" becomes "</scri\pt", case-sensitively

  const Closing := "</script"
  const Neutralised := "</scri\\pt"

  /** The global, left-to-right, non-overlapping replace of `/<\/script/gm`. */
  function EscapeScriptString(s: string): string
    decreases |s|
  {
    if |s| >= 8 && s[..8] == Closing then Neutralised + EscapeScriptString(s[8..])
    else if s == [] then []
    else [s[0]] + EscapeScriptString(s[1..])
  }

  /** `escapeScript(script)`: `''` for a falsy script; a truthy non-string has no `replace`. */
  function EscapeScript(script: Value): (r: Result<string, Error>)
    ensures !Truthy(script) ==> r == Success("")
    ensures Truthy(script) && script.Str? ==> r == Success(EscapeScriptString(script.s))
    ensures Truthy(script) && !script.Str? ==> r.Failure? && r.error.TypeError?
    ensures r.Success? && Truthy(script) ==> script.Str? && !Occurs(r.value, Closing)
  {
    if !Truthy(script) then Success("")
    else if script.Str? then
      NoClosingTagSurvives(script.s);
      Success(EscapeScriptString(script.s))
    else Failure(TypeError("script.replace is not a function"))
  }

  /** If the escaped text starts with a word free of '<', so did the original. */
  lemma {:induction false} PrefixWithoutOpenIsKept(t: string, w: string)
    requires forall k :: 0 <= k < |w| ==> w[k] != '<'
    ensures StartsWith(EscapeScriptString(t), w) ==> StartsWith(t, w)
    decreases |t|
  {
    var e := EscapeScriptString(t);
    if w == [] {
    } else if |t| >= 8 && t[..8] == Closing {
      assert e == Neutralised + EscapeScriptString(t[8..]);
      assert e[0] == '<';
    } else if t != [] {
      var rest := EscapeScriptString(t[1..]);
      assert e == [t[0]] + rest;
      PrefixWithoutOpenIsKept(t[1..], w[1..]);
      if StartsWith(e, w) {
        assert rest[..|w| - 1] == w[1..];
        assert t[..|w|] == [t[0]] + t[1..][..|w| - 1];
      }
    }
  }

  /** After `escapeScript` no "</script" is left that could close the enclosing tag early. */
  lemma {:induction false} NoClosingTagSurvives(s: string)
    ensures !Occurs(EscapeScriptString(s), Closing)
    decreases |s|
  {
    var r := EscapeScriptString(s);
    if |s| >= 8 && s[..8] == Closing {
      var rest := EscapeScriptString(s[8..]);
      NoClosingTagSurvives(s[8..]);
      assert r == Neutralised + rest;
      forall i | 0 <= i <= |r| ensures !OccursAt(r, Closing, i) {
        if i >= 9 {
          if i + 8 <= |r| {
            assert r[i..i + 8] == rest[i - 9..i - 1];
          }
          assert !OccursAt(rest, Closing, i - 9);
        } else if i == 0 {
          assert r[..8][6] == r[6] == '\\';
        } else {
          assert r[i] == Neutralised[i] != '<';
          if i + 8 <= |r| {
            assert r[i..i + 8][0] == r[i];
          }
        }
      }
    } else if s != [] {
      var rest := EscapeScriptString(s[1..]);
      NoClosingTagSurvives(s[1..]);
      assert r == [s[0]] + rest;
      forall i | 0 <= i <= |r| ensures !OccursAt(r, Closing, i) {
        if i >= 1 {
          if i + 8 <= |r| {
            assert r[i..i + 8] == rest[i - 1..i + 7];
          }
          assert !OccursAt(rest, Closing, i - 1);
        } else {
          PrefixWithoutOpenIsKept(s[1..], "/script");
          if |r| >= 8 {
            assert r[..8] == [r[0]] + rest[..7];
            assert r[1..8] == rest[..7];
          }
          assert Closing == ['<'] + "/script" && Closing[1..] == "/script";
          if |s| >= 8 {
            assert s[..8] == [s[0]] + s[1..][..7];
          }
        }
      }
    }
  }

  /** Text before the first "</script" is copied unchanged, character for character. */
  lemma {:induction false} EscapeScriptKeepsPrefix(s: string, i: nat)
    requires i <= |s|
    requires forall j :: 0 <= j < i ==> !OccursAt(s, Closing, j)
    ensures EscapeScriptString(s) == s[..i] + EscapeScriptString(s[i..])
    decreases i
  {
    if i > 0 {
      EscapeScriptStep(s);
      var t := s[1..];
      forall j | 0 <= j < i - 1
        ensures !OccursAt(t, Closing, j)
      {
        OccursShift(s, Closing, j);
      }
      EscapeScriptKeepsPrefix(t, i - 1);
      SplitAfterFirst(s, i);
    }
  }

  /** An occurrence in the tail is an occurrence one place further in the whole. */
  lemma OccursShift(s: string, w: string, j: nat)
    requires s != []
    ensures OccursAt(s[1..], w, j) <==> OccursAt(s, w, j + 1)
  {
    if j + |w| <= |s| - 1 {
      assert s[1..][j..j + |w|] == s[j + 1..j + 1 + |w|];
    }
  }

  lemma SplitAfterFirst(s: string, i: nat)
    requires 0 < i <= |s|
    ensures s[..i] == [s[0]] + s[1..][..i - 1] && s[1..][i - 1..] == s[i..]
  {
  }

  /** Where no "</script" starts, one character is copied. */
  lemma EscapeScriptStep(s: string)
    requires s != [] && !OccursAt(s, Closing, 0)
    ensures EscapeScriptString(s) == [s[0]] + EscapeScriptString(s[1..])
  {
    assert |Closing| == 8;
    if |s| >= 8 {
      assert s[0..8] == s[..8];
    }
  }

  /** A text without "</script" is left exactly as it is. */
  lemma EscapeScriptPlain(s: string)
    requires !Occurs(s, Closing)
    ensures EscapeScriptString(s) == s
  {
    EscapeScriptKeepsPrefix(s, |s|);
    assert s[..|s|] == s;
    assert s[|s|..] == [];
  }

  /**
   * The first "</script" becomes "</scri\pt", the text before it is kept, and
   * the replace carries on after it: the left-to-right, non-overlapping global replace.
   */
  lemma EscapeScriptFirst(s: string, i: nat)
    requires OccursAt(s, Closing, i)
    requires forall j :: 0 <= j < i ==> !OccursAt(s, Closing, j)
    ensures EscapeScriptString(s) == s[..i] + Neutralised + EscapeScriptString(s[i + 8..])
  {
    EscapeScriptKeepsPrefix(s, i);
    var t := s[i..];
    assert t[..8] == Closing;
    assert t[8..] == s[i + 8..];
  }
}
