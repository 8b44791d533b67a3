/**
 * `extractCookie(cookieStr, cookieName)`: the hand-written scanner the flash,
 * CSRF and session middleware use to read one cookie out of the `Cookie`
 * request header. It finds the name anywhere in the header (not only at the
 * start of a pair), skips to the next `=`, and reads up to the next `;`,
 * without trimming. `null` is `None`.
 */
module Cookies {
  import opened Js
  import opened Wrappers

  /** `s.indexOf(w, from)`: the first occurrence at or after `from`, or -1. */
  function IndexOfFrom(s: string, w: string, from: nat): (i: int)
    ensures i == -1 || (from <= i && OccursAt(s, w, i))
    ensures forall j :: from <= j < (if i < 0 then |s| + 1 else i) ==> !OccursAt(s, w, j)
    decreases |s| + 1 - from
  {
    if from > |s| then -1
    else if OccursAt(s, w, from) then from
    else IndexOfFrom(s, w, from + 1)
  }

  /** `s.indexOf(w)` */
  function IndexOf(s: string, w: string): (i: int)
    ensures i < 0 <==> !Occurs(s, w)
    ensures i >= 0 ==> OccursAt(s, w, i) && forall j :: 0 <= j < i ==> !OccursAt(s, w, j)
  {
    IndexOfFrom(s, w, 0)
  }

  /** The first index at or after `from` holding `c`, or `|s|` when there is none. */
  function Scan(s: string, from: nat, c: char): (k: nat)
    requires from <= |s|
    ensures from <= k <= |s|
    ensures k < |s| ==> s[k] == c
    ensures forall j :: from <= j < k ==> s[j] != c
    decreases |s| - from
  {
    if from == |s| || s[from] == c then from else Scan(s, from + 1, c)
  }

  /** `Scan` is determined by its contract: the first match from `from` on. */
  lemma {:induction false} ScanIsFirst(s: string, from: nat, c: char, k: nat)
    requires from <= k <= |s|
    requires k < |s| ==> s[k] == c
    requires forall j :: from <= j < k ==> s[j] != c
    ensures Scan(s, from, c) == k
    decreases |s| - from
  {
    if from < k {
      ScanIsFirst(s, from + 1, c, k);
    }
  }

  /**
   * What the scanner returns. The first loop stops at the first `=` from the
   * match on, or at the end; the value starts one past it and runs to the next
   * `;` or the end. When there is no `=` the start lies past the end and the
   * slice is empty.
   */
  function ExtractCookieSpec(header: Option<string>, name: string): (r: Option<string>)
    ensures r.None? <==> header.None? || header.value == "" || !Occurs(header.value, name)
  {
    if header.None? || header.value == "" then None
    else
      var s := header.value;
      var i := IndexOf(s, name);
      if i < 0 then None
      else
        var eq := Scan(s, i, '=');
        if eq == |s| then Some("")
        else Some(s[eq + 1..Scan(s, eq + 1, ';')])
  }

  /** The scanner itself: two index-advancing loops and a slice. */
  method ExtractCookie(header: Option<string>, name: string) returns (r: Option<string>)
    ensures r == ExtractCookieSpec(header, name)
  {
    if header.None? || header.value == "" {
      return None;
    }
    var s := header.value;
    var startIndex := IndexOf(s, name);
    if startIndex < 0 {
      return None;
    }
    while startIndex < |s| && s[startIndex] != '='
      invariant IndexOf(s, name) <= startIndex <= |s|
      invariant forall j :: IndexOf(s, name) <= j < startIndex ==> s[j] != '='
      decreases |s| - startIndex
    {
      startIndex := startIndex + 1;
    }
    assert startIndex == Scan(s, IndexOf(s, name), '=');
    startIndex := startIndex + 1;
    var endIndex := startIndex;
    while endIndex < |s| && s[endIndex] != ';'
      invariant startIndex <= endIndex
      invariant endIndex <= |s| || endIndex == startIndex
      invariant forall j :: startIndex <= j < endIndex ==> s[j] != ';'
      decreases |s| + 1 - endIndex
    {
      endIndex := endIndex + 1;
    }
    // `slice` clamps both ends to the length
    if startIndex > |s| {
      r := Some("");
    } else {
      assert endIndex == Scan(s, startIndex, ';');
      r := Some(s[startIndex..endIndex]);
    }
  }

  /** A found value never contains the pair separator, and it sits right after an `=` the scan reached. */
  lemma {:induction false} ExtractedValueShape(s: string, name: string)
    requires ExtractCookieSpec(Some(s), name).Some?
    ensures ';' !in ExtractCookieSpec(Some(s), name).value
    ensures var v := ExtractCookieSpec(Some(s), name).value;
            v == [] || exists k :: 1 <= k <= |s| - |v| && s[k - 1] == '=' && OccursAt(s, v, k)
                                   && (k + |v| == |s| || s[k + |v|] == ';')
  {
    var i := IndexOf(s, name);
    var eq := Scan(s, i, '=');
    if eq < |s| {
      var e := Scan(s, eq + 1, ';');
      var v := s[eq + 1..e];
      assert forall j :: 0 <= j < |v| ==> v[j] == s[eq + 1 + j];
      assert OccursAt(s, v, eq + 1);
    }
  }

  /**
   * The value of the first pair the name occurs in is read back whole: the scan
   * stops at that pair's `=` and at the `;` (or end) after the value. The name
   * is matched anywhere, so `pre` may end in the tail of a longer cookie name.
   */
  lemma {:induction false} ExtractCookieFindsFirstOccurrence(pre: string, name: string, value: string, tail: string)
    requires '=' !in name && ';' !in value
    requires tail == [] || tail[0] == ';'
    requires forall j :: 0 <= j < |pre| ==> !OccursAt(pre + name + "=" + value + tail, name, j)
    ensures ExtractCookieSpec(Some(pre + name + "=" + value + tail), name) == Some(value)
  {
    var s := pre + name + "=" + value + tail;
    var p := |pre|;
    var q := p + |name|;
    assert s[p..q] == name;
    assert OccursAt(s, name, p);
    assert IndexOf(s, name) == p;
    assert forall j :: p <= j < q ==> s[j] == name[j - p];
    assert s[q] == '=';
    ScanIsFirst(s, p, '=', q);
    var e := q + 1 + |value|;
    assert forall j :: q + 1 <= j < e ==> s[j] == value[j - q - 1];
    assert e < |s| ==> s[e] == tail[0];
    ScanIsFirst(s, q + 1, ';', e);
    assert s[q + 1..e] == value;
  }

  /** A header holding just `name=value` gives back the value. */
  lemma ExtractCookieRoundTrip(name: string, value: string)
    requires '=' !in name && ';' !in value
    ensures ExtractCookieSpec(Some(name + "=" + value), name) == Some(value)
  {
    assert "" + name + "=" + value + "" == name + "=" + value;
    ExtractCookieFindsFirstOccurrence("", name, value, "");
  }
}
