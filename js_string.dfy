/**
 * The few ECMAScript string operations the scraper relies on:
 * `trim`, `includes`, `indexOf` and `replace` with a string pattern
 * (which replaces only the first occurrence). Strings are sequences of
 * code points, not UTF-16 code units, and `replace` does not interpret `$`
 * substitution patterns in its replacement text.
 */
module JsString {
  import opened Wrappers

  /** ECMAScript WhiteSpace and LineTerminator code points, the set `String.prototype.trim` strips. */
  predicate IsWhitespace(c: char)
  {
    c == '\t' || c == '\n' || c == '\U{B}' || c == '\U{C}' || c == '\r' || c == ' ' ||
    c == '\U{A0}' || c == '\U{1680}' || ('\U{2000}' <= c <= '\U{200A}') ||
    c == '\U{2028}' || c == '\U{2029}' || c == '\U{202F}' || c == '\U{205F}' ||
    c == '\U{3000}' || c == '\U{FEFF}'
  }

  /** No leading or trailing whitespace. */
  predicate IsTrimmed(s: string)
  {
    s == [] || (!IsWhitespace(s[0]) && !IsWhitespace(s[|s| - 1]))
  }

  /** Drops leading whitespace. */
  function TrimStart(s: string): (r: string)
    ensures |r| <= |s|
  {
    if s != [] && IsWhitespace(s[0]) then TrimStart(s[1..]) else s
  }

  /** Leading trimming keeps a suffix of `s` that does not start with whitespace, and drops only whitespace. */
  lemma {:induction false} TrimStartSpec(s: string)
    ensures var r := TrimStart(s);
      |r| <= |s| && r == s[|s| - |r|..] &&
      (r == [] || !IsWhitespace(r[0])) &&
      forall i :: 0 <= i < |s| - |r| ==> IsWhitespace(s[i])
  {
    if s != [] && IsWhitespace(s[0]) {
      TrimStartSpec(s[1..]);
      var r := TrimStart(s);
      forall i | 0 <= i < |s| - |r| ensures IsWhitespace(s[i]) {
        if i > 0 { assert s[i] == s[1..][i - 1]; }
      }
    }
  }

  /** Drops trailing whitespace. */
  function TrimEnd(s: string): (r: string)
    ensures |r| <= |s|
  {
    if s != [] && IsWhitespace(s[|s| - 1]) then TrimEnd(s[..|s| - 1]) else s
  }

  /** Trailing trimming keeps a prefix of `s` that does not end with whitespace, and drops only whitespace. */
  lemma {:induction false} TrimEndSpec(s: string)
    ensures var r := TrimEnd(s);
      |r| <= |s| && r == s[..|r|] &&
      (r == [] || !IsWhitespace(r[|r| - 1])) &&
      forall i :: |r| <= i < |s| ==> IsWhitespace(s[i])
  {
    if s != [] && IsWhitespace(s[|s| - 1]) {
      TrimEndSpec(s[..|s| - 1]);
    }
  }

  /** `s.trim()`. */
  function Trim(s: string): (r: string)
    ensures IsTrimmed(r)
    ensures |r| <= |s|
  {
    TrimStartSpec(s);
    TrimEndSpec(TrimStart(s));
    TrimEnd(TrimStart(s))
  }

  /** Trim keeps a window of `s`, starting at the first non-whitespace character, and drops only whitespace around it. */
  lemma TrimWindow(s: string)
    ensures var a, t := |s| - |TrimStart(s)|, Trim(s);
      a + |t| <= |s| && t == s[a..a + |t|] &&
      (forall i :: 0 <= i < a ==> IsWhitespace(s[i])) &&
      (forall i :: a + |t| <= i < |s| ==> IsWhitespace(s[i]))
  {
    var u := TrimStart(s);
    TrimStartSpec(s);
    TrimEndSpec(u);
    var a, t := |s| - |u|, Trim(s);
    assert u == s[a..];
    assert t == u[..|t|];
    forall i | a + |t| <= i < |s| ensures IsWhitespace(s[i]) {
      assert s[i] == u[i - a];
    }
  }

  /** A string that is already trimmed is left alone. */
  lemma TrimTrimmed(s: string)
    requires IsTrimmed(s)
    ensures Trim(s) == s
  {
    assert TrimStart(s) == s;
  }

  /** `pat` occurs in `s` at position `i`. */
  predicate MatchAt(s: string, pat: string, i: nat)
  {
    i + |pat| <= |s| && s[i..i + |pat|] == pat
  }

  /** Matching in the tail of `s` is matching one position further in `s`. */
  lemma MatchAtTail(s: string, pat: string)
    requires s != []
    ensures forall j: nat :: 1 <= j ==> (MatchAt(s, pat, j) <==> MatchAt(s[1..], pat, j - 1))
  {
    forall j: nat | 1 <= j ensures MatchAt(s, pat, j) <==> MatchAt(s[1..], pat, j - 1) {
      if j + |pat| <= |s| {
        assert s[1..][j - 1..j - 1 + |pat|] == s[j..j + |pat|];
      }
    }
  }

  /** `s.indexOf(pat)`, with `None` for -1: the first position where `pat` occurs. */
  function IndexOf(s: string, pat: string): (r: Option<nat>)
    ensures r.Some? ==> r.value + |pat| <= |s|
  {
    if MatchAt(s, pat, 0) then Some(0)
    else if s == [] then None
    else
      match IndexOf(s[1..], pat)
      case None => None
      case Some(i) => Some(i + 1)
  }

  /** `indexOf` finds the first occurrence, and -1 means there is none. */
  lemma {:induction false} IndexOfSpec(s: string, pat: string)
    ensures var r := IndexOf(s, pat);
      (r.Some? ==> MatchAt(s, pat, r.value) && forall j :: 0 <= j < r.value ==> !MatchAt(s, pat, j)) &&
      (r.None? ==> forall j :: 0 <= j <= |s| ==> !MatchAt(s, pat, j))
  {
    if !MatchAt(s, pat, 0) && s != [] {
      MatchAtTail(s, pat);
      IndexOfSpec(s[1..], pat);
    }
  }

  /** `s.includes(pat)`. */
  predicate Contains(s: string, pat: string)
  {
    IndexOf(s, pat).Some?
  }

  /** `s.includes(pat)` holds exactly when `pat` occurs at some position. */
  lemma ContainsIff(s: string, pat: string)
    ensures Contains(s, pat) <==> exists i: nat :: MatchAt(s, pat, i)
  {
    IndexOfSpec(s, pat);
    if !Contains(s, pat) {
      forall i: nat ensures !MatchAt(s, pat, i) {
        if i <= |s| { assert !MatchAt(s, pat, i); }
      }
    }
  }

  /** Every string includes the empty string. */
  lemma ContainsEmpty(s: string)
    ensures Contains(s, "")
  {
    assert MatchAt(s, "", 0);
  }

  /** A string that includes `pre + rest` also includes `pre`. */
  lemma ContainsPrefixOf(s: string, pre: string, rest: string)
    requires Contains(s, pre + rest)
    ensures Contains(s, pre)
  {
    IndexOfSpec(s, pre + rest);
    var i := IndexOf(s, pre + rest).value;
    assert s[i..i + |pre|] == (pre + rest)[..|pre|] == pre;
    assert MatchAt(s, pre, i);
    ContainsIff(s, pre);
  }

  /** `s.replace(pat, rep)` with a string pattern: only the first occurrence is replaced. */
  function ReplaceFirst(s: string, pat: string, rep: string): string
  {
    match IndexOf(s, pat)
    case None => s
    case Some(i) => s[..i] + rep + s[i + |pat|..]
  }

  /** Replacing a one-character pattern by "" deletes the first occurrence of that character, if any. */
  lemma DeleteFirstChar(s: string, c: char)
    ensures !Contains(s, [c]) ==> ReplaceFirst(s, [c], "") == s
    ensures Contains(s, [c]) ==>
      exists i :: 0 <= i < |s| && s[i] == c && c !in s[..i] && ReplaceFirst(s, [c], "") == s[..i] + s[i + 1..]
  {
    IndexOfSpec(s, [c]);
    if Contains(s, [c]) {
      var i := IndexOf(s, [c]).value;
      assert s[i..i + 1] == [c];
      forall j | 0 <= j < i ensures s[..i][j] != c {
        assert !MatchAt(s, [c], j);
        assert s[j..j + 1] == [s[j]];
      }
      assert s[..i] + "" + s[i + 1..] == s[..i] + s[i + 1..];
    }
  }

  /**
   * `replace` leaves a string without `pat` alone; otherwise it splices `rep`
   * in place of the occurrence of `pat` that no earlier occurrence precedes.
   */
  lemma ReplaceFirstSpec(s: string, pat: string, rep: string)
    ensures !Contains(s, pat) ==> ReplaceFirst(s, pat, rep) == s
    ensures Contains(s, pat) ==>
      exists i: nat :: MatchAt(s, pat, i) && (forall j :: 0 <= j < i ==> !MatchAt(s, pat, j)) &&
                       ReplaceFirst(s, pat, rep) == s[..i] + rep + s[i + |pat|..]
    ensures Contains(s, pat) ==> |ReplaceFirst(s, pat, rep)| == |s| - |pat| + |rep|
  {
    IndexOfSpec(s, pat);
  }
}
