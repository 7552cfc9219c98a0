/** The JavaScript string operations the bot relies on, restricted to ASCII:
    `toLowerCase`, `toUpperCase` of one character, `trim`, `indexOf`,
    `includes`, `startsWith`, `endsWith`, `replace` with a string pattern,
    `split` on one character and `split(/\s+/)`. */
module Text {

  /** The characters `trim` removes and `\s` matches (ASCII part). */
  predicate IsWhite(c: char) {
    c == ' ' || c == '\t' || c == '\n' || c == '\r' || c == '\U{000B}' || c == '\U{000C}'
  }

  /** The characters `\w` matches. */
  predicate IsWordChar(c: char) {
    ('a' <= c <= 'z') || ('A' <= c <= 'Z') || ('0' <= c <= '9') || c == '_'
  }

  predicate NoWhite(s: string) {
    forall i :: 0 <= i < |s| ==> !IsWhite(s[i])
  }

  function LowerChar(c: char): char {
    if 'A' <= c <= 'Z' then (c as int + 32) as char else c
  }

  function UpperChar(c: char): char {
    if 'a' <= c <= 'z' then (c as int - 32) as char else c
  }

  /** `s.toLowerCase()` on ASCII letters. */
  function Lower(s: string): (r: string)
    ensures |r| == |s|
    ensures forall i :: 0 <= i < |s| ==> r[i] == LowerChar(s[i])
  {
    seq(|s|, i requires 0 <= i < |s| => LowerChar(s[i]))
  }

  /** Lowering twice is lowering once, so a key that is already lowered
      finds the same record when it is lowered again. */
  lemma LowerIdempotent(s: string)
    ensures Lower(Lower(s)) == Lower(s)
  {
    assert forall i :: 0 <= i < |s| ==> LowerChar(LowerChar(s[i])) == LowerChar(s[i]);
  }

  /** The string with its first character upper-cased. */
  function Capitalize(s: string): (r: string)
    ensures |r| == |s|
    ensures |s| > 0 ==> r[0] == UpperChar(s[0]) && r[1..] == s[1..]
  {
    if s == [] then [] else [UpperChar(s[0])] + s[1..]
  }

  /** The index of the first non-white character at or after `i`, or `|s|`. */
  function SkipWhite(s: string, i: nat): (n: nat)
    requires i <= |s|
    ensures i <= n <= |s|
    ensures forall k :: i <= k < n ==> IsWhite(s[k])
    ensures n < |s| ==> !IsWhite(s[n])
    decreases |s| - i
  {
    if i < |s| && IsWhite(s[i]) then SkipWhite(s, i + 1) else i
  }

  /** The index just past the last non-white character before `j`, or 0. */
  function SkipWhiteBack(s: string, j: nat): (n: nat)
    requires j <= |s|
    ensures n <= j
    ensures forall k :: n <= k < j ==> IsWhite(s[k])
    ensures n > 0 ==> !IsWhite(s[n - 1])
    decreases j
  {
    if j > 0 && IsWhite(s[j - 1]) then SkipWhiteBack(s, j - 1) else j
  }

  /** `SkipWhite` is the only index with its two properties. */
  lemma SkipWhiteUnique(s: string, i: nat, n: nat)
    requires i <= n <= |s|
    requires forall k :: i <= k < n ==> IsWhite(s[k])
    requires n < |s| ==> !IsWhite(s[n])
    ensures SkipWhite(s, i) == n
  {
    var m := SkipWhite(s, i);
    assert !(m < n) && !(n < m);
  }

  /** `SkipWhiteBack` is the only index with its two properties. */
  lemma SkipWhiteBackUnique(s: string, j: nat, n: nat)
    requires n <= j <= |s|
    requires forall k :: n <= k < j ==> IsWhite(s[k])
    requires n > 0 ==> !IsWhite(s[n - 1])
    ensures SkipWhiteBack(s, j) == n
  {
    var m := SkipWhiteBack(s, j);
    assert !(m < n) && !(n < m);
  }

  /** `trimStart`: drops the leading run of white characters. */
  function TrimStart(s: string): string {
    s[SkipWhite(s, 0)..]
  }

  /** `trimEnd`: drops the trailing run of white characters. */
  function TrimEnd(s: string): string {
    s[..SkipWhiteBack(s, |s|)]
  }

  /** Every character of `g` is white. */
  ghost predicate AllWhite(g: string) {
    forall k :: 0 <= k < |g| ==> IsWhite(g[k])
  }

  /** `s.trim()`: the slice of `s` left once the white runs at both ends are
      cut off; it has no white character at either end. */
  function Trim(s: string): (r: string)
    ensures |r| <= |s|
    ensures r == [] || (!IsWhite(r[0]) && !IsWhite(r[|r| - 1]))
    ensures exists i, j :: 0 <= i <= j <= |s| && r == s[i..j] && AllWhite(s[..i]) && AllWhite(s[j..])
  {
    TrimSlice(s);
    TrimEnd(TrimStart(s))
  }

  /** Trimming keeps a slice and drops only white characters around it. */
  lemma TrimSlice(s: string)
    ensures exists i, j :: 0 <= i <= j <= |s| && TrimEnd(TrimStart(s)) == s[i..j] && AllWhite(s[..i]) && AllWhite(s[j..])
  {
    var i := SkipWhite(s, 0);
    var t := TrimStart(s);
    var b := SkipWhiteBack(t, |t|);
    var j := i + b;
    assert t == s[i..];
    assert TrimEnd(t) == s[i..j];
    assert AllWhite(s[..i]);
    forall k | j <= k < |s| ensures IsWhite(s[k]) {
      assert s[k] == t[k - i];
    }
    assert AllWhite(s[j..]);
  }

  /** A string without white characters is its own trim. */
  lemma TrimNoWhite(s: string)
    requires NoWhite(s)
    ensures Trim(s) == s
  {
    TrimmedEnds(s);
  }

  /** A string with no white character at either end is its own trim. */
  lemma TrimmedEnds(s: string)
    requires s == [] || (!IsWhite(s[0]) && !IsWhite(s[|s| - 1]))
    ensures Trim(s) == s
  {
    SkipWhiteUnique(s, 0, 0);
    SkipWhiteBackUnique(s, |s|, |s|);
  }

  /** A white character at the end of a string is removed by `trim`, so a
      line ending in `\r\n` reads like one ending in `\n`. */
  lemma TrimDropsTrailingWhite(s: string, c: char)
    requires IsWhite(c)
    ensures Trim(s + [c]) == Trim(s)
  {
    var t := s + [c];
    if SkipWhite(s, 0) == |s| {
      SkipWhiteUnique(t, 0, |t|);
    } else {
      SkipWhiteAppend(s, c);
      var u := TrimStart(s);
      assert TrimStart(t) == u + [c];
      SkipWhiteBackAppend(u, c);
      var b := SkipWhiteBack(u, |u|);
      assert (u + [c])[..b] == u[..b];
    }
  }

  /** Appending to a string that is not all white does not move the first
      non-white character. */
  lemma SkipWhiteAppend(s: string, c: char)
    requires SkipWhite(s, 0) < |s|
    ensures SkipWhite(s + [c], 0) == SkipWhite(s, 0)
  {
    var t := s + [c];
    assert forall k :: 0 <= k < |s| ==> t[k] == s[k];
    SkipWhiteUnique(t, 0, SkipWhite(s, 0));
  }

  /** A white character appended to a string is skipped from the back. */
  lemma SkipWhiteBackAppend(u: string, c: char)
    requires IsWhite(c)
    ensures SkipWhiteBack(u + [c], |u| + 1) == SkipWhiteBack(u, |u|)
  {
    var t := u + [c];
    var b := SkipWhiteBack(u, |u|);
    assert forall k :: 0 <= k < |u| ==> t[k] == u[k];
    SkipWhiteBackUnique(t, |t|, b);
  }

  /** A word of lower-case letters is its own lowered, trimmed form. */
  lemma LowerWordNormal(w: string)
    requires forall i :: 0 <= i < |w| ==> 'a' <= w[i] <= 'z'
    ensures Trim(Lower(w)) == w
  {
    assert Lower(w) == w;
    TrimNoWhite(w);
  }

  /** `sub` occurs in `s` starting at position `i`. */
  predicate OccursAt(s: string, sub: string, i: int) {
    0 <= i && i + |sub| <= |s| && s[i..i + |sub|] == sub
  }

  /** `s.indexOf(sub, i)` for `i <= |s|`: the first occurrence at or after `i`, or -1. */
  function IndexFrom(s: string, sub: string, i: nat): (r: int)
    ensures r == -1 || (i <= r && OccursAt(s, sub, r))
    ensures r == -1 ==> forall k :: i <= k ==> !OccursAt(s, sub, k)
    ensures r != -1 ==> forall k :: i <= k < r ==> !OccursAt(s, sub, k)
    decreases |s| - i
  {
    if i + |sub| > |s| then -1
    else if s[i..i + |sub|] == sub then i
    else IndexFrom(s, sub, i + 1)
  }

  /** `s.indexOf(sub)`. */
  function IndexOf(s: string, sub: string): (r: int)
    ensures r == -1 || OccursAt(s, sub, r)
    ensures r == -1 <==> forall k :: !OccursAt(s, sub, k)
    ensures r != -1 ==> forall k :: 0 <= k < r ==> !OccursAt(s, sub, k)
  {
    IndexFrom(s, sub, 0)
  }

  /** `s.includes(sub)`. */
  predicate Contains(s: string, sub: string) {
    IndexOf(s, sub) >= 0
  }

  /** An occurrence anywhere is enough for `includes`. */
  lemma ContainsAt(s: string, sub: string, i: int)
    requires OccursAt(s, sub, i)
    ensures Contains(s, sub)
  {
  }

  /** If `t` occurs in `s` and `u` occurs in `t`, then `u` occurs in `s`. */
  lemma ContainsTransitive(s: string, t: string, u: string)
    requires Contains(s, t) && Contains(t, u)
    ensures Contains(s, u)
  {
    var i := IndexOf(s, t);
    var j := IndexOf(t, u);
    assert forall m :: 0 <= m < |t| ==> s[i + m] == t[m];
    assert forall m :: 0 <= m < |u| ==> t[j + m] == u[m];
    assert s[i + j..i + j + |u|] == u;
    ContainsAt(s, u, i + j);
  }

  /** Containment survives putting text around the string. */
  lemma ContainsInContext(a: string, s: string, b: string, sub: string)
    requires Contains(s, sub)
    ensures Contains(a + s + b, sub)
  {
    var i := IndexOf(s, sub);
    assert (a + s + b)[|a| + i..|a| + i + |sub|] == s[i..i + |sub|];
    ContainsAt(a + s + b, sub, |a| + i);
  }

  /** `s.startsWith(p)`. */
  predicate StartsWith(s: string, p: string) {
    |p| <= |s| && s[..|p|] == p
  }

  /** `s.endsWith(p)`. */
  predicate EndsWith(s: string, p: string) {
    |p| <= |s| && s[|s| - |p|..] == p
  }

  /** `s.replace(pat, rep)` with a string pattern: only the first occurrence
      is replaced, and the text around it is kept. `$`-patterns in `rep`
      are not interpreted. */
  function ReplaceFirst(s: string, pat: string, rep: string): (r: string)
    ensures !Contains(s, pat) ==> r == s
    ensures Contains(s, pat) ==>
      var i := IndexOf(s, pat);
      |r| == |s| - |pat| + |rep| && r[..i] == s[..i] && r[i..i + |rep|] == rep
      && r[i + |rep|..] == s[i + |pat|..]
  {
    var i := IndexOf(s, pat);
    if i < 0 then s else s[..i] + rep + s[i + |pat|..]
  }

  /** The index of the first `c` in `s`, or `|s|` when there is none. */
  function CharIndex(s: string, c: char): (r: nat)
    ensures r <= |s|
    ensures r < |s| ==> s[r] == c
    ensures c !in s[..r]
    decreases |s|
  {
    if s == [] then 0
    else if s[0] == c then 0
    else 1 + CharIndex(s[1..], c)
  }

  /** The inverse of splitting: the pieces glued back with `sep`. */
  function Join(pieces: seq<string>, sep: char): string
    decreases |pieces|
  {
    if pieces == [] then ""
    else if |pieces| == 1 then pieces[0]
    else pieces[0] + [sep] + Join(pieces[1..], sep)
  }

  /** `s.split(sep)` for a one-character separator. */
  function SplitOn(s: string, sep: char): (r: seq<string>)
    ensures |r| >= 1
    ensures forall k :: 0 <= k < |r| ==> sep !in r[k]
    ensures Join(r, sep) == s
    decreases |s|
  {
    var i := CharIndex(s, sep);
    if i == |s| then [s]
    else
      var rest := SplitOn(s[i + 1..], sep);
      assert s == s[..i] + [sep] + s[i + 1..];
      [s[..i]] + rest
  }

  /** The index of the first white character of `s`, or `|s|`. */
  function WhiteIndex(s: string): (r: nat)
    ensures r <= |s|
    ensures r < |s| ==> IsWhite(s[r])
    ensures NoWhite(s[..r])
    decreases |s|
  {
    if s == [] then 0
    else if IsWhite(s[0]) then 0
    else 1 + WhiteIndex(s[1..])
  }

  /** The pieces put back together with the gap `gaps[k]` between pieces
      `k` and `k + 1`. */
  function Interleave(pieces: seq<string>, gaps: seq<string>): string
    requires |pieces| == |gaps| + 1
    decreases |gaps|
  {
    if gaps == [] then pieces[0]
    else pieces[0] + gaps[0] + Interleave(pieces[1..], gaps[1..])
  }

  /** The maximal white runs of `s` that separate the pieces of `SplitWhite`,
      in order. */
  ghost function WhiteGaps(s: string): (gaps: seq<string>)
    ensures forall k :: 0 <= k < |gaps| ==> gaps[k] != [] && AllWhite(gaps[k])
    decreases |s|
  {
    var i := WhiteIndex(s);
    if i == |s| then []
    else
      var n := SkipWhite(s, i);
      [s[i..n]] + WhiteGaps(s[n..])
  }

  /** `s.split(/\s+/)`: the pieces between maximal runs of white characters.
      Put back together with those runs they give `s`; no piece holds a white
      character, and only the first and the last piece can be empty: the
      first exactly when `s` is empty or starts with a white character. */
  function SplitWhite(s: string): (r: seq<string>)
    ensures |r| >= 1
    ensures forall k :: 0 <= k < |r| ==> NoWhite(r[k])
    ensures forall k :: 0 < k < |r| - 1 ==> r[k] != []
    ensures r[0] == [] <==> s == [] || IsWhite(s[0])
    ensures |WhiteGaps(s)| == |r| - 1 && Interleave(r, WhiteGaps(s)) == s
    decreases |s|
  {
    var i := WhiteIndex(s);
    if i == |s| then [s]
    else
      var n := SkipWhite(s, i);
      var rest := SplitWhite(s[n..]);
      assert s == s[..i] + s[i..n] + s[n..];
      assert ([s[..i]] + rest)[1..] == rest;
      [s[..i]] + rest
  }

  /** The length of the run of word characters at the front of `s`. */
  function WordRun(s: string): (n: nat)
    ensures n <= |s|
    ensures forall i :: 0 <= i < n ==> IsWordChar(s[i])
    ensures n < |s| ==> !IsWordChar(s[n])
    decreases |s|
  {
    if s != [] && IsWordChar(s[0]) then 1 + WordRun(s[1..]) else 0
  }
}
