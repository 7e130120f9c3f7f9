/**
 * The few JavaScript string operations the trainer relies on, with the
 * semantics ECMAScript gives them: `includes`, `indexOf`, `trim`,
 * `replace` with a string pattern, and the decimal rendering of an integer
 * inside a template literal.  Strings are sequences of UTF-16 code units in
 * JavaScript and of characters here, so the offsets of `IndexOf` count
 * characters, not UTF-16 units; the results of `includes`, `trim` and
 * `replace` are the same either way.
 */
module Text {
  import opened Wrappers

  // ---------------------------------------------------------------------
  // Substring search: `s.includes(p)` and `s.indexOf(p)`
  // ---------------------------------------------------------------------

  /** `p` occurs in `s` starting at offset `i`. */
  predicate OccursAt(s: string, p: string, i: nat) {
    i + |p| <= |s| && s[i..i + |p|] == p
  }

  /** `s.includes(p)`: an exact, case-sensitive substring test. */
  predicate Contains(s: string, p: string) {
    exists i :: 0 <= i <= |s| - |p| && OccursAt(s, p, i)
  }

  /** The first offset at or after `k` where `p` occurs in `s`. */
  function IndexOfFrom(s: string, p: string, k: nat): (r: Option<nat>)
    decreases |s| - k
    ensures r.Some? ==> k <= r.value && OccursAt(s, p, r.value)
    ensures r.Some? ==> forall j :: k <= j < r.value ==> !OccursAt(s, p, j)
    ensures r.None? ==> forall j :: k <= j ==> !OccursAt(s, p, j)
  {
    if k + |p| > |s| then None
    else if s[k..k + |p|] == p then Some(k)
    else IndexOfFrom(s, p, k + 1)
  }

  /** `s.indexOf(p)`, with `None` standing for JavaScript's `-1`. */
  function IndexOf(s: string, p: string): (r: Option<nat>)
    ensures r.Some? <==> Contains(s, p)
    ensures r.Some? ==> OccursAt(s, p, r.value)
    ensures r.Some? ==> forall j :: 0 <= j < r.value ==> !OccursAt(s, p, j)
  {
    var r := IndexOfFrom(s, p, 0);
    assert r.Some? ==> 0 <= r.value <= |s| - |p| && OccursAt(s, p, r.value);
    r
  }

  /** A character of `p` that `s` lacks keeps `p` out of `s`. */
  lemma {:induction false} MissingCharExcludes(s: string, p: string, c: char)
    requires c in p && c !in s
    ensures !Contains(s, p)
  {
  }

  /** `a + p + b` includes `p`. */
  lemma ContainsInfix(a: string, p: string, b: string)
    ensures Contains(a + p + b, p)
  {
    var s := a + p + b;
    assert s[|a|..|a| + |p|] == p;
    assert OccursAt(s, p, |a|);
  }

  // ---------------------------------------------------------------------
  // `s.trim()`
  // ---------------------------------------------------------------------

  /**
   * The characters `String.prototype.trim` strips: ECMAScript's WhiteSpace
   * (tab, vertical tab, form feed, space, no-break space, the byte order mark
   * and the Unicode space separators) and LineTerminator (line feed, carriage
   * return, line and paragraph separators).
   */
  predicate IsJsWhiteSpace(c: char) {
    c == '\t' || c == '\n' || c == '\U{000B}' || c == '\U{000C}' || c == '\r' || c == ' '
    || c == '\U{00A0}' || c == '\U{1680}' || ('\U{2000}' <= c <= '\U{200A}')
    || c == '\U{2028}' || c == '\U{2029}' || c == '\U{202F}' || c == '\U{205F}'
    || c == '\U{3000}' || c == '\U{FEFF}'
  }

  function TrimStart(s: string): (r: string)
    ensures |r| <= |s| && r == s[|s| - |r|..]
    ensures r != [] ==> !IsJsWhiteSpace(r[0])
    ensures forall i :: 0 <= i < |s| - |r| ==> IsJsWhiteSpace(s[i])
  {
    if s != [] && IsJsWhiteSpace(s[0]) then
      var r := TrimStart(s[1..]);
      assert forall i :: 1 <= i < |s| - |r| ==> s[i] == s[1..][i - 1];
      r
    else s
  }

  function TrimEnd(s: string): (r: string)
    ensures |r| <= |s| && r == s[..|r|]
    ensures r != [] ==> !IsJsWhiteSpace(r[|r| - 1])
    ensures forall i :: |r| <= i < |s| ==> IsJsWhiteSpace(s[i])
  {
    if s != [] && IsJsWhiteSpace(s[|s| - 1]) then TrimEnd(s[..|s| - 1]) else s
  }

  /** `s.trim()`: `s` without its leading and trailing white space. */
  function Trim(s: string): string {
    TrimEnd(TrimStart(s))
  }

  /**
   * The trimmed string starts and ends with a character other than white space
   * and occurs in `s` with only white space around it.
   */
  lemma TrimStrips(s: string)
    ensures Trim(s) != [] ==> !IsJsWhiteSpace(Trim(s)[0]) && !IsJsWhiteSpace(Trim(s)[|Trim(s)| - 1])
    ensures exists k :: 0 <= k <= |s| - |Trim(s)| && OccursAt(s, Trim(s), k)
                        && forall i :: 0 <= i < k || k + |Trim(s)| <= i < |s| ==> IsJsWhiteSpace(s[i])
  {
    var t := TrimStart(s);
    var r := TrimEnd(t);
    if r != [] {
      assert r[0] == t[0];
    }
    StrippedInside(s, t, r);
  }

  /** A suffix `t` of `s` after white space, and a prefix `r` of `t` before white space, sits in `s` with only white space around it. */
  lemma StrippedInside(s: string, t: string, r: string)
    requires |t| <= |s| && t == s[|s| - |t|..] && forall i :: 0 <= i < |s| - |t| ==> IsJsWhiteSpace(s[i])
    requires |r| <= |t| && r == t[..|r|] && forall i :: |r| <= i < |t| ==> IsJsWhiteSpace(t[i])
    ensures var k := |s| - |t|;
      && 0 <= k <= |s| - |r| && OccursAt(s, r, k)
      && forall i :: 0 <= i < k || k + |r| <= i < |s| ==> IsJsWhiteSpace(s[i])
  {
    var k := |s| - |t|;
    assert s[k..k + |r|] == r;
    assert forall i :: k + |r| <= i < |s| ==> s[i] == t[i - k];
  }

  /** `!s.trim()`: the trimmed string is empty, i.e. falsy. */
  predicate IsBlank(s: string) {
    Trim(s) == ""
  }

  /** A string trims to nothing exactly when every character of it is white space. */
  lemma BlankIffAllWhiteSpace(s: string)
    ensures IsBlank(s) <==> forall i :: 0 <= i < |s| ==> IsJsWhiteSpace(s[i])
  {
  }

  // ---------------------------------------------------------------------
  // `s.replace(pattern, replacement)` with a string pattern
  // ---------------------------------------------------------------------

  /**
   * The replacement text JavaScript actually inserts (GetSubstitution, section 22.1.3.19.1
   * of ECMAScript 2024) when the pattern is a string and so has no capture groups:
   * `$$` stands for `$`, `$&` for the matched text, `` $` `` for the text before the
   * match and `$'` for the text after it; every other `$` (`$1`, `$<`, a final `$`)
   * is kept as it is.
   */
  function Substitution(replacement: string, matched: string, before: string, after: string): string
    decreases |replacement|
  {
    if replacement == [] then []
    else if replacement[0] == '$' && |replacement| >= 2 && replacement[1] == '$' then
      "$" + Substitution(replacement[2..], matched, before, after)
    else if replacement[0] == '$' && |replacement| >= 2 && replacement[1] == '&' then
      matched + Substitution(replacement[2..], matched, before, after)
    else if replacement[0] == '$' && |replacement| >= 2 && replacement[1] == '`' then
      before + Substitution(replacement[2..], matched, before, after)
    else if replacement[0] == '$' && |replacement| >= 2 && replacement[1] == '\'' then
      after + Substitution(replacement[2..], matched, before, after)
    else
      [replacement[0]] + Substitution(replacement[1..], matched, before, after)
  }

  /** A replacement without `$` is inserted literally. */
  lemma {:induction false} SubstitutionLiteral(replacement: string, matched: string, before: string, after: string)
    requires '$' !in replacement
    ensures Substitution(replacement, matched, before, after) == replacement
  {
    if replacement != [] {
      assert replacement[0] != '$';
      assert '$' !in replacement[1..] by {
        forall k | 0 <= k < |replacement| - 1 ensures replacement[1..][k] != '$' {
          assert replacement[1..][k] == replacement[k + 1];
        }
      }
      SubstitutionLiteral(replacement[1..], matched, before, after);
    }
  }

  /** `s.replace(pattern, replacement)`: only the first occurrence is replaced. */
  function ReplaceFirst(s: string, pattern: string, replacement: string): string {
    match IndexOf(s, pattern)
    case None => s
    case Some(i) =>
      s[..i] + Substitution(replacement, pattern, s[..i], s[i + |pattern|..]) + s[i + |pattern|..]
  }

  /** Without an occurrence of the pattern the string comes back unchanged. */
  lemma ReplaceFirstAbsent(s: string, pattern: string, replacement: string)
    requires !Contains(s, pattern)
    ensures ReplaceFirst(s, pattern, replacement) == s
  {
  }

  /**
   * With an occurrence, the result is the text before the first occurrence, the
   * replacement, and everything after that first occurrence, untouched.
   */
  lemma ReplaceFirstSplices(s: string, pattern: string, replacement: string)
    requires Contains(s, pattern) && '$' !in replacement
    ensures exists i ::
              && 0 <= i <= |s| - |pattern|
              && OccursAt(s, pattern, i)
              && (forall j :: 0 <= j < i ==> !OccursAt(s, pattern, j))
              && ReplaceFirst(s, pattern, replacement) == s[..i] + replacement + s[i + |pattern|..]
  {
    var i := IndexOf(s, pattern).value;
    SubstitutionLiteral(replacement, pattern, s[..i], s[i + |pattern|..]);
    assert ReplaceFirst(s, pattern, replacement) == s[..i] + replacement + s[i + |pattern|..];
  }

  // ---------------------------------------------------------------------
  // `${n}` for an integer `n`
  // ---------------------------------------------------------------------

  function DigitChar(d: nat): (c: char)
    requires d < 10
    ensures '0' <= c <= '9'
  {
    ['0', '1', '2', '3', '4', '5', '6', '7', '8', '9'][d]
  }

  function DigitValue(c: char): nat
    requires '0' <= c <= '9'
  {
    (c as int - '0' as int) as nat
  }

  /** The decimal digits of `n`, most significant first, with no leading zero. */
  function Digits(n: nat): (r: string)
    ensures |r| >= 1
    ensures forall i :: 0 <= i < |r| ==> '0' <= r[i] <= '9'
    ensures |r| > 1 ==> r[0] != '0'
  {
    if n < 10 then [DigitChar(n)] else Digits(n / 10) + [DigitChar(n % 10)]
  }

  /** The value of a string of decimal digits. */
  function ParseDigits(s: string): int
    requires forall i :: 0 <= i < |s| ==> '0' <= s[i] <= '9'
  {
    if s == [] then 0 else 10 * ParseDigits(s[..|s| - 1]) + DigitValue(s[|s| - 1])
  }

  /** Reading the digits back gives the number: the rendering loses nothing. */
  lemma {:induction false} DigitsRoundTrip(n: nat)
    ensures ParseDigits(Digits(n)) == n
  {
    if n >= 10 {
      DigitsRoundTrip(n / 10);
      var r := Digits(n);
      assert r[..|r| - 1] == Digits(n / 10);
    }
  }

  /** How a template literal renders an integer: a `-` sign, then its digits. */
  function Decimal(n: int): (r: string)
    ensures n >= 0 ==> r == Digits(n)
    ensures n < 0 ==> r == "-" + Digits(-n)
  {
    if n < 0 then "-" + Digits(-n) else Digits(n)
  }
}
