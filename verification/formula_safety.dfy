/** The formula-danger test: the blocked-pattern list
    (`/\b(?:WEBSERVICE|FILTERXML|RTD|REGISTER|CALL|EXEC|SHELL)\s*\(/i`,
    `/\bcmd\|/i`, `/\bpowershell\b/i`) written out as predicates over
    characters, the line-break/NUL rule, and the leading `=` handling. */
module FormulaSafety {
  import opened JsText

  /** `\w` (without the `u` flag): ASCII letters, digits and `_`. */
  predicate IsWordChar(c: char) {
    IsAsciiUpper(c) || IsAsciiLower(c) || IsDigit(c) || c == '_'
  }

  /** `\b` just before position `p`, given that `s[p]` is a word character. */
  predicate BoundaryBefore(s: string, p: nat)
    requires p <= |s|
  {
    p == 0 || !IsWordChar(s[p - 1])
  }

  /** `u` starts with `w` under the `i` flag; without `u`, only ASCII letters fold. */
  predicate StartsWithIgnoreCase(u: string, w: string) {
    |w| <= |u| && ToLower(u[..|w|]) == ToLower(w)
  }

  /** The length of the white-space run `\s*` at the start of `u`. */
  function LeadingWhitespace(u: string): (k: nat)
    ensures k <= |u|
    ensures forall i :: 0 <= i < k ==> IsWhitespace(u[i])
    ensures k < |u| ==> !IsWhitespace(u[k])
  {
    if |u| > 0 && IsWhitespace(u[0]) then 1 + LeadingWhitespace(u[1..]) else 0
  }

  const BlockedCalls: seq<string> := ["WEBSERVICE", "FILTERXML", "RTD", "REGISTER", "CALL", "EXEC", "SHELL"]

  /** The first pattern, read from the start of `u`: a blocked function name,
      optional white space, then `(`. */
  predicate CallPattern(u: string) {
    exists i :: 0 <= i < |BlockedCalls| && StartsWithIgnoreCase(u, BlockedCalls[i])
      && var rest := u[|BlockedCalls[i]|..];
         LeadingWhitespace(rest) < |rest| && rest[LeadingWhitespace(rest)] == '('
  }

  /** The second pattern: `cmd|`. */
  predicate CmdPipePattern(u: string) {
    StartsWithIgnoreCase(u, "cmd|")
  }

  /** The third pattern: the word `powershell`, followed by a word boundary. */
  predicate PowershellPattern(u: string) {
    StartsWithIgnoreCase(u, "powershell") && (|u| == 10 || !IsWordChar(u[10]))
  }

  /** Some blocked pattern matches at the start of `u`. */
  predicate PatternStart(u: string) {
    CallPattern(u) || CmdPipePattern(u) || PowershellPattern(u)
  }

  /** Some blocked pattern matches starting at position `p` of `s`. Every
      pattern begins with a word character, so `\b` there asks only that the
      character before `p` is not one. */
  predicate PatternAt(s: string, p: nat)
    requires p < |s|
  {
    BoundaryBefore(s, p) && PatternStart(s[p..])
  }

  /** `BLOCKED_FORMULA_PATTERNS.some((pattern) => pattern.test(s))`. */
  predicate Blocked(s: string) {
    exists p :: 0 <= p < |s| && PatternAt(s, p)
  }

  /** The search `RegExp.prototype.test` performs: try each start position in turn. */
  method TestBlocked(s: string) returns (found: bool)
    ensures found <==> Blocked(s)
  {
    var p := 0;
    while p < |s|
      invariant p <= |s|
      invariant forall q :: 0 <= q < p ==> !PatternAt(s, q)
    {
      if PatternAt(s, p) {
        return true;
      }
      p := p + 1;
    }
    return false;
  }

  predicate HasLineBreakOrNul(s: string) {
    exists i :: 0 <= i < |s| && (s[i] == '\r' || s[i] == '\n' || s[i] == '\0')
  }

  /** The text the blocked patterns are matched against: one leading `=`
      dropped and the rest trimmed again. */
  function WithoutLeadingEquals(f: string): string {
    if |f| > 0 && f[0] == '=' then Trim(f[1..]) else f
  }

  /** `isDangerousFormula`. */
  function IsDangerousFormula(raw: string): bool {
    var formula := Trim(raw);
    if formula == [] then true
    else if HasLineBreakOrNul(formula) then true
    else Blocked(WithoutLeadingEquals(formula))
  }

  // ---------------------------------------------------------------------------
  // The leading `=` (and white space after it) never changes the verdict:
  // both are non-word characters, which no pattern starts with and which
  // satisfy the `\b` before a match just as the start of the text does.

  lemma StartsWithIgnoreCaseNeedsWord(u: string, w: string)
    requires |w| > 0 && (IsAsciiUpper(w[0]) || IsAsciiLower(w[0]))
    requires StartsWithIgnoreCase(u, w)
    ensures IsWordChar(u[0])
  {
    assert ToLower(u[..|w|])[0] == LowerChar(u[0]);
    assert ToLower(w)[0] == LowerChar(w[0]);
  }

  /** No pattern matches at a non-word character. */
  lemma NoPatternAtNonWord(u: string)
    requires |u| > 0 && !IsWordChar(u[0])
    ensures !PatternStart(u)
  {
    if CallPattern(u) {
      var i :| 0 <= i < |BlockedCalls| && StartsWithIgnoreCase(u, BlockedCalls[i]);
      StartsWithIgnoreCaseNeedsWord(u, BlockedCalls[i]);
    }
    if CmdPipePattern(u) { StartsWithIgnoreCaseNeedsWord(u, "cmd|"); }
    if PowershellPattern(u) { StartsWithIgnoreCaseNeedsWord(u, "powershell"); }
  }

  lemma PatternStartOfEqual(u: string, v: string)
    requires u == v
    ensures PatternStart(u) == PatternStart(v)
  {
  }

  lemma SuffixOfCons(c: char, s: string, p: nat)
    requires 1 <= p <= |s|
    ensures ([c] + s)[p..] == s[p - 1..]
  {
  }

  lemma PatternAtShift(c: char, s: string, p: nat)
    requires !IsWordChar(c) && 1 <= p <= |s|
    ensures PatternAt([c] + s, p) == PatternAt(s, p - 1)
  {
    SuffixOfCons(c, s, p);
    PatternStartOfEqual(([c] + s)[p..], s[p - 1..]);
  }

  /** Prepending one non-word character neither creates nor destroys a match. */
  lemma BlockedIgnoresNonWordPrefix(c: char, s: string)
    requires !IsWordChar(c)
    ensures Blocked([c] + s) <==> Blocked(s)
  {
    var t := [c] + s;
    if Blocked(s) {
      var p :| 0 <= p < |s| && PatternAt(s, p);
      PatternAtShift(c, s, p + 1);
    }
    if Blocked(t) {
      var p :| 0 <= p < |t| && PatternAt(t, p);
      if p == 0 {
        NoPatternAtNonWord(t);
        assert false;
      }
      PatternAtShift(c, s, p);
    }
  }

  lemma {:induction false} BlockedIgnoresNonWordPrefixes(a: string, s: string)
    requires forall i :: 0 <= i < |a| ==> !IsWordChar(a[i])
    ensures Blocked(a + s) <==> Blocked(s)
    decreases |a|
  {
    if a == [] {
      assert a + s == s;
    } else {
      assert a + s == [a[0]] + (a[1..] + s);
      BlockedIgnoresNonWordPrefixes(a[1..], s);
      BlockedIgnoresNonWordPrefix(a[0], a[1..] + s);
    }
  }

  lemma WhitespaceIsNotWord(c: char)
    requires IsWhitespace(c)
    ensures !IsWordChar(c)
  {
  }

  /** `=` followed by white space holds no word character. */
  lemma EqualsAndSpaceNotWord(lead: string)
    requires AllWhitespace(lead)
    ensures forall k :: 0 <= k < |"=" + lead| ==> !IsWordChar(("=" + lead)[k])
  {
    forall k | 0 <= k < |"=" + lead| ensures !IsWordChar(("=" + lead)[k]) {
      if k > 0 {
        assert ("=" + lead)[k] == lead[k - 1];
        WhitespaceIsNotWord(lead[k - 1]);
      }
    }
  }

  /** Splits the text after a leading `=` into its white space and its trim. */
  lemma LeadingEqualsSplit(f: string) returns (lead: string)
    requires |f| > 0 && f[0] == '=' && !IsWhitespace(f[|f| - 1])
    ensures AllWhitespace(lead) && f == ("=" + lead) + WithoutLeadingEquals(f)
  {
    var rest := f[1..];
    if |rest| > 0 {
      assert rest[|rest| - 1] == f[|f| - 1];
    }
    lead := TrimOfRightTrimmed(rest);
    assert f == [f[0]] + rest;
  }

  /** A leading `=` and the white space after it can be dropped before the
      search without changing whether a pattern matches. */
  lemma BlockedIgnoresLeadingEquals(f: string)
    requires |f| > 0 && f[0] == '=' && !IsWhitespace(f[|f| - 1])
    ensures Blocked(WithoutLeadingEquals(f)) <==> Blocked(f)
  {
    var lead := LeadingEqualsSplit(f);
    EqualsAndSpaceNotWord(lead);
    BlockedIgnoresNonWordPrefixes("=" + lead, WithoutLeadingEquals(f));
  }

  /** The danger verdict is a property of the trimmed text alone: the text is
      blank, holds a line break or NUL, or a blocked pattern matches it
      (dropping a leading `=` never matters). */
  lemma DangerousIffTrimmedText(raw: string)
    ensures IsDangerousFormula(raw) <==>
      (Trim(raw) == [] || HasLineBreakOrNul(Trim(raw)) || Blocked(Trim(raw)))
  {
    var f := Trim(raw);
    if f != [] && !HasLineBreakOrNul(f) && f[0] == '=' {
      BlockedIgnoresLeadingEquals(f);
    }
  }

  /** Trimming first (as the validator does) does not change the verdict. */
  lemma DangerousIgnoresSurroundingSpace(raw: string)
    ensures IsDangerousFormula(Trim(raw)) == IsDangerousFormula(raw)
  {
    TrimIdempotent(raw);
  }
}
