/** JavaScript string primitives the backend relies on: `trim`, `.length`
    (UTF-16 code units), ASCII case folding, decimal number rendering and
    `Array.prototype.join`. Strings are Dafny strings, i.e. sequences of
    Unicode scalar values. */
module JsText {

  /** The characters JavaScript's `String.prototype.trim` and the regular
      expression class `\s` treat as white space: the WhiteSpace and
      LineTerminator productions of ECMAScript. */
  predicate IsWhitespace(c: char) {
    || c == '\t' || c == '\n' || c == '\U{000B}' || c == '\U{000C}' || c == '\r'
    || c == ' ' || c == '\U{00A0}' || c == '\U{1680}'
    || ('\U{2000}' <= c <= '\U{200A}')
    || c == '\U{2028}' || c == '\U{2029}' || c == '\U{202F}' || c == '\U{205F}'
    || c == '\U{3000}' || c == '\U{FEFF}'
  }

  predicate AllWhitespace(s: string) {
    forall i :: 0 <= i < |s| ==> IsWhitespace(s[i])
  }

  /** Drops the leading white space. */
  function TrimStart(s: string): string
    decreases |s|
  {
    if |s| > 0 && IsWhitespace(s[0]) then TrimStart(s[1..]) else s
  }

  /** `TrimStart` removes a white-space prefix and stops at the first other
      character. */
  lemma {:induction false} TrimStartSpec(s: string)
    ensures var r := TrimStart(s);
      && |r| <= |s| && r == s[|s| - |r|..]
      && AllWhitespace(s[..|s| - |r|])
      && (r == [] || !IsWhitespace(r[0]))
    decreases |s|
  {
    if |s| > 0 && IsWhitespace(s[0]) {
      TrimStartSpec(s[1..]);
      var r := TrimStart(s);
      assert s[..|s| - |r|] == [s[0]] + s[1..][..|s| - 1 - |r|];
    }
  }

  /** Drops the trailing white space. */
  function TrimEnd(s: string): string
    decreases |s|
  {
    if |s| > 0 && IsWhitespace(s[|s| - 1]) then TrimEnd(s[..|s| - 1]) else s
  }

  /** `TrimEnd` removes a white-space suffix and stops at the last other
      character. */
  lemma {:induction false} TrimEndSpec(s: string)
    ensures var r := TrimEnd(s);
      && |r| <= |s| && r == s[..|r|]
      && AllWhitespace(s[|r|..])
      && (r == [] || !IsWhitespace(r[|r| - 1]))
    decreases |s|
  {
    if |s| > 0 && IsWhitespace(s[|s| - 1]) {
      TrimEndSpec(s[..|s| - 1]);
      var r := TrimEnd(s);
      assert s[|r|..] == s[..|s| - 1][|r|..] + [s[|s| - 1]];
    }
  }

  /** `s.trim()`: white space removed at both ends; the result neither starts
      nor ends with white space (`TrimIsSlice` states what was removed). */
  function Trim(s: string): (r: string)
    ensures |r| <= |s|
    ensures r == [] || (!IsWhitespace(r[0]) && !IsWhitespace(r[|r| - 1]))
    decreases |s|
  {
    if |s| > 0 && IsWhitespace(s[0]) then Trim(s[1..])
    else
      TrimEndSpec(s);
      TrimEnd(s)
  }

  /** Trimming is trimming the start, then the end. */
  lemma {:induction false} TrimIsBothEnds(s: string)
    ensures Trim(s) == TrimEnd(TrimStart(s))
    decreases |s|
  {
    if |s| > 0 && IsWhitespace(s[0]) {
      TrimIsBothEnds(s[1..]);
    }
  }

  /** One leading white-space character more: the slice moves one place on. */
  lemma TrimSliceStep(s: string, j: nat)
    requires |s| > 0 && IsWhitespace(s[0])
    requires j + |Trim(s[1..])| <= |s| - 1 && Trim(s[1..]) == s[1..][j..j + |Trim(s[1..])|]
    requires AllWhitespace(s[1..][..j]) && AllWhitespace(s[1..][j + |Trim(s[1..])|..])
    ensures j + 1 + |Trim(s)| <= |s| && Trim(s) == s[j + 1..j + 1 + |Trim(s)|]
    ensures AllWhitespace(s[..j + 1]) && AllWhitespace(s[j + 1 + |Trim(s)|..])
  {
    var t := s[1..];
    var r := Trim(t);
    assert Trim(s) == r;
    assert t[j..j + |r|] == s[j + 1..j + 1 + |r|];
    assert s[j + 1 + |r|..] == t[j + |r|..];
    LeadingWhitespaceStep(s, j);
  }

  lemma LeadingWhitespaceStep(s: string, j: nat)
    requires j < |s| && IsWhitespace(s[0]) && AllWhitespace(s[1..][..j])
    ensures AllWhitespace(s[..j + 1])
  {
    var lead := s[..j + 1];
    forall k | 0 <= k < |lead| ensures IsWhitespace(lead[k]) {
      if k > 0 {
        assert lead[k] == s[1..][..j][k - 1];
      }
    }
  }

  /** The trim is a slice of the input, and everything cut off is white space. */
  lemma {:induction false} TrimIsSlice(s: string) returns (i: nat)
    ensures i + |Trim(s)| <= |s| && Trim(s) == s[i..i + |Trim(s)|]
    ensures AllWhitespace(s[..i]) && AllWhitespace(s[i + |Trim(s)|..])
    decreases |s|
  {
    if |s| > 0 && IsWhitespace(s[0]) {
      var j := TrimIsSlice(s[1..]);
      TrimSliceStep(s, j);
      i := j + 1;
    } else {
      i := 0;
      TrimEndSpec(s);
      assert s[..i] == [];
    }
  }

  /** A string that does not end in white space is its leading white space
      followed by its trim. */
  lemma TrimOfRightTrimmed(s: string) returns (lead: string)
    requires s == [] || !IsWhitespace(s[|s| - 1])
    ensures AllWhitespace(lead) && s == lead + Trim(s)
  {
    TrimIsBothEnds(s);
    TrimStartSpec(s);
    var t := TrimStart(s);
    if t != [] {
      assert t[|t| - 1] == s[|s| - 1];
    }
    assert TrimEnd(t) == t;
    lead := s[..|s| - |t|];
    assert s == lead + t;
  }

  /** A string that neither starts nor ends with white space is its own trim. */
  lemma TrimOfTrimmed(s: string)
    requires s == [] || (!IsWhitespace(s[0]) && !IsWhitespace(s[|s| - 1]))
    ensures Trim(s) == s
  {
  }

  /** Trimming twice is trimming once. */
  lemma TrimIdempotent(s: string)
    ensures Trim(Trim(s)) == Trim(s)
  {
    TrimOfTrimmed(Trim(s));
  }

  /** The trim of an all-white-space string is empty, and only then. */
  lemma TrimEmptyIff(s: string)
    ensures Trim(s) == [] <==> AllWhitespace(s)
  {
    var i := TrimIsSlice(s);
    if Trim(s) == [] {
      forall k | 0 <= k < |s| ensures IsWhitespace(s[k]) {
        if k < i { assert s[k] == s[..i][k]; } else { assert s[k] == s[i..][k - i]; }
      }
    } else {
      assert s[i] == Trim(s)[0];
    }
  }

  // ---------------------------------------------------------------------------
  // UTF-16 length: JavaScript's `.length`, on which every zod bound is counted.

  function CodeUnits(c: char): nat {
    if c as int >= 0x1_0000 then 2 else 1
  }

  function Utf16Length(s: string): (n: nat)
    ensures |s| <= n <= 2 * |s|
  {
    if s == [] then 0 else CodeUnits(s[0]) + Utf16Length(s[1..])
  }

  lemma {:induction false} Utf16LengthAppend(a: string, b: string)
    ensures Utf16Length(a + b) == Utf16Length(a) + Utf16Length(b)
  {
    if a != [] {
      assert (a + b)[1..] == a[1..] + b;
      Utf16LengthAppend(a[1..], b);
    } else {
      assert a + b == b;
    }
  }

  /** `s.slice(0, n)` for a string whose cut point does not split a surrogate
      pair: the longest prefix of `s` that fits in `n` UTF-16 code units. */
  function Utf16Prefix(s: string, n: nat): (r: string)
    ensures r <= s
    ensures Utf16Length(r) <= n
    ensures Utf16Length(s) <= n ==> r == s
  {
    if s == [] then []
    else if CodeUnits(s[0]) <= n then [s[0]] + Utf16Prefix(s[1..], n - CodeUnits(s[0]))
    else []
  }

  /** No character outside the Basic Multilingual Plane: one code unit each. */
  predicate AllBmp(s: string) {
    forall i :: 0 <= i < |s| ==> CodeUnits(s[i]) == 1
  }

  lemma {:induction false} Utf16LengthBmp(s: string)
    requires AllBmp(s)
    ensures Utf16Length(s) == |s|
  {
    if s != [] {
      Utf16LengthBmp(s[1..]);
    }
  }

  /** One unit per character only when no character takes two. */
  lemma {:induction false} Utf16LengthOnlyBmp(s: string)
    requires Utf16Length(s) == |s|
    ensures AllBmp(s)
  {
    if s != [] {
      assert Utf16Length(s) == CodeUnits(s[0]) + Utf16Length(s[1..]);
      Utf16LengthOnlyBmp(s[1..]);
      forall k | 1 <= k < |s| ensures CodeUnits(s[k]) == 1 {
        assert s[k] == s[1..][k - 1];
      }
    }
  }

  /** On such a string, cutting at `n` units is cutting at `n` characters. */
  lemma {:induction false} Utf16PrefixBmp(s: string, n: nat)
    requires AllBmp(s)
    ensures Utf16Prefix(s, n) == s[..if n < |s| then n else |s|]
  {
    if s != [] && n > 0 {
      Utf16PrefixBmp(s[1..], n - 1);
      assert s[..if n < |s| then n else |s|] == [s[0]] + s[1..][..if n - 1 < |s| - 1 then n - 1 else |s| - 1];
    }
  }

  /** The cut is the longest that fits: the next character would overflow. */
  lemma {:induction false} Utf16PrefixMaximal(s: string, n: nat)
    ensures var r := Utf16Prefix(s, n);
      r == s || (|r| < |s| && Utf16Length(r) + CodeUnits(s[|r|]) > n)
  {
    if s != [] && CodeUnits(s[0]) <= n {
      Utf16PrefixMaximal(s[1..], n - CodeUnits(s[0]));
    }
  }

  /** A head that fits is kept whole, and the room it leaves, `k` units, goes
      to the tail. */
  lemma {:induction false} Utf16PrefixAppendFits(a: string, b: string, n: nat, k: nat)
    requires Utf16Length(a) + k == n
    ensures Utf16Prefix(a + b, n) == a + Utf16Prefix(b, k)
  {
    if a == [] {
      assert a + b == b;
    } else {
      var c, rest := a[0], a[1..];
      assert a == [c] + rest;
      assert a + b == [c] + (rest + b);
      assert Utf16Length(a) == CodeUnits(c) + Utf16Length(rest);
      Utf16PrefixAppendFits(rest, b, n - CodeUnits(c), k);
      Utf16PrefixCons(c, rest + b, n);
      ConsAppend(c, rest, Utf16Prefix(b, k));
    }
  }

  lemma ConsAppend(c: char, s: string, t: string)
    ensures [c] + (s + t) == ([c] + s) + t
  {
  }

  lemma Utf16PrefixCons(c: char, s: string, n: nat)
    requires CodeUnits(c) <= n
    ensures Utf16Prefix([c] + s, n) == [c] + Utf16Prefix(s, n - CodeUnits(c))
  {
    assert ([c] + s)[0] == c && ([c] + s)[1..] == s;
  }

  /** A head that does not fit is cut as if it stood alone. */
  lemma {:induction false} Utf16PrefixAppendOver(a: string, b: string, n: nat)
    requires Utf16Length(a) > n
    ensures Utf16Prefix(a + b, n) == Utf16Prefix(a, n)
  {
    assert (a + b)[0] == a[0];
    if CodeUnits(a[0]) <= n {
      assert (a + b)[1..] == a[1..] + b;
      Utf16PrefixAppendOver(a[1..], b, n - CodeUnits(a[0]));
    }
  }

  // ---------------------------------------------------------------------------
  // ASCII case folding. JavaScript's `toLowerCase` folds all of Unicode; only
  // its ASCII part is modelled, and the regular expressions with the `i` flag
  // (without `u`) that the model needs fold exactly ASCII letters.

  predicate IsAsciiUpper(c: char) { 'A' <= c <= 'Z' }

  predicate IsAsciiLower(c: char) { 'a' <= c <= 'z' }

  function LowerChar(c: char): (d: char)
    ensures !IsAsciiUpper(d)
    ensures IsAsciiUpper(c) ==> d as int == c as int + 32
    ensures !IsAsciiUpper(c) ==> d == c
  {
    if IsAsciiUpper(c) then (c as int + 32) as char else c
  }

  function ToLower(s: string): (r: string)
    ensures |r| == |s|
    ensures forall i :: 0 <= i < |s| ==> r[i] == LowerChar(s[i])
  {
    seq(|s|, i requires 0 <= i < |s| => LowerChar(s[i]))
  }

  predicate NoAsciiUpper(s: string) {
    forall i :: 0 <= i < |s| ==> !IsAsciiUpper(s[i])
  }

  lemma ToLowerIdempotent(s: string)
    ensures ToLower(ToLower(s)) == ToLower(s)
  {
  }

  /** Lower-casing and white space do not change whether a character is
      white space, so trimming and lower-casing commute. */
  lemma {:induction false} TrimStartToLower(s: string)
    ensures TrimStart(ToLower(s)) == ToLower(TrimStart(s))
    decreases |s|
  {
    if |s| > 0 && IsWhitespace(s[0]) {
      assert ToLower(s)[1..] == ToLower(s[1..]);
      TrimStartToLower(s[1..]);
    }
  }

  lemma {:induction false} TrimEndToLower(s: string)
    ensures TrimEnd(ToLower(s)) == ToLower(TrimEnd(s))
    decreases |s|
  {
    if |s| > 0 && IsWhitespace(s[|s| - 1]) {
      assert ToLower(s)[..|s| - 1] == ToLower(s[..|s| - 1]);
      TrimEndToLower(s[..|s| - 1]);
    }
  }

  lemma TrimToLower(s: string)
    ensures Trim(ToLower(s)) == ToLower(Trim(s))
  {
    TrimIsBothEnds(ToLower(s));
    TrimIsBothEnds(s);
    TrimStartToLower(s);
    TrimEndToLower(TrimStart(s));
  }

  /** Case-insensitive equality of two strings under ASCII folding. */
  predicate EqualsIgnoreCase(a: string, b: string) {
    ToLower(a) == ToLower(b)
  }

  // ---------------------------------------------------------------------------
  // Decimal rendering of integers, as JavaScript's `String(n)` and template
  // literals print them.

  predicate IsDigit(c: char) { '0' <= c <= '9' }

  predicate AllDigits(s: string) {
    forall i :: 0 <= i < |s| ==> IsDigit(s[i])
  }

  function DigitChar(d: nat): (c: char)
    requires d < 10
    ensures IsDigit(c) && c as int - '0' as int == d
  {
    ('0' as int + d) as char
  }

  function NatToString(n: nat): (r: string)
    ensures |r| >= 1 && AllDigits(r)
    ensures |r| > 1 ==> r[0] != '0'
    decreases n
  {
    if n < 10 then [DigitChar(n)] else NatToString(n / 10) + [DigitChar(n % 10)]
  }

  /** The number a string of decimal digits denotes; the partner of `NatToString`. */
  function DigitsValue(s: string): nat
    requires AllDigits(s)
  {
    if s == [] then 0 else DigitsValue(s[..|s| - 1]) * 10 + (s[|s| - 1] as int - '0' as int)
  }

  lemma {:induction false} NatToStringRoundTrip(n: nat)
    ensures DigitsValue(NatToString(n)) == n
    decreases n
  {
    if n >= 10 {
      var r := NatToString(n);
      assert r[..|r| - 1] == NatToString(n / 10);
      NatToStringRoundTrip(n / 10);
    }
  }

  /** Distinct numbers print differently. */
  lemma NatToStringInjective(a: nat, b: nat)
    requires NatToString(a) == NatToString(b)
    ensures a == b
  {
    NatToStringRoundTrip(a);
    NatToStringRoundTrip(b);
  }

  function IntToString(i: int): (r: string)
    ensures |r| >= 1
    ensures i < 0 <==> r[0] == '-'
  {
    if i < 0 then "-" + NatToString(-i) else NatToString(i)
  }

  // ---------------------------------------------------------------------------
  // `parts.join(sep)`.

  function Join(parts: seq<string>, sep: string): (r: string)
    ensures |parts| == 0 ==> r == ""
    ensures |parts| == 1 ==> r == parts[0]
  {
    if |parts| == 0 then ""
    else if |parts| == 1 then parts[0]
    else parts[0] + sep + Join(parts[1..], sep)
  }

  /** Joining one more part adds the separator and the part at the end. */
  lemma {:induction false} JoinSnoc(parts: seq<string>, p: string, sep: string)
    requires |parts| >= 1
    ensures Join(parts + [p], sep) == Join(parts, sep) + sep + p
    decreases |parts|
  {
    if |parts| > 1 {
      assert (parts + [p])[1..] == parts[1..] + [p];
      JoinSnoc(parts[1..], p, sep);
    } else {
      assert (parts + [p])[1..] == [p];
    }
  }

  function SumLengths(parts: seq<string>): nat {
    if parts == [] then 0 else |parts[0]| + SumLengths(parts[1..])
  }

  /** The joined text holds every part and one separator between neighbours. */
  lemma {:induction false} JoinLength(parts: seq<string>, sep: string)
    requires |parts| >= 1
    ensures |Join(parts, sep)| == SumLengths(parts) + (|parts| - 1) * |sep|
  {
    if |parts| > 1 {
      JoinLength(parts[1..], sep);
    }
  }
}
