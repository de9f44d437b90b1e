/** The browser-side cookie lookup: `"; " + document.cookie` split on
    `"; " + name + "="`, with a value only when there are exactly two
    pieces. The cookie string is a parameter. */
module Cookies {
  import opened Wrappers

  predicate OccursAt(s: string, d: string, i: nat) {
    i + |d| <= |s| && s[i..i + |d|] == d
  }

  /** `s.indexOf(d, from)`: the leftmost occurrence at or after `from`. */
  function IndexOf(s: string, d: string, from: nat): (r: Option<nat>)
    ensures r.Some? ==> from <= r.value && r.value + |d| <= |s|
    decreases |s| - from
  {
    if from + |d| > |s| then None
    else if OccursAt(s, d, from) then Some(from)
    else IndexOf(s, d, from + 1)
  }

  lemma {:induction false} IndexOfSpec(s: string, d: string, from: nat)
    ensures var r := IndexOf(s, d, from);
      && (r.Some? ==> from <= r.value && OccursAt(s, d, r.value)
                      && forall j :: from <= j < r.value ==> !OccursAt(s, d, j))
      && (r.None? ==> forall j :: from <= j ==> !OccursAt(s, d, j))
    decreases |s| - from
  {
    if from + |d| <= |s| && !OccursAt(s, d, from) {
      IndexOfSpec(s, d, from + 1);
    }
  }

  /** `s.split(d)` for a non-empty separator: the pieces between the
      occurrences found left to right, each search resuming after the
      previous occurrence. */
  function Split(s: string, d: string): (parts: seq<string>)
    requires d != ""
    ensures |parts| >= 1
    decreases |s|
  {
    match IndexOf(s, d, 0)
    case None => [s]
    case Some(i) =>
      IndexOfSpec(s, d, 0);
      [s[..i]] + Split(s[i + |d|..], d)
  }

  /** `t.split(';').shift()`: the text before the first `;`. */
  function BeforeSemicolon(t: string): (r: string)
    ensures r <= t && ';' !in r
    ensures r == t || t[|r|] == ';'
  {
    if t == [] || t[0] == ';' then []
    else [t[0]] + BeforeSemicolon(t[1..])
  }

  /** `getCookie(name)`. */
  function GetCookie(cookie: string, name: string): (r: Option<string>)
    ensures r.Some? ==> ';' !in r.value
  {
    var parts := Split("; " + cookie, "; " + name + "=");
    if |parts| == 2 then Some(BeforeSemicolon(parts[1])) else None
  }

  lemma OccursShifted(s: string, d: string, k: nat, j: nat)
    requires k <= |s|
    ensures OccursAt(s[k..], d, j) <==> OccursAt(s, d, k + j)
  {
    if OccursAt(s, d, k + j) {
      assert s[k..][j..j + |d|] == s[k + j..k + j + |d|];
    }
    if OccursAt(s[k..], d, j) {
      assert s[k..][j..j + |d|] == s[k + j..k + j + |d|];
    }
  }

  /** The delimiter occurs exactly once, at `i`, counting occurrences the
      way the left-to-right split finds them. */
  predicate OnlyAt(s: string, d: string, i: nat) {
    && OccursAt(s, d, i)
    && (forall j :: 0 <= j < i ==> !OccursAt(s, d, j))
    && (forall j :: i + |d| <= j <= |s| ==> !OccursAt(s, d, j))
  }

  /** A delimiter that occurs only at `i` splits the text in two there. */
  lemma SplitOnce(s: string, d: string, i: nat)
    requires d != "" && OnlyAt(s, d, i)
    ensures Split(s, d) == [s[..i], s[i + |d|..]]
  {
    assert IndexOf(s, d, 0) == Some(i) by {
      IndexOfSpec(s, d, 0);
    }
    var rest := s[i + |d|..];
    assert IndexOf(rest, d, 0).None? by {
      IndexOfSpec(rest, d, 0);
      if IndexOf(rest, d, 0).Some? {
        OccursShifted(s, d, i + |d|, IndexOf(rest, d, 0).value);
      }
    }
    assert Split(rest, d) == [rest];
  }

  /** Otherwise the split does not have two pieces. */
  lemma SplitNotOnce(s: string, d: string)
    requires d != ""
    requires forall i :: 0 <= i <= |s| ==> !OnlyAt(s, d, i)
    ensures |Split(s, d)| != 2
  {
    var first := IndexOf(s, d, 0);
    if first.Some? {
      var i := first.value;
      var rest := s[i + |d|..];
      if IndexOf(rest, d, 0).None? {
        FoundOnce(s, d, i);
        assert false;
      }
      assert |Split(rest, d)| >= 2;
    }
  }

  /** The first occurrence with none after it is the only one. */
  lemma FoundOnce(s: string, d: string, i: nat)
    requires IndexOf(s, d, 0) == Some(i) && IndexOf(s[i + |d|..], d, 0).None?
    ensures OnlyAt(s, d, i)
  {
    IndexOfSpec(s, d, 0);
    var rest := s[i + |d|..];
    IndexOfSpec(rest, d, 0);
    forall j | i + |d| <= j <= |s| ensures !OccursAt(s, d, j) {
      OccursShifted(s, d, i + |d|, j - i - |d|);
    }
  }

  /** A value is found exactly when the delimiter occurs once in
      `"; " + cookie`, and it is the text after that occurrence up to the
      next `;`. */
  lemma GetCookieSpec(cookie: string, name: string)
    ensures var s := "; " + cookie; var d := "; " + name + "=";
      && (GetCookie(cookie, name).Some? <==> exists i :: 0 <= i <= |s| && OnlyAt(s, d, i))
      && (forall i :: 0 <= i <= |s| && OnlyAt(s, d, i) ==>
            GetCookie(cookie, name) == Some(BeforeSemicolon(s[i + |d|..])))
  {
    var s := "; " + cookie;
    var d := "; " + name + "=";
    if i :| 0 <= i <= |s| && OnlyAt(s, d, i) {
      SplitOnce(s, d, i);
      forall i' | 0 <= i' <= |s| && OnlyAt(s, d, i') ensures i' == i {
      }
    } else {
      SplitNotOnce(s, d);
    }
  }

  /** Every occurrence of the delimiter starts at a `;`. */
  lemma OccursAtSemicolon(s: string, name: string, i: nat)
    requires OccursAt(s, "; " + name + "=", i)
    ensures s[i] == ';'
  {
    assert s[i..i + |name| + 3][0] == ';';
  }

  /** The first cookie is found like any other: a lone `name=value` pair
      yields its value when neither part holds a `;`. */
  lemma LoneCookieFound(name: string, value: string)
    requires ';' !in name && ';' !in value
    ensures GetCookie(name + "=" + value, name) == Some(value)
  {
    var s := "; " + (name + "=" + value);
    var d := "; " + name + "=";
    assert s == d + value;
    assert OccursAt(s, d, 0);
    forall j | |d| <= j <= |s| ensures !OccursAt(s, d, j) {
      if OccursAt(s, d, j) {
        OccursAtSemicolon(s, name, j);
      }
    }
    assert OnlyAt(s, d, 0);
    SplitOnce(s, d, 0);
    assert s[|d|..] == value;
    assert BeforeSemicolon(value) == value;
  }

  /** A name given twice has no value: the split yields three pieces. */
  lemma RepeatedCookieMissing(name: string, a: string, b: string)
    requires ';' !in name && ';' !in a
    ensures GetCookie(name + "=" + a + "; " + name + "=" + b, name) == None
  {
    var s := "; " + (name + "=" + a + "; " + name + "=" + b);
    var d := "; " + name + "=";
    assert s == d + a + d + b;
    assert OccursAt(s, d, 0);
    assert OccursAt(s, d, |d| + |a|) by {
      assert s[|d| + |a|..|d| + |a| + |d|] == d;
    }
    forall i | 0 <= i <= |s| ensures !OnlyAt(s, d, i) {
    }
    SplitNotOnce(s, d);
  }
}
