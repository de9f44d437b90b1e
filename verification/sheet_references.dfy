/** The sheet names a formula refers to: the global search with
    `/(?:'([^']+)'|([A-Za-z0-9_ ]+))!/g`, written out as a scan, followed by
    trimming, dropping blanks and de-duplicating in first-seen order. */
module SheetReferences {
  import opened Wrappers
  import opened JsText
  import opened Collections

  /** The class `[A-Za-z0-9_ ]` of an unquoted sheet name. */
  predicate IsPlainNameChar(c: char) {
    IsAsciiUpper(c) || IsAsciiLower(c) || IsDigit(c) || c == '_' || c == ' '
  }

  /** The first alternative, `'([^']+)'!`, matching from `p` with the closing
      quote at `q`. */
  predicate QuotedAt(s: string, p: nat, q: nat) {
    p + 1 < q && q + 1 < |s| && s[p] == '\'' && s[q] == '\'' && s[q + 1] == '!'
    && forall k :: p < k < q ==> s[k] != '\''
  }

  /** The second alternative, `([A-Za-z0-9_ ]+)!`, matching from `p` with the
      `!` at `e`. */
  predicate PlainAt(s: string, p: nat, e: nat) {
    p < e < |s| && s[e] == '!' && forall k :: p <= k < e ==> IsPlainNameChar(s[k])
  }

  /** The first quote at or after `i`, or `|s|` when there is none. */
  function NextQuote(s: string, i: nat): (q: nat)
    requires i <= |s|
    ensures i <= q <= |s|
    ensures forall k :: i <= k < q ==> s[k] != '\''
    ensures q < |s| ==> s[q] == '\''
    decreases |s| - i
  {
    if i == |s| || s[i] == '\'' then i else NextQuote(s, i + 1)
  }

  /** The end of the longest run of name characters starting at `i`. */
  function PlainRunEnd(s: string, i: nat): (e: nat)
    requires i <= |s|
    ensures i <= e <= |s|
    ensures forall k :: i <= k < e ==> IsPlainNameChar(s[k])
    ensures e < |s| ==> !IsPlainNameChar(s[e])
    decreases |s| - i
  {
    if i == |s| || !IsPlainNameChar(s[i]) then i else PlainRunEnd(s, i + 1)
  }

  /** One match: the captured group and the position just past the `!`
      (the regular expression's next `lastIndex`). */
  datatype Match = Match(capture: string, end: nat)

  /** The regular expression anchored at `p`. A quote at `p` can only start
      the first alternative and any other character only the second; in both,
      backtracking cannot help, since the greedy run is followed by a
      character that is not the one the pattern needs next. */
  function MatchAt(s: string, p: nat): (m: Option<Match>)
    requires p < |s|
    ensures m.Some? ==> p + 2 <= m.value.end <= |s|
  {
    if s[p] == '\'' then
      var q := NextQuote(s, p + 1);
      if p + 1 < q && q + 1 < |s| && s[q + 1] == '!' then Some(Match(s[p + 1..q], q + 2))
      else
        None
    else
      var e := PlainRunEnd(s, p);
      if p < e < |s| && s[e] == '!' then Some(Match(s[p..e], e + 1))
      else
        None
  }

  /** `MatchAt` finds a match exactly when one of the two alternatives
      matches at `p`, and captures what that alternative's group holds. */
  lemma MatchAtSpec(s: string, p: nat)
    requires p < |s|
    ensures var m := MatchAt(s, p);
      && (m.Some? && s[p] == '\'' ==>
            QuotedAt(s, p, m.value.end - 2) && m.value.capture == s[p + 1..m.value.end - 2])
      && (m.Some? && s[p] != '\'' ==>
            PlainAt(s, p, m.value.end - 1) && m.value.capture == s[p..m.value.end - 1])
      && (m.None? ==> forall q :: !QuotedAt(s, p, q))
      && (m.None? ==> forall e :: !PlainAt(s, p, e))
  {
  }

  /** A capture never holds a quote. */
  lemma MatchAtNoQuote(s: string, p: nat)
    requires p < |s| && MatchAt(s, p).Some?
    ensures '\'' !in MatchAt(s, p).value.capture
  {
    MatchAtSpec(s, p);
    var m := MatchAt(s, p).value;
    if s[p] == '\'' {
      assert forall k :: 0 <= k < |m.capture| ==> m.capture[k] == s[p + 1 + k];
    } else {
      assert forall k :: 0 <= k < |m.capture| ==> m.capture[k] == s[p + k];
    }
  }

  /** The groups captured by repeated `exec` calls, starting at `lastIndex`
      = `from`: each call finds the leftmost match at or after `lastIndex`. */
  function Captures(s: string, from: nat): seq<string>
    requires from <= |s|
    decreases |s| - from
  {
    if from == |s| then []
    else
      match MatchAt(s, from)
      case Some(m) => [m.capture] + Captures(s, m.end)
      case None => Captures(s, from + 1)
  }

  /** Every element is non-empty and holds no quote. */
  predicate QuoteFreeNames(r: seq<string>) {
    forall i :: 0 <= i < |r| ==> |r[i]| > 0 && '\'' !in r[i]
  }

  /** Every element is non-empty, trimmed and holds no quote. */
  predicate TrimmedNames(r: seq<string>) {
    forall i :: 0 <= i < |r| ==> |r[i]| > 0 && Trim(r[i]) == r[i] && '\'' !in r[i]
  }

  /** Every capture is non-empty and holds no quote. */
  lemma {:induction false} CapturesShape(s: string, from: nat)
    requires from <= |s|
    ensures QuoteFreeNames(Captures(s, from))
    decreases |s| - from
  {
    if from < |s| {
      match MatchAt(s, from)
      case Some(m) =>
        CapturesShape(s, m.end);
        MatchAtSpec(s, from);
        MatchAtNoQuote(s, from);
        var r := Captures(s, from);
        assert forall i :: 1 <= i < |r| ==> r[i] == Captures(s, m.end)[i - 1];
      case None =>
        CapturesShape(s, from + 1);
    }
  }

  /** `(quotedSheet || plainSheet || "").trim()`, kept when non-empty. */
  function NonBlankTrims(caps: seq<string>): seq<string> {
    if caps == [] then []
    else
      var t := Trim(caps[0]);
      if |t| > 0 then [t] + NonBlankTrims(caps[1..]) else NonBlankTrims(caps[1..])
  }

  /** The names kept are non-blank and trimmed, and hold no quote when the
      captures hold none. */
  lemma {:induction false} NonBlankTrimsShape(caps: seq<string>)
    requires QuoteFreeNames(caps)
    ensures TrimmedNames(NonBlankTrims(caps))
  {
    if caps != [] {
      assert QuoteFreeNames(caps[1..]) by {
        assert forall i :: 0 <= i < |caps[1..]| ==> caps[1..][i] == caps[i + 1];
      }
      NonBlankTrimsShape(caps[1..]);
      TrimIdempotent(caps[0]);
      TrimNoNewChars(caps[0], '\'');
      var r := NonBlankTrims(caps);
      var rest := NonBlankTrims(caps[1..]);
      if |Trim(caps[0])| > 0 {
        assert forall i :: 1 <= i < |r| ==> r[i] == rest[i - 1];
      }
    }
  }

  /** The names kept are exactly the non-blank trims of the captures. */
  lemma {:induction false} NonBlankTrimsMembers(caps: seq<string>, x: string)
    ensures x in NonBlankTrims(caps) <==> exists i :: 0 <= i < |caps| && x == Trim(caps[i]) && |x| > 0
  {
    if caps != [] {
      NonBlankTrimsMembers(caps[1..], x);
      if exists i :: 0 <= i < |caps| && x == Trim(caps[i]) && |x| > 0 {
        var i :| 0 <= i < |caps| && x == Trim(caps[i]) && |x| > 0;
        if i > 0 {
          assert caps[1..][i - 1] == caps[i];
        }
      }
      if exists i :: 0 <= i < |caps[1..]| && x == Trim(caps[1..][i]) && |x| > 0 {
        var i :| 0 <= i < |caps[1..]| && x == Trim(caps[1..][i]) && |x| > 0;
        assert caps[i + 1] == caps[1..][i];
      }
    }
  }

  /** `extractSheetReferences`. */
  function ExtractSheetReferences(formula: string): seq<string> {
    Dedup(NonBlankTrims(Captures(formula, 0)))
  }

  /** The references come without repetition, and each is a non-blank,
      trimmed name holding no quote. */
  lemma ExtractShape(formula: string)
    ensures Distinct(ExtractSheetReferences(formula))
    ensures forall x :: x in ExtractSheetReferences(formula) ==> |x| > 0 && Trim(x) == x && '\'' !in x
  {
    var caps := Captures(formula, 0);
    CapturesShape(formula, 0);
    NonBlankTrimsShape(caps);
    DedupSpec(NonBlankTrims(caps));
  }

  /** Trimming only removes characters. */
  lemma TrimNoNewChars(s: string, c: char)
    requires c !in s
    ensures c !in Trim(s)
  {
    var i := TrimIsSlice(s);
  }

  /** A sheet is referenced exactly when some match captures it, up to the
      surrounding white space. */
  lemma ExtractMembers(formula: string, x: string)
    ensures x in ExtractSheetReferences(formula) <==>
      exists i :: 0 <= i < |Captures(formula, 0)| && x == Trim(Captures(formula, 0)[i]) && |x| > 0
  {
    var caps := Captures(formula, 0);
    NonBlankTrimsMembers(caps, x);
    DedupSpec(NonBlankTrims(caps));
    assert x in ExtractSheetReferences(formula) <==> x in NonBlankTrims(caps);
    if x in NonBlankTrims(caps) {
      var i :| 0 <= i < |caps| && x == Trim(caps[i]) && |x| > 0;
      assert x == Trim(Captures(formula, 0)[i]);
    }
  }

  /** Without a `!` there is nothing to match. */
  lemma {:induction false} CapturesNeedBang(s: string, from: nat)
    requires from <= |s|
    requires forall k :: from <= k < |s| ==> s[k] != '!'
    ensures Captures(s, from) == []
    decreases |s| - from
  {
    if from < |s| {
      assert MatchAt(s, from).None?;
      CapturesNeedBang(s, from + 1);
    }
  }

  /** A formula without `!` refers to no sheet. */
  lemma NoBangNoReferences(formula: string)
    requires '!' !in formula
    ensures ExtractSheetReferences(formula) == []
  {
    CapturesNeedBang(formula, 0);
  }

  /** The first capture, when not blank, gives the first reference. */
  lemma FirstCaptureFirstReference(formula: string)
    requires |Captures(formula, 0)| > 0 && |Trim(Captures(formula, 0)[0])| > 0
    ensures |ExtractSheetReferences(formula)| > 0
    ensures ExtractSheetReferences(formula)[0] == Trim(Captures(formula, 0)[0])
  {
    var caps := Captures(formula, 0);
    var names := NonBlankTrims(caps);
    assert names == [Trim(caps[0])] + NonBlankTrims(caps[1..]);
    assert AddNew([], names[0]) == [names[0]];
    assert AddAll([], names) == AddAll([names[0]], names[1..]);
    AddAllSpec([names[0]], names[1..]);
  }

  /** `Name!…`: an unquoted name at the start is the first reference. */
  lemma LeadingPlainReference(name: string, rest: string)
    requires |name| > 0 && forall k :: 0 <= k < |name| ==> IsPlainNameChar(name[k])
    requires |Trim(name)| > 0
    ensures |ExtractSheetReferences(name + "!" + rest)| > 0
    ensures ExtractSheetReferences(name + "!" + rest)[0] == Trim(name)
  {
    var s := name + "!" + rest;
    assert s[|name|] == '!';
    assert !IsPlainNameChar('!');
    assert PlainAt(s, 0, |name|);
    assert s[0] != '\'';
    var m := MatchAt(s, 0);
    assert s[..|name|] == name;
    assert m.Some? && m.value.capture == name;
    assert Captures(s, 0)[0] == name;
    FirstCaptureFirstReference(s);
  }

  /** `'Name'!…`: a quoted name at the start is the first reference. */
  lemma LeadingQuotedReference(name: string, rest: string)
    requires |name| > 0 && '\'' !in name
    requires |Trim(name)| > 0
    ensures |ExtractSheetReferences("'" + name + "'!" + rest)| > 0
    ensures ExtractSheetReferences("'" + name + "'!" + rest)[0] == Trim(name)
  {
    var s := "'" + name + "'!" + rest;
    var q := |name| + 1;
    assert s[q] == '\'' && s[q + 1] == '!';
    assert forall k :: 0 < k < q ==> s[k] == name[k - 1];
    assert QuotedAt(s, 0, q);
    var m := MatchAt(s, 0);
    assert s[1..q] == name;
    assert m.Some? && m.value.capture == name;
    assert Captures(s, 0)[0] == name;
    FirstCaptureFirstReference(s);
  }
}
