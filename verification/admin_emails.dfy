/** The administrator e-mail list: two environment values joined by a space,
    split on runs of commas, semicolons and white space, each entry trimmed
    and lower-cased, empties dropped. The environment values are parameters. */
module AdminEmails {
  import opened Wrappers
  import opened JsText

  /** The characters of `/[,\s;]+/`. */
  predicate IsSeparator(c: char) {
    c == ',' || c == ';' || IsWhitespace(c)
  }

  predicate NoSeparator(s: string) {
    forall i :: 0 <= i < |s| ==> !IsSeparator(s[i])
  }

  /** The length of the leading run of non-separators. */
  function RunLength(s: string): (n: nat)
    ensures n <= |s|
    ensures NoSeparator(s[..n])
    ensures n == |s| || IsSeparator(s[n])
  {
    if s == [] || IsSeparator(s[0]) then 0
    else
      var m := RunLength(s[1..]);
      assert s[..m + 1] == [s[0]] + s[1..][..m];
      m + 1
  }

  /** The pieces `split(/[,\s;]+/)` yields once the empty ones at either end
      are dropped: the maximal runs of non-separators, in order. */
  function Pieces(s: string): seq<string>
    decreases |s|
  {
    if s == [] then []
    else if IsSeparator(s[0]) then Pieces(s[1..])
    else
      var n := RunLength(s);
      [s[..n]] + Pieces(s[n..])
  }

  /** Every piece is non-empty and holds no separator. */
  lemma {:induction false} PiecesSpec(s: string)
    ensures forall i :: 0 <= i < |Pieces(s)| ==> Pieces(s)[i] != "" && NoSeparator(Pieces(s)[i])
    decreases |s|
  {
    if s != [] {
      if IsSeparator(s[0]) {
        PiecesSpec(s[1..]);
      } else {
        PiecesSpec(s[RunLength(s)..]);
      }
    }
  }

  function Concat(parts: seq<string>): string {
    if parts == [] then "" else parts[0] + Concat(parts[1..])
  }

  /** `s` without its separators. */
  function Letters(s: string): string {
    if s == [] then ""
    else (if IsSeparator(s[0]) then "" else [s[0]]) + Letters(s[1..])
  }

  lemma {:induction false} LettersAppend(a: string, b: string)
    ensures Letters(a + b) == Letters(a) + Letters(b)
    decreases |a|
  {
    if a == [] {
      assert a + b == b;
    } else {
      assert (a + b)[1..] == a[1..] + b;
      LettersAppend(a[1..], b);
    }
  }

  lemma {:induction false} LettersOfRun(s: string)
    requires NoSeparator(s)
    ensures Letters(s) == s
    decreases |s|
  {
    if s != [] {
      LettersOfRun(s[1..]);
    }
  }

  /** Splitting loses nothing but separators: the pieces put back together
      are the input with its separators removed. */
  lemma {:induction false} PiecesKeepLetters(s: string)
    ensures Concat(Pieces(s)) == Letters(s)
    decreases |s|
  {
    if s != [] {
      if IsSeparator(s[0]) {
        PiecesKeepLetters(s[1..]);
      } else {
        var n := RunLength(s);
        PiecesKeepLetters(s[n..]);
        assert s == s[..n] + s[n..];
        LettersAppend(s[..n], s[n..]);
        LettersOfRun(s[..n]);
        assert [s[..n]] + Pieces(s[n..]) == Pieces(s);
      }
    }
  }

  /** A split point is where the first separator is: the leading run is the
      only length whose prefix holds no separator and which ends the string or
      stops at a separator. */
  lemma {:induction false} RunLengthUnique(s: string, n: nat)
    requires n <= |s| && NoSeparator(s[..n]) && (n == |s| || IsSeparator(s[n]))
    ensures RunLength(s) == n
    decreases n
  {
    if n > 0 {
      assert s[..n][0] == s[0];
      assert s[1..][..n - 1] == s[..n][1..];
      RunLengthUnique(s[1..], n - 1);
    }
  }

  /** A non-empty string without separators is a single piece. */
  lemma PiecesOfRun(s: string)
    requires s != "" && NoSeparator(s)
    ensures Pieces(s) == [s]
  {
    RunLengthUnique(s, |s|);
    assert s[..|s|] == s && s[|s|..] == [];
  }

  /** A separator splits: the pieces of `a + [c] + b` are those of `a`
      followed by those of `b`. */
  lemma {:induction false} PiecesSplitAt(a: string, c: char, b: string)
    requires IsSeparator(c)
    ensures Pieces(a + [c] + b) == Pieces(a) + Pieces(b)
    decreases |a|
  {
    var s := a + [c] + b;
    if a == [] {
      assert s[1..] == b;
    } else if IsSeparator(a[0]) {
      assert s[1..] == a[1..] + [c] + b;
      PiecesSplitAt(a[1..], c, b);
    } else {
      var m := RunLength(a);
      assert s[..m] == a[..m];
      assert m < |a| ==> s[m] == a[m];
      assert m == |a| ==> s[m] == c;
      RunLengthUnique(s, m);
      assert s[m..] == a[m..] + [c] + b;
      PiecesSplitAt(a[m..], c, b);
    }
  }

  predicate AllSeparators(w: string) {
    forall i :: 0 <= i < |w| ==> IsSeparator(w[i])
  }

  /** Separators in front add no piece. */
  lemma {:induction false} PiecesSkipLeading(w: string, t: string)
    requires AllSeparators(w)
    ensures Pieces(w + t) == Pieces(t)
    decreases |w|
  {
    if w == [] {
      assert w + t == t;
    } else {
      assert (w + t)[1..] == w[1..] + t;
      PiecesSkipLeading(w[1..], t);
    }
  }

  /** Separators at the end add no piece. */
  lemma PiecesSkipTrailing(t: string, w: string)
    requires AllSeparators(w)
    ensures Pieces(t + w) == Pieces(t)
  {
    if w == [] {
      assert t + w == t;
    } else {
      assert t + w == t + [w[0]] + w[1..];
      PiecesSplitAt(t, w[0], w[1..]);
      PiecesSkipLeading(w[1..], []);
      assert w[1..] + [] == w[1..];
    }
  }

  /** Trimming white space does not change the pieces. */
  lemma PiecesOfTrim(s: string)
    ensures Pieces(Trim(s)) == Pieces(s)
  {
    var i := TrimIsSlice(s);
    var t := Trim(s);
    var lead, tail := s[..i], s[i + |t|..];
    assert s == lead + (t + tail);
    PiecesSkipLeading(lead, t + tail);
    PiecesSkipTrailing(t, tail);
  }

  /** The list is the pieces of `ADMIN_EMAILS` followed by those of
      `ADMIN_EMAIL`: the joining space and the outer trim make no piece. */
  lemma PiecesOfList(adminEmails: Option<string>, adminEmail: Option<string>)
    ensures Pieces(RawList(adminEmails, adminEmail)) == Pieces(adminEmails.GetOr("")) + Pieces(adminEmail.GetOr(""))
  {
    var joined := adminEmails.GetOr("") + " " + adminEmail.GetOr("");
    PiecesOfTrim(joined);
    assert joined == adminEmails.GetOr("") + [' '] + adminEmail.GetOr("");
    PiecesSplitAt(adminEmails.GetOr(""), ' ', adminEmail.GetOr(""));
  }

  /** `normalizedEmail`: trimmed and lower-cased. */
  function NormalizedEmail(email: string): string {
    ToLower(Trim(email))
  }

  /** `.map(normalizedEmail).filter(Boolean)`. */
  function NormalizeAll(pieces: seq<string>): (r: seq<string>)
    ensures forall x :: x in r ==> x != ""
    ensures forall x :: x in r ==> exists p :: p in pieces && x == NormalizedEmail(p)
  {
    if pieces == [] then []
    else
      var rest := NormalizeAll(pieces[1..]);
      var e := NormalizedEmail(pieces[0]);
      if e == "" then rest else [e] + rest
  }

  /** `${ADMIN_EMAILS || ""} ${ADMIN_EMAIL || ""}`.trim(). */
  function RawList(adminEmails: Option<string>, adminEmail: Option<string>): string {
    Trim(adminEmails.GetOr("") + " " + adminEmail.GetOr(""))
  }

  /** `getAdminEmailSet`. */
  function AdminEmailSet(adminEmails: Option<string>, adminEmail: Option<string>): set<string> {
    var raw := RawList(adminEmails, adminEmail);
    if raw == "" then {}
    else
      var entries := NormalizeAll(Pieces(raw));
      set x | x in entries
  }

  /** A piece is normalised by lower-casing alone, and its normal form is
      again a non-empty piece without upper-case letters. */
  lemma NormalizedPiece(p: string)
    requires p != "" && NoSeparator(p)
    ensures NormalizedEmail(p) == ToLower(p)
    ensures ToLower(p) != "" && NoAsciiUpper(ToLower(p)) && NoSeparator(ToLower(p))
  {
    TrimOfTrimmed(p);
  }

  lemma {:induction false} NormalizeAllOfPieces(pieces: seq<string>)
    requires forall i :: 0 <= i < |pieces| ==> pieces[i] != "" && NoSeparator(pieces[i])
    ensures forall x :: x in NormalizeAll(pieces) ==>
      && x != "" && NoAsciiUpper(x) && NoSeparator(x)
      && exists p :: p in pieces && x == ToLower(p)
    decreases |pieces|
  {
    if pieces != [] {
      NormalizeAllOfPieces(pieces[1..]);
      NormalizedPiece(pieces[0]);
    }
  }

  /** No piece is dropped: each one's lower-cased form is kept. */
  lemma {:induction false} NormalizeAllKeeps(pieces: seq<string>)
    requires forall i :: 0 <= i < |pieces| ==> pieces[i] != "" && NoSeparator(pieces[i])
    ensures forall i :: 0 <= i < |pieces| ==> ToLower(pieces[i]) in NormalizeAll(pieces)
    decreases |pieces|
  {
    if pieces != [] {
      var rest := pieces[1..];
      NormalizeAllKeeps(rest);
      NormalizedPiece(pieces[0]);
      assert NormalizeAll(pieces) == [ToLower(pieces[0])] + NormalizeAll(rest);
      forall i | 1 <= i < |pieces|
        ensures ToLower(pieces[i]) in NormalizeAll(pieces)
      {
        assert pieces[i] == rest[i - 1];
        assert ToLower(rest[i - 1]) in NormalizeAll(rest);
      }
    }
  }

  /** The administrator entries are exactly the lower-cased pieces of the
      list; each is non-empty and free of upper-case letters, separators and
      white space. */
  lemma AdminEmailSetElements(adminEmails: Option<string>, adminEmail: Option<string>)
    ensures forall x :: x in AdminEmailSet(adminEmails, adminEmail) ==>
      && x != "" && NoAsciiUpper(x) && NoSeparator(x)
      && exists p :: p in Pieces(RawList(adminEmails, adminEmail)) && x == ToLower(p)
    ensures forall p :: p in Pieces(RawList(adminEmails, adminEmail)) ==>
      ToLower(p) in AdminEmailSet(adminEmails, adminEmail)
  {
    var raw := RawList(adminEmails, adminEmail);
    PiecesSpec(raw);
    NormalizeAllOfPieces(Pieces(raw));
    NormalizeAllKeeps(Pieces(raw));
  }

  /** Both values missing or blank leave no administrator. */
  lemma NoConfiguredAdmins(adminEmails: Option<string>, adminEmail: Option<string>)
    requires adminEmails.GetOr("") == "" && adminEmail.GetOr("") == ""
    ensures AdminEmailSet(adminEmails, adminEmail) == {}
  {
    assert adminEmails.GetOr("") + " " + adminEmail.GetOr("") == " ";
    assert TrimStart(" ") == TrimStart("");
  }

  /** `isAdminEmail`: false for a missing or empty address or an empty
      list, otherwise membership of the normalised address. */
  function IsAdminEmail(email: Option<string>, adminEmails: Option<string>, adminEmail: Option<string>): (r: bool)
    ensures email.None? || email == Some("") ==> !r
    ensures AdminEmailSet(adminEmails, adminEmail) == {} ==> !r
    ensures email.Some? && email.value != "" ==>
      (r <==> NormalizedEmail(email.value) in AdminEmailSet(adminEmails, adminEmail))
  {
    if email.None? || email.value == "" then false
    else
      var admins := AdminEmailSet(adminEmails, adminEmail);
      if admins == {} then false
      else NormalizedEmail(email.value) in admins
  }

  /** Case does not matter: an address is an administrator's exactly when
      its lower-cased form is. */
  lemma IsAdminEmailIgnoresCase(email: string, adminEmails: Option<string>, adminEmail: Option<string>)
    requires email != ""
    ensures IsAdminEmail(Some(email), adminEmails, adminEmail) == IsAdminEmail(Some(ToLower(email)), adminEmails, adminEmail)
  {
    TrimToLower(email);
    ToLowerIdempotent(Trim(email));
  }

  /** Surrounding white space does not matter either. */
  lemma IsAdminEmailIgnoresPadding(email: string, adminEmails: Option<string>, adminEmail: Option<string>)
    requires Trim(email) != ""
    ensures IsAdminEmail(Some(email), adminEmails, adminEmail) == IsAdminEmail(Some(Trim(email)), adminEmails, adminEmail)
  {
    TrimIdempotent(email);
  }

  /** Every address written in either value is recognised, in any case:
      a piece of `ADMIN_EMAILS` or of `ADMIN_EMAIL` makes an administrator of
      every address equal to it ignoring case. */
  lemma ListedAddressIsAdmin(p: string, email: string, adminEmails: Option<string>, adminEmail: Option<string>)
    requires p in Pieces(adminEmails.GetOr("")) + Pieces(adminEmail.GetOr(""))
    requires EqualsIgnoreCase(email, p)
    ensures IsAdminEmail(Some(email), adminEmails, adminEmail)
  {
    var raw := RawList(adminEmails, adminEmail);
    PiecesOfList(adminEmails, adminEmail);
    AdminEmailSetElements(adminEmails, adminEmail);
    PiecesSpec(raw);
    var x := ToLower(p);
    NormalizedPiece(p);
    NormalizedPiece(x);
    ToLowerIdempotent(p);
    assert |email| == |x|;
    IsAdminEmailIgnoresCase(email, adminEmails, adminEmail);
    IsAdminEmailIgnoresCase(x, adminEmails, adminEmail);
  }

  /** A run followed by a separator, or by nothing, is the first piece. */
  lemma RunThenRest(address: string, after: string)
    requires address != "" && NoSeparator(address)
    requires after == "" || IsSeparator(after[0])
    ensures Pieces(address + after) == [address] + Pieces(after)
  {
    PiecesOfRun(address);
    if after == "" {
      assert address + after == address;
    } else {
      assert address + after == address + [after[0]] + after[1..];
      PiecesSplitAt(address, after[0], after[1..]);
    }
  }

  /** Text that ends in a separator, or is empty, splits off whole. */
  lemma RestThenRun(before: string, rest: string)
    requires before == "" || IsSeparator(before[|before| - 1])
    ensures Pieces(before + rest) == Pieces(before) + Pieces(rest)
  {
    if before == "" {
      assert before + rest == rest;
    } else {
      var head, c := before[..|before| - 1], before[|before| - 1];
      assert before + rest == head + [c] + rest;
      PiecesSplitAt(head, c, rest);
      assert before == head + [c] + [];
      PiecesSplitAt(head, c, []);
    }
  }

  /** An address standing between separators, or at either end, is a piece
      of its own, between the pieces before and after it. */
  lemma PieceBetweenSeparators(before: string, address: string, after: string)
    requires address != "" && NoSeparator(address)
    requires before == "" || IsSeparator(before[|before| - 1])
    requires after == "" || IsSeparator(after[0])
    ensures Pieces(before + address + after) == Pieces(before) + [address] + Pieces(after)
  {
    RunThenRest(address, after);
    assert before + address + after == before + (address + after);
    RestThenRun(before, address + after);
  }

  /** An address written in `ADMIN_EMAILS` between separators, or at either
      end, is an administrator's, whatever else the list holds. */
  lemma WrittenAddressIsAdmin(before: string, address: string, after: string, email: string,
                              adminEmail: Option<string>)
    requires address != "" && NoSeparator(address)
    requires before == "" || IsSeparator(before[|before| - 1])
    requires after == "" || IsSeparator(after[0])
    requires EqualsIgnoreCase(email, address)
    ensures IsAdminEmail(Some(email), Some(before + address + after), adminEmail)
  {
    PieceBetweenSeparators(before, address, after);
    ListedAddressIsAdmin(address, email, Some(before + address + after), adminEmail);
  }
}
