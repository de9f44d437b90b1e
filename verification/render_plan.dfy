/** The decisions `createWorkbook` takes before handing a schema to the
    spreadsheet library, gathered into a plan: resolved theme colours,
    column settings, where the title, header and data rows go, the merge,
    filter and freeze settings, what each cell receives and how data cells
    are styled; and which writer `exportToBuffer` picks. */
module RenderPlan {
  import opened Wrappers
  import opened JsText
  import opened SheetSchema
  import S = StructuralRules

  // ---------------------------------------------------------------------------
  // Colours

  const DefaultHeaderBg: string := "FF4F46E5"
  const DefaultHeaderText: string := "FFFFFFFF"
  const DefaultRowEvenBg: string := "FFF1F5F9"
  const DefaultRowOddBg: string := "FFFFFFFF"
  const DefaultBorderColor: string := "FFE2E8F0"

  /** The alpha prefix: a leading `#` becomes `FF`, otherwise `FF` is put in
      front (`color.replace('#', 'FF')` only replaces the first `#`, which a
      string starting with `#` has at index 0). */
  function AlphaPrefixed(color: string): string {
    if |color| > 0 && color[0] == '#' then "FF" + color[1..] else "FF" + color
  }

  /** `hex.length > 8 ? hex.substring(0, 8) : hex.padEnd(8, 'F')`, where
      `length`, `substring` and `padEnd` count UTF-16 code units. */
  function FitEight(hex: string): string {
    if Utf16Length(hex) > 8 then Utf16Prefix(hex, 8) else hex + seq(8 - Utf16Length(hex), _ => 'F')
  }

  /** `safeColor`: a missing or empty colour gives the fallback; any other
      is alpha-prefixed and cut or padded with `F` to eight code units. */
  function SafeColor(color: Option<string>, fallback: string): (r: string)
    ensures color.None? || color == Some("") ==> r == fallback
  {
    if color.None? || color.value == "" then fallback else FitEight(AlphaPrefixed(color.value))
  }

  /** The text after an optional leading `#`. */
  function HexDigits(color: string): string {
    if |color| > 0 && color[0] == '#' then color[1..] else color
  }

  const Padding: string := "FFFFFFFF"

  lemma PaddingPrefix(m: nat)
    requires m <= 8
    ensures Utf16Prefix(Padding, m) == seq(m, _ => 'F')
  {
    Utf16PrefixBmp(Padding, m);
  }

  /** A given colour yields `FF`, then its digits, then `F`s, cut to eight
      UTF-16 code units; for a colour of one-unit characters that is eight
      characters. */
  lemma SafeColorSpec(color: string, fallback: string)
    requires color != ""
    ensures SafeColor(Some(color), fallback) == Utf16Prefix("FF" + HexDigits(color) + Padding, 8)
    ensures AllBmp(HexDigits(color)) ==>
      SafeColor(Some(color), fallback) == ("FF" + HexDigits(color) + Padding)[..8]
  {
    var hex := AlphaPrefixed(color);
    assert hex == "FF" + HexDigits(color);
    var full := hex + Padding;
    if Utf16Length(hex) > 8 {
      Utf16PrefixAppendOver(hex, Padding, 8);
    } else {
      Utf16PrefixAppendFits(hex, Padding, 8, 8 - Utf16Length(hex));
      PaddingPrefix(8 - Utf16Length(hex));
    }
    if AllBmp(HexDigits(color)) {
      assert AllBmp(full) by {
        forall k | 0 <= k < |full| ensures CodeUnits(full[k]) == 1 {
          if 2 <= k < 2 + |HexDigits(color)| {
            assert full[k] == HexDigits(color)[k - 2];
          }
        }
      }
      Utf16PrefixBmp(full, 8);
    }
  }

  /** Every given colour becomes `FF` and then colour text, eight UTF-16 units
      in all. The one exception is a cut that would split a surrogate pair: the
      source keeps its first half as the eighth unit, and the model, whose
      strings hold whole characters, ends one unit short. */
  lemma SafeColorShape(color: string, fallback: string)
    requires color != ""
    ensures var r := SafeColor(Some(color), fallback);
      && |r| >= 2 && r[..2] == "FF"
      && 7 <= Utf16Length(r) <= 8
    ensures var r := SafeColor(Some(color), fallback);
      var full := "FF" + HexDigits(color) + Padding;
      Utf16Length(r) == 7 ==> |r| < |full| && CodeUnits(full[|r|]) == 2
    ensures AllBmp(HexDigits(color)) ==>
      |SafeColor(Some(color), fallback)| == 8 && Utf16Length(SafeColor(Some(color), fallback)) == 8
  {
    SafeColorSpec(color, fallback);
    var full := "FF" + HexDigits(color) + Padding;
    var r := SafeColor(Some(color), fallback);
    Utf16PrefixMaximal(full, 8);
    Utf16LengthAppend("FF" + HexDigits(color), Padding);
    Utf16LengthBmp(Padding);
    assert r != full;
    assert r[..2] == full[..2] by {
      assert |r| >= 2;
    }
    if AllBmp(HexDigits(color)) {
      Utf16LengthBmp(r);
    }
  }

  /** A colour of six code units, with or without `#`, becomes the opaque
      colour `FF` followed by it. */
  lemma SafeColorSixDigits(color: string, fallback: string)
    requires Utf16Length(HexDigits(color)) == 6
    ensures SafeColor(Some(color), fallback) == "FF" + HexDigits(color)
  {
    var hex := AlphaPrefixed(color);
    assert hex == "FF" + HexDigits(color);
    Utf16LengthAppend("FF", HexDigits(color));
    assert hex + seq(0, _ => 'F') == hex;
  }

  /** A colour of eight code units keeps only its first six units after the
      new `FF`: for eight digits, the last two are cut off. */
  lemma SafeColorEightDigits(color: string, fallback: string)
    requires Utf16Length(HexDigits(color)) == 8
    ensures SafeColor(Some(color), fallback) == "FF" + Utf16Prefix(HexDigits(color), 6)
    ensures |HexDigits(color)| == 8 ==> SafeColor(Some(color), fallback) == "FF" + HexDigits(color)[..6]
  {
    var hex := AlphaPrefixed(color);
    assert hex == "FF" + HexDigits(color);
    Utf16LengthAppend("FF", HexDigits(color));
    Utf16PrefixAppendFits("FF", HexDigits(color), 8, 6);
    if |HexDigits(color)| == 8 {
      Utf16LengthOnlyBmp(HexDigits(color));
      Utf16PrefixBmp(HexDigits(color), 6);
    }
  }

  predicate AllHex(s: string) {
    forall i :: 0 <= i < |s| ==> S.IsHexDigit(s[i])
  }

  /** A colour the generated-schema contract accepts becomes eight hex digits. */
  lemma SafeColorOfAcceptedIsHex(color: string, fallback: string)
    requires S.HexColor(color)
    ensures AllHex(SafeColor(Some(color), fallback)) && |SafeColor(Some(color), fallback)| == 8
  {
    var digits := HexDigits(color);
    assert AllBmp(digits) by {
      forall k | 0 <= k < |digits| ensures CodeUnits(digits[k]) == 1 {
        assert S.IsHexDigit(digits[k]);
      }
    }
    SafeColorSpec(color, fallback);
    var full := "FF" + digits + Padding;
    forall i | 0 <= i < 8 ensures S.IsHexDigit(full[i]) {
      if 2 <= i < 2 + |digits| {
        assert full[i] == digits[i - 2];
      }
    }
  }

  datatype ResolvedTheme = ResolvedTheme(
    headerBg: string, headerText: string, rowEvenBg: string, rowOddBg: string, borderColor: string)

  const DefaultTheme: ResolvedTheme :=
    ResolvedTheme(DefaultHeaderBg, DefaultHeaderText, DefaultRowEvenBg, DefaultRowOddBg, DefaultBorderColor)

  datatype ThemeSlot = HeaderBgSlot | HeaderTextSlot | RowEvenBgSlot | RowOddBgSlot | BorderColorSlot

  /** `schema.theme?.<slot>`. */
  function Slot(theme: Option<Theme>, slot: ThemeSlot): Option<string> {
    if theme.None? then None
    else match slot
      case HeaderBgSlot => theme.value.headerBg
      case HeaderTextSlot => theme.value.headerText
      case RowEvenBgSlot => theme.value.rowEvenBg
      case RowOddBgSlot => theme.value.rowOddBg
      case BorderColorSlot => theme.value.borderColor
  }

  /** Each slot through `safeColor`, with its default as the fallback. */
  function ResolveTheme(theme: Option<Theme>): (r: ResolvedTheme)
    ensures theme.None? ==> r == DefaultTheme
  {
    ResolvedTheme(
      SafeColor(Slot(theme, HeaderBgSlot), DefaultHeaderBg),
      SafeColor(Slot(theme, HeaderTextSlot), DefaultHeaderText),
      SafeColor(Slot(theme, RowEvenBgSlot), DefaultRowEvenBg),
      SafeColor(Slot(theme, RowOddBgSlot), DefaultRowOddBg),
      SafeColor(Slot(theme, BorderColorSlot), DefaultBorderColor))
  }

  /** An opaque ARGB colour as `safeColor` produces it: `FF`, then colour
      text, eight UTF-16 units in all, or seven where the eighth would be half
      of a surrogate pair (see `SafeColorShape`). */
  predicate IsArgb(s: string) {
    |s| >= 2 && s[..2] == "FF" && 7 <= Utf16Length(s) <= 8
  }

  lemma SafeColorArgb(color: Option<string>, fallback: string)
    requires IsArgb(fallback)
    ensures IsArgb(SafeColor(color, fallback))
  {
    if color.Some? && color.value != "" {
      SafeColorShape(color.value, fallback);
    }
  }

  /** Eight characters below U+10000 starting with `FF` are an ARGB colour. */
  lemma ArgbOfEight(s: string)
    requires |s| == 8 && s[..2] == "FF" && AllBmp(s)
    ensures IsArgb(s)
  {
    Utf16LengthBmp(s);
  }

  // The five defaults, one at a time: each is an ARGB colour.

  lemma HeaderBgArgb()
    ensures IsArgb(DefaultHeaderBg)
  {
    ArgbOfEight(DefaultHeaderBg);
  }

  lemma HeaderTextArgb()
    ensures IsArgb(DefaultHeaderText)
  {
    ArgbOfEight(DefaultHeaderText);
  }

  lemma RowEvenBgArgb()
    ensures IsArgb(DefaultRowEvenBg)
  {
    ArgbOfEight(DefaultRowEvenBg);
  }

  lemma RowOddBgArgb()
    ensures IsArgb(DefaultRowOddBg)
  {
    ArgbOfEight(DefaultRowOddBg);
  }

  lemma BorderColorArgb()
    ensures IsArgb(DefaultBorderColor)
  {
    ArgbOfEight(DefaultBorderColor);
  }

  /** Every resolved colour is an opaque `FF` colour of eight code units
      (seven only in the surrogate-pair case), whether given or defaulted. */
  lemma ResolvedThemeArgb(theme: Option<Theme>)
    ensures var r := ResolveTheme(theme);
      IsArgb(r.headerBg) && IsArgb(r.headerText) && IsArgb(r.rowEvenBg) && IsArgb(r.rowOddBg) && IsArgb(r.borderColor)
  {
    HeaderBgArgb();
    HeaderTextArgb();
    RowEvenBgArgb();
    RowOddBgArgb();
    BorderColorArgb();
    SafeColorArgb(Slot(theme, HeaderBgSlot), DefaultHeaderBg);
    SafeColorArgb(Slot(theme, HeaderTextSlot), DefaultHeaderText);
    SafeColorArgb(Slot(theme, RowEvenBgSlot), DefaultRowEvenBg);
    SafeColorArgb(Slot(theme, RowOddBgSlot), DefaultRowOddBg);
    SafeColorArgb(Slot(theme, BorderColorSlot), DefaultBorderColor);
  }

  /** A slot left out, or given as the empty string, takes its default. */
  lemma ResolveThemeDefaults(theme: Theme)
    ensures theme.headerBg.None? ==> ResolveTheme(Some(theme)).headerBg == DefaultHeaderBg
    ensures theme.headerText.None? ==> ResolveTheme(Some(theme)).headerText == DefaultHeaderText
    ensures theme.rowEvenBg.None? ==> ResolveTheme(Some(theme)).rowEvenBg == DefaultRowEvenBg
    ensures theme.rowOddBg.None? ==> ResolveTheme(Some(theme)).rowOddBg == DefaultRowOddBg
    ensures theme.borderColor.None? ==> ResolveTheme(Some(theme)).borderColor == DefaultBorderColor
    ensures theme.headerBg == Some("") ==> ResolveTheme(Some(theme)).headerBg == DefaultHeaderBg
    ensures theme.headerText == Some("") ==> ResolveTheme(Some(theme)).headerText == DefaultHeaderText
    ensures theme.rowEvenBg == Some("") ==> ResolveTheme(Some(theme)).rowEvenBg == DefaultRowEvenBg
    ensures theme.rowOddBg == Some("") ==> ResolveTheme(Some(theme)).rowOddBg == DefaultRowOddBg
    ensures theme.borderColor == Some("") ==> ResolveTheme(Some(theme)).borderColor == DefaultBorderColor
  {
  }

  // ---------------------------------------------------------------------------
  // Column letters

  /** `String.fromCharCode(64 + n)`, as a UTF-16 code unit. */
  function LastColumnCodeAsWritten(n: nat): nat {
    (64 + n) % 0x1_0000
  }

  function Letter(d: nat): (c: char)
    requires d < 26
    ensures IsAsciiUpper(c)
  {
    ('A' as int + d) as char
  }

  /** The spreadsheet name of column `n` (1-based): bijective base 26,
      `A`..`Z`, `AA`, `AB`, and so on. */
  function ColumnName(n: nat): (r: string)
    requires n >= 1
    ensures |r| >= 1
    decreases n
  {
    if n <= 26 then [Letter(n - 1)] else ColumnName((n - 1) / 26) + [Letter((n - 1) % 26)]
  }

  predicate AllUpper(s: string) {
    forall i :: 0 <= i < |s| ==> IsAsciiUpper(s[i])
  }

  /** The column number a name of capital letters denotes. */
  function ColumnNumber(s: string): nat
    requires AllUpper(s)
  {
    if s == [] then 0 else ColumnNumber(s[..|s| - 1]) * 26 + (s[|s| - 1] as int - 'A' as int + 1)
  }

  /** Column names are made of capital letters and read back as their number. */
  lemma {:induction false} ColumnNameRoundTrip(n: nat)
    requires n >= 1
    ensures AllUpper(ColumnName(n))
    ensures ColumnNumber(ColumnName(n)) == n
    decreases n
  {
    if n > 26 {
      var r := ColumnName(n);
      ColumnNameRoundTrip((n - 1) / 26);
      assert r[..|r| - 1] == ColumnName((n - 1) / 26);
    }
  }

  /** Distinct columns have distinct names. */
  lemma ColumnNameInjective(a: nat, b: nat)
    requires a >= 1 && b >= 1 && ColumnName(a) == ColumnName(b)
    ensures a == b
  {
    ColumnNameRoundTrip(a);
    ColumnNameRoundTrip(b);
  }

  /** Up to 26 columns the expression as written names the right column. */
  lemma LastColumnAsWrittenUpTo26(n: nat)
    requires 1 <= n <= 26
    ensures ColumnName(n) == [LastColumnCodeAsWritten(n) as char]
  {
  }

  /** With 27 columns the expression as written yields `[`, which is no
      column name, where the last column is `AA`. */
  lemma LastColumnAsWrittenBreaksAt27()
    ensures LastColumnCodeAsWritten(27) == '[' as int
    ensures !IsAsciiUpper('[')
    ensures ColumnName(27) == "AA"
  {
  }

  // ---------------------------------------------------------------------------
  // Sheets

  datatype ColumnPlan = ColumnPlan(header: string, key: string, width: Number, alignment: string)

  /** `width: col.width || 20` and `horizontal: col.alignment || 'left'`. */
  function PlanColumn(c: Column): (p: ColumnPlan)
    ensures p.header == c.header && p.key == c.key
  {
    ColumnPlan(
      c.header, c.key,
      if c.width.Some? && c.width.value.Truthy() then c.width.value else Finite(20.0),
      if c.alignment.Some? && c.alignment.value != "" then c.alignment.value else "left")
  }

  /** Width and alignment defaults: a missing, zero or NaN width is 20, a
      missing or empty alignment is `left`; anything else is kept. */
  lemma PlanColumnDefaults(c: Column)
    ensures c.width.None? ==> PlanColumn(c).width == Finite(20.0)
    ensures c.width == Some(Finite(0.0)) ==> PlanColumn(c).width == Finite(20.0)
    ensures c.width == Some(NaN) ==> PlanColumn(c).width == Finite(20.0)
    ensures c.width.Some? && c.width.value.Finite? && c.width.value.value != 0.0 ==> PlanColumn(c).width == c.width.value
    ensures c.width.Some? && c.width.value.Truthy() ==> PlanColumn(c).width == c.width.value
    ensures c.alignment.None? ==> PlanColumn(c).alignment == "left"
    ensures c.alignment == Some("") ==> PlanColumn(c).alignment == "left"
    ensures c.alignment.Some? && c.alignment.value != "" ==> PlanColumn(c).alignment == c.alignment.value
  {
  }

  /** What a cell receives: a formula object with a non-empty formula is
      written as that formula alone, its cached result dropped; any other
      value is written as it is. */
  datatype CellWrite = FormulaWrite(formula: string) | ValueWrite(value: CellValue)

  function CellContent(v: CellValue): CellWrite {
    if v.FormulaCell? && v.formula != "" then FormulaWrite(v.formula) else ValueWrite(v)
  }

  /** Two formula cells with the same non-empty formula are written alike,
      whatever their cached results or extra properties; a formula cell
      with an empty formula and a primitive are written unchanged. */
  lemma CellContentDropsResult(f: string, r1: Option<Primitive>, e1: seq<string>, r2: Option<Primitive>, e2: seq<string>,
                               p: Primitive)
    ensures f != "" ==> CellContent(FormulaCell(f, r1, e1)) == CellContent(FormulaCell(f, r2, e2)) == FormulaWrite(f)
    ensures f == "" ==> CellContent(FormulaCell(f, r1, e1)) == ValueWrite(FormulaCell(f, r1, e1))
    ensures CellContent(Prim(p)) == ValueWrite(Prim(p))
  {
  }

  /** `numFmt` by column format; any other format leaves it unset. */
  function NumFmt(format: Option<string>): Option<string> {
    if format == Some("currency") then Some("\"R$ \"#,##0.00")
    else if format == Some("date") then Some("dd/mm/yyyy")
    else if format == Some("percentage") then Some("0.00%")
    else if format == Some("number") then Some("#,##0.00")
    else None
  }

  /** The four known formats get a number format, and nothing else does. */
  lemma NumFmtKnownFormats(format: Option<string>)
    ensures NumFmt(format).Some? <==> format.Some? && format.value in ["currency", "date", "percentage", "number"]
  {
  }

  /** The column a row key lands in (1-based): the library keeps one column
      per key, the last one declared with it. */
  function KeyColumn(cols: seq<Column>, key: string): (r: Option<nat>)
    ensures r.Some? ==> 1 <= r.value <= |cols|
  {
    if |cols| == 0 then None
    else if cols[|cols| - 1].key == key then Some(|cols|)
    else KeyColumn(cols[..|cols| - 1], key)
  }

  lemma {:induction false} KeyColumnSpec(cols: seq<Column>, key: string)
    ensures var r := KeyColumn(cols, key);
      && (r.Some? ==> 1 <= r.value <= |cols| && cols[r.value - 1].key == key
                      && forall j :: r.value <= j < |cols| ==> cols[j].key != key)
      && (r.None? ==> forall j :: 0 <= j < |cols| ==> cols[j].key != key)
  {
    if |cols| > 0 && cols[|cols| - 1].key != key {
      var init := cols[..|cols| - 1];
      KeyColumnSpec(init, key);
      var r := KeyColumn(init, key);
      if r.Some? {
        assert forall j :: r.value <= j < |init| ==> cols[j] == init[j];
      } else {
        assert forall j :: 0 <= j < |init| ==> cols[j] == init[j];
      }
    }
  }

  /** One styled data cell. */
  datatype CellPlan = CellPlan(column: nat, content: CellWrite, fill: string, border: string, numFmt: Option<string>)

  /** One data row: its worksheet row number and its styled cells, in the
      order the row's keys are written. */
  datatype RowPlan = RowPlan(number: nat, cells: seq<CellPlan>)

  /** A cell is styled when its key names a column and it holds a value. */
  predicate Styled(cols: seq<Column>, e: Entry) {
    KeyColumn(cols, e.key).Some? && e.value != Prim(PNull)
  }

  function PlanCells(cols: seq<Column>, theme: ResolvedTheme, fill: string, entries: seq<Entry>): seq<CellPlan>
  {
    if entries == [] then []
    else
      var e := entries[0];
      var rest := PlanCells(cols, theme, fill, entries[1..]);
      if Styled(cols, e) then
        var c := KeyColumn(cols, e.key).value;
        [CellPlan(c, CellContent(e.value), fill, theme.borderColor, NumFmt(cols[c - 1].format))] + rest
      else rest
  }

  /** Each planned cell sits in the column its key names, has the row's fill,
      the theme's border colour and that column's number format, and comes
      from a styled entry of the row. */
  lemma {:induction false} PlanCellsSpec(cols: seq<Column>, theme: ResolvedTheme, fill: string, entries: seq<Entry>)
    ensures var cells := PlanCells(cols, theme, fill, entries);
      && |cells| <= |entries|
      && forall i :: 0 <= i < |cells| ==>
        && 1 <= cells[i].column <= |cols|
        && cells[i].fill == fill && cells[i].border == theme.borderColor
        && cells[i].numFmt == NumFmt(cols[cells[i].column - 1].format)
        && exists k :: 0 <= k < |entries| && Styled(cols, entries[k])
             && cells[i].column == KeyColumn(cols, entries[k].key).value
             && cells[i].content == CellContent(entries[k].value)
  {
    if entries != [] {
      PlanCellsSpec(cols, theme, fill, entries[1..]);
    }
    var cells := PlanCells(cols, theme, fill, entries);
    forall i | 0 <= i < |cells|
      ensures && 1 <= cells[i].column <= |cols|
        && cells[i].fill == fill && cells[i].border == theme.borderColor
        && cells[i].numFmt == NumFmt(cols[cells[i].column - 1].format)
        && exists k :: 0 <= k < |entries| && Styled(cols, entries[k])
             && cells[i].column == KeyColumn(cols, entries[k].key).value
             && cells[i].content == CellContent(entries[k].value)
    {
      PlanCellAt(cols, theme, fill, entries, i);
    }
  }

  /** The `i`-th planned cell, one at a time. */
  lemma {:induction false} PlanCellAt(cols: seq<Column>, theme: ResolvedTheme, fill: string, entries: seq<Entry>, i: nat)
    requires i < |PlanCells(cols, theme, fill, entries)|
    ensures var cell := PlanCells(cols, theme, fill, entries)[i];
      && 1 <= cell.column <= |cols|
      && cell.fill == fill && cell.border == theme.borderColor
      && cell.numFmt == NumFmt(cols[cell.column - 1].format)
      && exists k :: 0 <= k < |entries| && Styled(cols, entries[k])
           && cell.column == KeyColumn(cols, entries[k].key).value
           && cell.content == CellContent(entries[k].value)
  {
    var e := entries[0];
    var rest := PlanCells(cols, theme, fill, entries[1..]);
    var cells := PlanCells(cols, theme, fill, entries);
    if Styled(cols, e) && i == 0 {
      var c := KeyColumn(cols, e.key).value;
      assert cells[0] == CellPlan(c, CellContent(e.value), fill, theme.borderColor, NumFmt(cols[c - 1].format));
      assert Styled(cols, entries[0]);
    } else {
      var j := if Styled(cols, e) then i - 1 else i;
      assert cells[i] == rest[j];
      PlanCellAt(cols, theme, fill, entries[1..], j);
      var k :| 0 <= k < |entries[1..]| && Styled(cols, entries[1..][k])
         && rest[j].column == KeyColumn(cols, entries[1..][k].key).value
         && rest[j].content == CellContent(entries[1..][k].value);
      assert entries[1..][k] == entries[k + 1];
    }
  }

  /** Every styled entry of the row gets a planned cell. */
  lemma {:induction false} PlanCellsComplete(cols: seq<Column>, theme: ResolvedTheme, fill: string, entries: seq<Entry>, k: nat)
    requires k < |entries| && Styled(cols, entries[k])
    ensures CellPlan(KeyColumn(cols, entries[k].key).value, CellContent(entries[k].value), fill, theme.borderColor,
                     NumFmt(cols[KeyColumn(cols, entries[k].key).value - 1].format))
            in PlanCells(cols, theme, fill, entries)
  {
    KeyColumnSpec(cols, entries[k].key);
    if k > 0 {
      PlanCellsComplete(cols, theme, fill, entries[1..], k - 1);
    }
  }

  datatype TitlePlan = TitlePlan(text: Option<string>, merge: string, fill: string, font: string)

  datatype FreezePlan = FreezePlan(xSplit: Number, ySplit: Number)

  datatype SheetPlan = SheetPlan(
    name: string,
    columns: seq<ColumnPlan>,
    title: Option<TitlePlan>,
    headerRow: nat,
    headerFill: string,
    headerFont: string,
    freeze: Option<FreezePlan>,
    autoFilter: Option<string>,
    rows: seq<RowPlan>)

  predicate ShowsTitle(sheet: Sheet) {
    sheet.showTitle == Some(true)
  }

  /** `sheetSchema.showTitle ? 2 : 1`. */
  function HeaderRow(sheet: Sheet): nat {
    if ShowsTitle(sheet) then 2 else 1
  }

  /** `sheetSchema.columns?.length || 1`. */
  function LastColumnNumber(sheet: Sheet): (n: nat)
    ensures n >= 1
  {
    if |sheet.columns| == 0 then 1 else |sheet.columns|
  }

  /** The fill of worksheet row `number`: even rows take `rowEvenBg`. */
  function RowFill(theme: ResolvedTheme, number: nat): string {
    if number % 2 == 0 then theme.rowEvenBg else theme.rowOddBg
  }

  /** Data row `i` is added right after the header row and the rows before it. */
  function PlanRow(sheet: Sheet, theme: ResolvedTheme, i: nat): RowPlan
    requires i < |sheet.rows|
  {
    var number := HeaderRow(sheet) + 1 + i;
    RowPlan(number, PlanCells(sheet.columns, theme, RowFill(theme, number), sheet.rows[i]))
  }

  function PlanTitle(title: Option<string>, sheet: Sheet, theme: ResolvedTheme): Option<TitlePlan> {
    if ShowsTitle(sheet) then
      Some(TitlePlan(title, "A1:" + ColumnName(LastColumnNumber(sheet)) + "1", theme.headerBg, theme.headerText))
    else None
  }

  /** `xSplit: x || 0`, `ySplit: y || (showTitle ? 2 : 1)`. */
  function PlanFreeze(sheet: Sheet): Option<FreezePlan> {
    if sheet.freezePanes.Some? then
      var f := sheet.freezePanes.value;
      Some(FreezePlan(
        if f.x.Some? && f.x.value.Truthy() then f.x.value else Finite(0.0),
        if f.y.Some? && f.y.value.Truthy() then f.y.value else Finite(HeaderRow(sheet) as real)))
    else None
  }

  function PlanAutoFilter(sheet: Sheet): Option<string> {
    if sheet.autoFilter == Some(true) then
      var h := NatToString(HeaderRow(sheet));
      Some("A" + h + ":" + ColumnName(LastColumnNumber(sheet)) + h)
    else None
  }

  function PlanSheet(title: Option<string>, sheet: Sheet, theme: ResolvedTheme): (p: SheetPlan) {
    SheetPlan(
      sheet.name,
      seq(|sheet.columns|, j requires 0 <= j < |sheet.columns| => PlanColumn(sheet.columns[j])),
      PlanTitle(title, sheet, theme),
      HeaderRow(sheet),
      theme.headerBg,
      theme.headerText,
      PlanFreeze(sheet),
      PlanAutoFilter(sheet),
      seq(|sheet.rows|, i requires 0 <= i < |sheet.rows| => PlanRow(sheet, theme, i)))
  }

  datatype WorkbookPlan = WorkbookPlan(theme: ResolvedTheme, sheets: seq<SheetPlan>)

  /** `createWorkbook`, as a plan: one worksheet per sheet, in order. */
  function PlanWorkbook(schema: Schema): (r: WorkbookPlan)
    ensures |r.sheets| == |schema.sheets|
  {
    var theme := ResolveTheme(schema.theme);
    WorkbookPlan(theme, seq(|schema.sheets|, i requires 0 <= i < |schema.sheets| =>
      PlanSheet(schema.title, schema.sheets[i], theme)))
  }

  // ---------------------------------------------------------------------------
  // Properties of the plan

  /** Worksheets follow the sheets in order, under their names, with their
      columns in declared order. */
  lemma SheetsInOrder(schema: Schema, i: nat, j: nat)
    requires i < |schema.sheets| && j < |schema.sheets[i].columns|
    ensures PlanWorkbook(schema).sheets[i].name == schema.sheets[i].name
    ensures |PlanWorkbook(schema).sheets[i].columns| == |schema.sheets[i].columns|
    ensures PlanWorkbook(schema).sheets[i].columns[j].key == schema.sheets[i].columns[j].key
  {
  }

  /** The header is on row 2 exactly when a title is shown, and the title is
      merged across the first row up to the last column. */
  lemma TitleAndHeader(title: Option<string>, sheet: Sheet, theme: ResolvedTheme)
    ensures var p := PlanSheet(title, sheet, theme);
      && (p.headerRow == 2 <==> ShowsTitle(sheet))
      && (p.headerRow == 1 <==> !ShowsTitle(sheet))
      && (p.title.Some? <==> ShowsTitle(sheet))
      && (p.title.Some? ==> p.title.value.text == title
                            && p.title.value.merge == "A1:" + ColumnName(LastColumnNumber(sheet)) + "1")
  {
  }

  /** The filter spans the header row from `A` to the last column. */
  lemma AutoFilterRange(sheet: Sheet)
    requires sheet.autoFilter == Some(true)
    ensures ShowsTitle(sheet) ==> PlanAutoFilter(sheet) == Some("A2:" + ColumnName(LastColumnNumber(sheet)) + "2")
    ensures !ShowsTitle(sheet) ==> PlanAutoFilter(sheet) == Some("A1:" + ColumnName(LastColumnNumber(sheet)) + "1")
  {
    assert NatToString(1) == "1" && NatToString(2) == "2";
    var last := ColumnName(LastColumnNumber(sheet));
    assert "A" + "2" + ":" + last + "2" == "A2:" + last + "2";
    assert "A" + "1" + ":" + last + "1" == "A1:" + last + "1";
  }

  /** The code writes the end of both ranges as the single UTF-16 code unit
      `LastColumnCodeAsWritten(n)`. Up to 26 columns that unit is the last
      column's letter, and the plan's ranges are exactly the code's. From 27
      columns on, the plan ends at a name of two or more letters, so both
      ranges are longer than the five units the code writes (`A1:[1` for 27
      columns, where the plan has `A1:AA1`). */
  lemma RangesAgainstCodeAsWritten(title: Option<string>, sheet: Sheet, theme: ResolvedTheme)
    ensures var n := LastColumnNumber(sheet);
      var p := PlanSheet(title, sheet, theme);
      var h := NatToString(HeaderRow(sheet));
      && (n <= 26 ==>
            && (p.title.Some? ==> p.title.value.merge == "A1:" + [LastColumnCodeAsWritten(n) as char] + "1")
            && (p.autoFilter.Some? ==> p.autoFilter.value == "A" + h + ":" + [LastColumnCodeAsWritten(n) as char] + h))
      && (n >= 27 ==>
            && (p.title.Some? ==> |p.title.value.merge| >= 6)
            && (p.autoFilter.Some? ==> |p.autoFilter.value| >= 6))
  {
    var n := LastColumnNumber(sheet);
    if n <= 26 {
      LastColumnAsWrittenUpTo26(n);
    } else {
      assert |ColumnName(n)| >= 2;
    }
  }

  /** Panes are frozen exactly when the sheet asks for it. Each split falls
      back on its own: a missing, zero or NaN `x` freezes no column, and a
      missing, zero or NaN `y` freezes the rows down to the header; any other
      given value is kept. */
  lemma FreezeDefaults(sheet: Sheet)
    ensures PlanFreeze(sheet).Some? <==> sheet.freezePanes.Some?
    ensures sheet.freezePanes.Some? ==>
      var f, p := sheet.freezePanes.value, PlanFreeze(sheet).value;
      && (f.x.None? || f.x == Some(Finite(0.0)) || f.x == Some(NaN) ==> p.xSplit == Finite(0.0))
      && (f.x.Some? && f.x.value.Truthy() ==> p.xSplit == f.x.value)
      && (f.y.None? || f.y == Some(Finite(0.0)) || f.y == Some(NaN) ==> p.ySplit == Finite(HeaderRow(sheet) as real))
      && (f.y.Some? && f.y.value.Truthy() ==> p.ySplit == f.y.value)
  {
  }

  /** Data rows come right after the header, consecutively, and each is
      filled by the parity of its worksheet row number; the header and the
      title are never styled as data. */
  lemma DataRowsAfterHeader(title: Option<string>, sheet: Sheet, theme: ResolvedTheme, i: nat)
    requires i < |sheet.rows|
    ensures var p := PlanSheet(title, sheet, theme);
      && |p.rows| == |sheet.rows|
      && p.rows[i].number == p.headerRow + 1 + i
      && p.rows[i].number > p.headerRow
      && forall c :: c in p.rows[i].cells ==>
           c.fill == (if p.rows[i].number % 2 == 0 then theme.rowEvenBg else theme.rowOddBg)
           && c.border == theme.borderColor
  {
    var p := PlanSheet(title, sheet, theme);
    PlanCellsSpec(sheet.columns, theme, RowFill(theme, p.rows[i].number), sheet.rows[i]);
  }

  /** The first data row is filled with `rowEvenBg` without a title (row 2)
      and with `rowOddBg` with one (row 3). */
  lemma FirstDataRowFill(sheet: Sheet, theme: ResolvedTheme)
    ensures RowFill(theme, HeaderRow(sheet) + 1) == if ShowsTitle(sheet) then theme.rowOddBg else theme.rowEvenBg
  {
  }

  // ---------------------------------------------------------------------------
  // `exportToBuffer`

  datatype Writer = XlsxWriter | CsvWriter

  /** `csv` picks the CSV writer; anything else the xlsx one. */
  function ExportWriter(format: string): (w: Writer)
    ensures w == CsvWriter <==> format == "csv"
  {
    if format == "csv" then CsvWriter else XlsxWriter
  }
}
