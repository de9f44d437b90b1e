/** The structural contract of a generated spreadsheet (the zod schema
    `spreadsheetSchema` and its parts): a declarative acceptance predicate,
    an exhaustive checker that lists every violated bound, and the
    normalisation an accepted value undergoes (trimmed strings, the default
    schema version). */
module StructuralRules {
  import opened Wrappers
  import opened JsText
  import opened SheetSchema

  // ---------------------------------------------------------------------------
  // Where a violation is and which bound it breaks.

  datatype Segment = Field(name: string) | Index(index: nat) | Key(key: string)

  type Path = seq<Segment>

  datatype Rule =
    | TooShort | TooLong | TooFew | TooMany | TooSmall | TooBig
    | NotANumber | NotFinite | NotInteger | BadPattern | NotInEnum | UnrecognizedKeys

  datatype Violation = Violation(path: Path, rule: Rule)

  function Check(ok: bool, path: Path, rule: Rule): (r: seq<Violation>)
    ensures |r| == 0 <==> ok
  {
    if ok then [] else [Violation(path, rule)]
  }

  // ---------------------------------------------------------------------------
  // Bounds shared by several properties.

  /** `z.string().min(lo).max(hi)`: lengths are counted in UTF-16 code units. */
  predicate LengthWithin(s: string, lo: nat, hi: nat) {
    lo <= Utf16Length(s) <= hi
  }

  function LengthViolations(s: string, lo: nat, hi: nat, path: Path): (r: seq<Violation>)
    ensures |r| == 0 <==> LengthWithin(s, lo, hi)
  {
    Check(lo <= Utf16Length(s), path, TooShort) + Check(Utf16Length(s) <= hi, path, TooLong)
  }

  /** `z.string().trim().min(lo).max(hi)`: the bounds apply to the trimmed text. */
  predicate TrimmedWithin(s: string, lo: nat, hi: nat) {
    LengthWithin(Trim(s), lo, hi)
  }

  predicate OptionalTrimmedWithin(o: Option<string>, hi: nat) {
    o.Some? ==> TrimmedWithin(o.value, 0, hi)
  }

  function OptionalTrimmedViolations(o: Option<string>, hi: nat, path: Path): (r: seq<Violation>)
    ensures |r| == 0 <==> OptionalTrimmedWithin(o, hi)
  {
    if o.Some? then LengthViolations(Trim(o.value), 0, hi, path) else []
  }

  /** `z.number().int().min(lo).max(hi)`. */
  predicate IntegerWithin(n: Number, lo: int, hi: int) {
    n.IsInteger() && lo as real <= n.value <= hi as real
  }

  function IntegerViolations(n: Number, lo: int, hi: int, path: Path): (r: seq<Violation>)
    ensures |r| == 0 <==> IntegerWithin(n, lo, hi)
  {
    if n.NaN? then [Violation(path, NotANumber)]
    else if !n.IsInteger() then [Violation(path, NotInteger)]
    else Check(lo as real <= n.value, path, TooSmall) + Check(n.value <= hi as real, path, TooBig)
  }

  /** `z.number().min(lo).max(hi)`: NaN is not a number; the infinities fail a bound. */
  predicate NumberWithin(n: Number, lo: real, hi: real) {
    n.Finite? && lo <= n.value <= hi
  }

  function NumberViolations(n: Number, lo: real, hi: real, path: Path): (r: seq<Violation>)
    ensures |r| == 0 <==> NumberWithin(n, lo, hi)
  {
    match n
    case NaN => [Violation(path, NotANumber)]
    case PosInfinity => [Violation(path, TooBig)]
    case NegInfinity => [Violation(path, TooSmall)]
    case Finite(v) => Check(lo <= v, path, TooSmall) + Check(v <= hi, path, TooBig)
  }

  predicate OptionalIn(o: Option<string>, allowed: seq<string>) {
    o.Some? ==> o.value in allowed
  }

  function OptionalInViolations(o: Option<string>, allowed: seq<string>, path: Path): (r: seq<Violation>)
    ensures |r| == 0 <==> OptionalIn(o, allowed)
  {
    Check(OptionalIn(o, allowed), path, NotInEnum)
  }

  const Alignments: seq<string> := ["left", "center", "right"]
  const Modes: seq<string> := ["standard", "corporate"]

  predicate IsHexDigit(c: char) {
    IsDigit(c) || ('a' <= c <= 'f') || ('A' <= c <= 'F')
  }

  /** `/^#?[A-Fa-f0-9]{6}([A-Fa-f0-9]{2})?$/`: an optional `#`, then six or eight hex digits. */
  predicate HexColor(s: string) {
    var digits := if |s| > 0 && s[0] == '#' then s[1..] else s;
    (|digits| == 6 || |digits| == 8) && forall i :: 0 <= i < |digits| ==> IsHexDigit(digits[i])
  }

  /** `/^\d+\.\d+$/`: digits, one dot, digits. */
  predicate VersionPattern(s: string) {
    exists i :: 0 < i < |s| - 1 && s[i] == '.' && AllDigits(s[..i]) && AllDigits(s[i + 1..])
  }

  // ---------------------------------------------------------------------------
  // Cells.

  predicate PrimitiveAccepted(p: Primitive) {
    match p
    case PString(s) => Utf16Length(s) <= 20000
    case PNumber(n) => n.Finite?
    case _ => true
  }

  function PrimitiveViolations(p: Primitive, path: Path): (r: seq<Violation>)
    ensures |r| == 0 <==> PrimitiveAccepted(p)
  {
    match p
    case PString(s) => Check(Utf16Length(s) <= 20000, path, TooLong)
    case PNumber(n) => if n.NaN? then [Violation(path, NotANumber)] else Check(n.Finite?, path, NotFinite)
    case _ => []
  }

  /** A primitive, or a strict `{formula, result?}` object whose trimmed formula has 1..1024 units. */
  predicate CellAccepted(v: CellValue) {
    match v
    case Prim(p) => PrimitiveAccepted(p)
    case FormulaCell(f, res, extra) =>
      TrimmedWithin(f, 1, 1024) && (res.Some? ==> PrimitiveAccepted(res.value)) && extra == []
  }

  function CellViolations(v: CellValue, path: Path): (r: seq<Violation>)
    ensures |r| == 0 <==> CellAccepted(v)
  {
    match v
    case Prim(p) => PrimitiveViolations(p, path)
    case FormulaCell(f, res, extra) =>
      LengthViolations(Trim(f), 1, 1024, path + [Field("formula")])
      + (if res.Some? then PrimitiveViolations(res.value, path + [Field("result")]) else [])
      + Check(extra == [], path, UnrecognizedKeys)
  }

  // ---------------------------------------------------------------------------
  // Columns, rows, sheets.

  predicate ColumnAccepted(c: Column) {
    && TrimmedWithin(c.header, 1, 120)
    && TrimmedWithin(c.key, 1, 120)
    && (c.width.Some? ==> NumberWithin(c.width.value, 5.0, 300.0))
    && OptionalTrimmedWithin(c.format, 32)
    && OptionalTrimmedWithin(c.kind, 32)
    && OptionalIn(c.alignment, Alignments)
  }

  function ColumnViolations(c: Column, path: Path): (r: seq<Violation>)
    ensures |r| == 0 <==> ColumnAccepted(c)
  {
    LengthViolations(Trim(c.header), 1, 120, path + [Field("header")])
    + LengthViolations(Trim(c.key), 1, 120, path + [Field("key")])
    + (if c.width.Some? then NumberViolations(c.width.value, 5.0, 300.0, path + [Field("width")]) else [])
    + OptionalTrimmedViolations(c.format, 32, path + [Field("format")])
    + OptionalTrimmedViolations(c.kind, 32, path + [Field("type")])
    + OptionalInViolations(c.alignment, Alignments, path + [Field("alignment")])
  }

  function ColumnsViolations(cs: seq<Column>, from: nat, path: Path): (r: seq<Violation>)
    ensures |r| == 0 <==> forall j :: 0 <= j < |cs| ==> ColumnAccepted(cs[j])
  {
    if cs == [] then []
    else
      var head := ColumnViolations(cs[0], path + [Index(from)]);
      var tail := ColumnsViolations(cs[1..], from + 1, path);
      head + tail
  }

  /** `z.record(z.string().min(1).max(120), cell)`. */
  predicate RowAccepted(row: Row) {
    forall k :: 0 <= k < |row| ==> LengthWithin(row[k].key, 1, 120) && CellAccepted(row[k].value)
  }

  function RowViolations(row: Row, path: Path): (r: seq<Violation>)
    ensures |r| == 0 <==> RowAccepted(row)
  {
    if row == [] then []
    else
      LengthViolations(row[0].key, 1, 120, path + [Key(row[0].key)])
      + CellViolations(row[0].value, path + [Key(row[0].key)])
      + RowViolations(row[1..], path)
  }

  function RowsViolations(rows: seq<Row>, from: nat, path: Path): (r: seq<Violation>)
    ensures |r| == 0 <==> forall i :: 0 <= i < |rows| ==> RowAccepted(rows[i])
  {
    if rows == [] then []
    else RowViolations(rows[0], path + [Index(from)]) + RowsViolations(rows[1..], from + 1, path)
  }

  /** Pass-through: `y` and other extra keys are kept, unchecked. */
  predicate FreezePanesAccepted(f: FreezePanes) {
    f.x.Some? ==> IntegerWithin(f.x.value, 0, 20)
  }

  predicate SheetAccepted(sh: Sheet) {
    && TrimmedWithin(sh.name, 1, 80)
    && (sh.freezePanes.Some? ==> FreezePanesAccepted(sh.freezePanes.value))
    && 1 <= |sh.columns| <= 200
    && (forall j :: 0 <= j < |sh.columns| ==> ColumnAccepted(sh.columns[j]))
    && |sh.rows| <= 10000
    && (forall i :: 0 <= i < |sh.rows| ==> RowAccepted(sh.rows[i]))
  }

  function SheetViolations(sh: Sheet, path: Path): (r: seq<Violation>)
    ensures |r| == 0 <==> SheetAccepted(sh)
  {
    LengthViolations(Trim(sh.name), 1, 80, path + [Field("name")])
    + (if sh.freezePanes.Some? && sh.freezePanes.value.x.Some?
       then IntegerViolations(sh.freezePanes.value.x.value, 0, 20, path + [Field("freezePanes"), Field("x")])
       else [])
    + Check(1 <= |sh.columns|, path + [Field("columns")], TooFew)
    + Check(|sh.columns| <= 200, path + [Field("columns")], TooMany)
    + ColumnsViolations(sh.columns, 0, path + [Field("columns")])
    + Check(|sh.rows| <= 10000, path + [Field("rows")], TooMany)
    + RowsViolations(sh.rows, 0, path + [Field("rows")])
  }

  function SheetsViolations(sheets: seq<Sheet>, from: nat, path: Path): (r: seq<Violation>)
    ensures |r| == 0 <==> forall i :: 0 <= i < |sheets| ==> SheetAccepted(sheets[i])
  {
    if sheets == [] then []
    else SheetViolations(sheets[0], path + [Index(from)]) + SheetsViolations(sheets[1..], from + 1, path)
  }

  // ---------------------------------------------------------------------------
  // Theme, metadata, schema.

  predicate ColorAccepted(o: Option<string>) {
    o.Some? ==> HexColor(o.value) && Utf16Length(o.value) <= 9
  }

  function ColorViolations(o: Option<string>, path: Path): (r: seq<Violation>)
    ensures |r| == 0 <==> ColorAccepted(o)
  {
    if o.Some? then Check(HexColor(o.value), path, BadPattern) + Check(Utf16Length(o.value) <= 9, path, TooLong)
    else []
  }

  /** Pass-through: extra keys are allowed. */
  predicate ThemeAccepted(t: Theme) {
    ColorAccepted(t.headerBg) && ColorAccepted(t.headerText) && ColorAccepted(t.rowEvenBg)
    && ColorAccepted(t.rowOddBg) && ColorAccepted(t.borderColor)
  }

  function ThemeViolations(t: Theme, path: Path): (r: seq<Violation>)
    ensures |r| == 0 <==> ThemeAccepted(t)
  {
    ColorViolations(t.headerBg, path + [Field("headerBg")])
    + ColorViolations(t.headerText, path + [Field("headerText")])
    + ColorViolations(t.rowEvenBg, path + [Field("rowEvenBg")])
    + ColorViolations(t.rowOddBg, path + [Field("rowOddBg")])
    + ColorViolations(t.borderColor, path + [Field("borderColor")])
  }

  /** Strict: no keys besides the five declared ones. */
  predicate MetadataAccepted(m: Metadata) {
    && OptionalTrimmedWithin(m.locale, 32)
    && OptionalTrimmedWithin(m.currency, 8)
    && (m.fiscalYearStartMonth.Some? ==> IntegerWithin(m.fiscalYearStartMonth.value, 1, 12))
    && OptionalTrimmedWithin(m.businessUnit, 120)
    && OptionalIn(m.mode, Modes)
    && m.extraKeys == []
  }

  function MetadataViolations(m: Metadata, path: Path): (r: seq<Violation>)
    ensures |r| == 0 <==> MetadataAccepted(m)
  {
    OptionalTrimmedViolations(m.locale, 32, path + [Field("locale")])
    + OptionalTrimmedViolations(m.currency, 8, path + [Field("currency")])
    + (if m.fiscalYearStartMonth.Some?
       then IntegerViolations(m.fiscalYearStartMonth.value, 1, 12, path + [Field("fiscalYearStartMonth")])
       else [])
    + OptionalTrimmedViolations(m.businessUnit, 120, path + [Field("businessUnit")])
    + OptionalInViolations(m.mode, Modes, path + [Field("mode")])
    + Check(m.extraKeys == [], path, UnrecognizedKeys)
  }

  /** The whole structural contract: 1..8 sheets, each with 1..200 columns and
      at most 10000 rows, and every bound of every part. */
  predicate SchemaAccepted(s: Schema) {
    && (s.schemaVersion.Some? ==> VersionPattern(s.schemaVersion.value))
    && OptionalTrimmedWithin(s.title, 150)
    && OptionalTrimmedWithin(s.description, 500)
    && (s.metadata.Some? ==> MetadataAccepted(s.metadata.value))
    && (s.theme.Some? ==> ThemeAccepted(s.theme.value))
    && 1 <= |s.sheets| <= 8
    && (forall i :: 0 <= i < |s.sheets| ==> SheetAccepted(s.sheets[i]))
  }

  function SchemaViolations(s: Schema): (r: seq<Violation>)
    ensures |r| == 0 <==> SchemaAccepted(s)
  {
    (if s.schemaVersion.Some? then Check(VersionPattern(s.schemaVersion.value), [Field("schemaVersion")], BadPattern) else [])
    + OptionalTrimmedViolations(s.title, 150, [Field("title")])
    + OptionalTrimmedViolations(s.description, 500, [Field("description")])
    + (if s.metadata.Some? then MetadataViolations(s.metadata.value, [Field("metadata")]) else [])
    + (if s.theme.Some? then ThemeViolations(s.theme.value, [Field("theme")]) else [])
    + Check(1 <= |s.sheets|, [Field("sheets")], TooFew)
    + Check(|s.sheets| <= 8, [Field("sheets")], TooMany)
    + SheetsViolations(s.sheets, 0, [Field("sheets")])
  }

  // ---------------------------------------------------------------------------
  // The value an accepted schema parses to: every `.trim()` string trimmed and
  // `schemaVersion` defaulted to "1.0".

  function TrimOption(o: Option<string>): Option<string> {
    if o.Some? then Some(Trim(o.value)) else None
  }

  function NormalizeCell(v: CellValue): CellValue {
    match v
    case Prim(p) => v
    case FormulaCell(f, res, extra) => FormulaCell(Trim(f), res, extra)
  }

  function NormalizeRow(row: Row): (r: Row)
    ensures |r| == |row|
  {
    seq(|row|, k requires 0 <= k < |row| => Entry(row[k].key, NormalizeCell(row[k].value)))
  }

  function NormalizeColumn(c: Column): Column {
    c.(header := Trim(c.header), key := Trim(c.key), format := TrimOption(c.format), kind := TrimOption(c.kind))
  }

  function NormalizeSheet(sh: Sheet): (r: Sheet)
    ensures |r.columns| == |sh.columns| && |r.rows| == |sh.rows|
  {
    sh.(name := Trim(sh.name),
        columns := seq(|sh.columns|, j requires 0 <= j < |sh.columns| => NormalizeColumn(sh.columns[j])),
        rows := seq(|sh.rows|, i requires 0 <= i < |sh.rows| => NormalizeRow(sh.rows[i])))
  }

  function NormalizeMetadata(m: Metadata): Metadata {
    m.(locale := TrimOption(m.locale), currency := TrimOption(m.currency), businessUnit := TrimOption(m.businessUnit))
  }

  function Normalize(s: Schema): (r: Schema)
    ensures |r.sheets| == |s.sheets|
  {
    s.(schemaVersion := Some(s.schemaVersion.GetOr("1.0")),
       title := TrimOption(s.title),
       description := TrimOption(s.description),
       metadata := if s.metadata.Some? then Some(NormalizeMetadata(s.metadata.value)) else None,
       sheets := seq(|s.sheets|, i requires 0 <= i < |s.sheets| => NormalizeSheet(s.sheets[i])))
  }

  /** `spreadsheetSchema.safeParse`: the normalised schema, or every violation. */
  function Parse(s: Schema): (r: Result<Schema, seq<Violation>>)
    ensures r.Success? <==> SchemaAccepted(s)
    ensures r.Failure? ==> |r.error| > 0
    ensures r.Success? ==> r.value == Normalize(s)
  {
    var violations := SchemaViolations(s);
    if |violations| == 0 then Success(Normalize(s)) else Failure(violations)
  }

  // ---------------------------------------------------------------------------
  // Normalisation is stable: what `Parse` returns parses to itself.

  lemma TrimOptionIdempotent(o: Option<string>)
    ensures TrimOption(TrimOption(o)) == TrimOption(o)
  {
    if o.Some? { TrimIdempotent(o.value); }
  }

  // Idempotence needs no acceptance: trimming twice is trimming once.

  lemma ColumnIdempotent(c: Column)
    ensures NormalizeColumn(NormalizeColumn(c)) == NormalizeColumn(c)
  {
    TrimIdempotent(c.header);
    TrimIdempotent(c.key);
    TrimOptionIdempotent(c.format);
    TrimOptionIdempotent(c.kind);
  }

  lemma CellIdempotent(v: CellValue)
    ensures NormalizeCell(NormalizeCell(v)) == NormalizeCell(v)
  {
    match v
    case Prim(_) =>
    case FormulaCell(f, res, extra) => TrimIdempotent(f);
  }

  lemma RowIdempotent(row: Row)
    ensures NormalizeRow(NormalizeRow(row)) == NormalizeRow(row)
  {
    var n := NormalizeRow(row);
    forall k | 0 <= k < |row| ensures NormalizeCell(n[k].value) == n[k].value {
      CellIdempotent(row[k].value);
    }
  }

  lemma ColumnsIdempotent(cs: seq<Column>) returns (n: seq<Column>)
    ensures |n| == |cs| && forall j :: 0 <= j < |cs| ==> n[j] == NormalizeColumn(cs[j])
    ensures forall j :: 0 <= j < |n| ==> NormalizeColumn(n[j]) == n[j]
  {
    n := seq(|cs|, j requires 0 <= j < |cs| => NormalizeColumn(cs[j]));
    forall j | 0 <= j < |cs| ensures NormalizeColumn(n[j]) == n[j] {
      ColumnIdempotent(cs[j]);
    }
  }

  lemma RowsIdempotent(rows: seq<Row>) returns (n: seq<Row>)
    ensures |n| == |rows| && forall i :: 0 <= i < |rows| ==> n[i] == NormalizeRow(rows[i])
    ensures forall i :: 0 <= i < |n| ==> NormalizeRow(n[i]) == n[i]
  {
    n := seq(|rows|, i requires 0 <= i < |rows| => NormalizeRow(rows[i]));
    forall i | 0 <= i < |rows| ensures NormalizeRow(n[i]) == n[i] {
      RowIdempotent(rows[i]);
    }
  }

  lemma SheetIdempotent(sh: Sheet)
    ensures NormalizeSheet(NormalizeSheet(sh)) == NormalizeSheet(sh)
  {
    var n := NormalizeSheet(sh);
    TrimIdempotent(sh.name);
    var cs := ColumnsIdempotent(sh.columns);
    var rs := RowsIdempotent(sh.rows);
    assert n.columns == cs;
    assert n.rows == rs;
    assert NormalizeSheet(n).columns == n.columns;
    assert NormalizeSheet(n).rows == n.rows;
  }

  lemma MetadataIdempotent(m: Metadata)
    ensures NormalizeMetadata(NormalizeMetadata(m)) == NormalizeMetadata(m)
  {
    TrimOptionIdempotent(m.locale);
    TrimOptionIdempotent(m.currency);
    TrimOptionIdempotent(m.businessUnit);
  }

  lemma SheetsIdempotent(sheets: seq<Sheet>) returns (n: seq<Sheet>)
    ensures |n| == |sheets| && forall i :: 0 <= i < |sheets| ==> n[i] == NormalizeSheet(sheets[i])
    ensures forall i :: 0 <= i < |n| ==> NormalizeSheet(n[i]) == n[i]
  {
    n := seq(|sheets|, i requires 0 <= i < |sheets| => NormalizeSheet(sheets[i]));
    forall i | 0 <= i < |sheets| ensures NormalizeSheet(n[i]) == n[i] {
      SheetIdempotent(sheets[i]);
    }
  }

  lemma NormalizeIdempotentText(s: Schema)
    ensures Normalize(Normalize(s)).title == Normalize(s).title
    ensures Normalize(Normalize(s)).description == Normalize(s).description
    ensures Normalize(Normalize(s)).schemaVersion == Normalize(s).schemaVersion
  {
    TrimOptionIdempotent(s.title);
    TrimOptionIdempotent(s.description);
  }

  lemma NormalizeIdempotentMetadata(s: Schema)
    ensures Normalize(Normalize(s)).metadata == Normalize(s).metadata
  {
    if s.metadata.Some? { MetadataIdempotent(s.metadata.value); }
  }

  lemma NormalizeIdempotentSheets(s: Schema)
    ensures Normalize(Normalize(s)).sheets == Normalize(s).sheets
  {
    var ns := SheetsIdempotent(s.sheets);
    assert Normalize(s).sheets == ns;
  }

  lemma NormalizeIdempotent(s: Schema)
    ensures Normalize(Normalize(s)) == Normalize(s)
  {
    NormalizeIdempotentText(s);
    NormalizeIdempotentMetadata(s);
    NormalizeIdempotentSheets(s);
  }

  // A normalised accepted value is still accepted: bounds are checked on the
  // trimmed text, which trimming again leaves unchanged.

  lemma ColumnAcceptedNormalized(c: Column)
    requires ColumnAccepted(c)
    ensures ColumnAccepted(NormalizeColumn(c))
  {
    TrimIdempotent(c.header);
    TrimIdempotent(c.key);
    TrimOptionIdempotent(c.format);
    TrimOptionIdempotent(c.kind);
  }

  lemma RowAcceptedNormalized(row: Row)
    requires RowAccepted(row)
    ensures RowAccepted(NormalizeRow(row))
  {
    var n := NormalizeRow(row);
    forall k | 0 <= k < |row| ensures CellAccepted(n[k].value) {
      match row[k].value
      case Prim(_) =>
      case FormulaCell(f, res, extra) => TrimIdempotent(f);
    }
  }

  lemma SheetAcceptedNormalized(sh: Sheet)
    requires SheetAccepted(sh)
    ensures SheetAccepted(NormalizeSheet(sh))
  {
    var n := NormalizeSheet(sh);
    TrimIdempotent(sh.name);
    forall j | 0 <= j < |sh.columns| ensures ColumnAccepted(n.columns[j]) {
      ColumnAcceptedNormalized(sh.columns[j]);
    }
    forall i | 0 <= i < |sh.rows| ensures RowAccepted(n.rows[i]) {
      RowAcceptedNormalized(sh.rows[i]);
    }
  }

  lemma MetadataAcceptedNormalized(m: Metadata)
    requires MetadataAccepted(m)
    ensures MetadataAccepted(NormalizeMetadata(m))
  {
    TrimOptionIdempotent(m.locale);
    TrimOptionIdempotent(m.currency);
    TrimOptionIdempotent(m.businessUnit);
    var n := NormalizeMetadata(m);
    assert OptionalTrimmedWithin(n.locale, 32);
    assert OptionalTrimmedWithin(n.currency, 8);
    assert OptionalTrimmedWithin(n.businessUnit, 120);
    assert n.fiscalYearStartMonth == m.fiscalYearStartMonth && n.mode == m.mode && n.extraKeys == m.extraKeys;
  }

  lemma DefaultVersionMatches()
    ensures VersionPattern("1.0")
  {
    assert "1.0"[1] == '.' && "1.0"[..1] == "1" && "1.0"[2..] == "0";
  }

  lemma SheetsAcceptedNormalized(s: Schema)
    requires forall i :: 0 <= i < |s.sheets| ==> SheetAccepted(s.sheets[i])
    ensures forall i :: 0 <= i < |Normalize(s).sheets| ==> SheetAccepted(Normalize(s).sheets[i])
  {
    var n := Normalize(s);
    forall i | 0 <= i < |s.sheets| ensures SheetAccepted(n.sheets[i]) {
      SheetAcceptedNormalized(s.sheets[i]);
    }
  }

  lemma TrimOptionAccepted(o: Option<string>, hi: nat)
    requires OptionalTrimmedWithin(o, hi)
    ensures OptionalTrimmedWithin(TrimOption(o), hi)
  {
    TrimOptionIdempotent(o);
  }

  lemma NormalizeAcceptedMetadata(s: Schema)
    requires SchemaAccepted(s)
    ensures Normalize(s).metadata.Some? ==> MetadataAccepted(Normalize(s).metadata.value)
  {
    if s.metadata.Some? { MetadataAcceptedNormalized(s.metadata.value); }
  }

  lemma NormalizeAccepted(s: Schema)
    requires SchemaAccepted(s)
    ensures SchemaAccepted(Normalize(s))
  {
    TrimOptionAccepted(s.title, 150);
    TrimOptionAccepted(s.description, 500);
    DefaultVersionMatches();
    NormalizeAcceptedMetadata(s);
    SheetsAcceptedNormalized(s);
  }

  /** Parsing an accepted schema's result yields that same result again:
      the trimming and defaulting zod applies are idempotent and never
      break a bound. */
  lemma ParseIdempotent(s: Schema)
    requires Parse(s).Success?
    ensures Parse(Parse(s).value) == Parse(s)
  {
    NormalizeAccepted(s);
    NormalizeIdempotent(s);
  }
}
