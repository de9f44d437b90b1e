/** The request validators `processRequestSchema` and `downloadRequestSchema`:
    tighter bounds than the generated-schema contract (5 sheets, 100
    columns, 5000 rows, 200-unit formulas), identifier-like column keys,
    enumerated formats, and strict objects throughout, so that any property
    not declared is rejected. Nothing is trimmed except the prompt. */
module RequestRules {
  import opened Wrappers
  import opened JsText
  import opened SheetSchema
  import S = StructuralRules

  const MaxSheets: nat := 5
  const MaxColumns: nat := 100
  const MaxRows: nat := 5000
  const MaxFormulaLength: nat := 200
  const MaxThemeColorLength: nat := 9

  const ColumnFormats: seq<string> := ["currency", "date", "percentage", "number", "text"]

  // ---------------------------------------------------------------------------
  // Values, columns, sheets

  /** `/^[a-zA-Z0-9_]+$/`, one character at a time. */
  predicate IsKeyChar(c: char) {
    IsAsciiUpper(c) || IsAsciiLower(c) || IsDigit(c) || c == '_'
  }

  /** `z.string().min(1).max(120).regex(/^[a-zA-Z0-9_]+$/)`. */
  predicate KeyAccepted(key: string) {
    S.LengthWithin(key, 1, 120) && forall i :: 0 <= i < |key| ==> IsKeyChar(key[i])
  }

  /** A string, a number, a boolean, `null`, or a strict `{formula}` object
      with 1..200 units; a cached `result` is an unknown key here. */
  predicate ValueAccepted(v: CellValue) {
    match v
    case Prim(p) => !(p.PNumber? && p.number.NaN?)
    case FormulaCell(f, res, extra) => S.LengthWithin(f, 1, MaxFormulaLength) && res.None? && extra == []
  }

  /** Strict: the `type` property the generated schema allows is unknown here. */
  predicate ColumnAccepted(c: Column) {
    && S.LengthWithin(c.header, 1, 120)
    && KeyAccepted(c.key)
    && (c.width.Some? ==> S.NumberWithin(c.width.value, 5.0, 80.0))
    && S.OptionalIn(c.format, ColumnFormats)
    && S.OptionalIn(c.alignment, S.Alignments)
    && c.kind.None?
    && c.extraKeys == []
  }

  /** Strict: only `x`, so the `y` the renderer reads is rejected. */
  predicate FreezePanesAccepted(f: FreezePanes) {
    (f.x.Some? ==> S.IntegerWithin(f.x.value, 0, 20)) && f.y.None? && f.extraKeys == []
  }

  predicate SheetAccepted(sh: Sheet) {
    && S.LengthWithin(sh.name, 1, 80)
    && (sh.freezePanes.Some? ==> FreezePanesAccepted(sh.freezePanes.value))
    && 1 <= |sh.columns| <= MaxColumns
    && (forall j :: 0 <= j < |sh.columns| ==> ColumnAccepted(sh.columns[j]))
    && |sh.rows| <= MaxRows
    && (forall ri, k :: 0 <= ri < |sh.rows| && 0 <= k < |sh.rows[ri]| ==> ValueAccepted(sh.rows[ri][k].value))
    && sh.extraKeys == []
  }

  predicate ThemeColorAccepted(o: Option<string>) {
    o.Some? ==> Utf16Length(o.value) <= MaxThemeColorLength
  }

  /** Strict, and no colour pattern: any string of at most nine units. */
  predicate ThemeAccepted(t: Theme) {
    && ThemeColorAccepted(t.headerBg) && ThemeColorAccepted(t.headerText)
    && ThemeColorAccepted(t.rowEvenBg) && ThemeColorAccepted(t.rowOddBg)
    && ThemeColorAccepted(t.borderColor)
    && t.extraKeys == []
  }

  /** Strict: `schemaVersion` and `metadata` are unknown keys here. */
  predicate SchemaAccepted(s: Schema) {
    && s.schemaVersion.None?
    && s.metadata.None?
    && (s.title.Some? ==> Utf16Length(s.title.value) <= 150)
    && (s.description.Some? ==> Utf16Length(s.description.value) <= 500)
    && (s.theme.Some? ==> ThemeAccepted(s.theme.value))
    && 1 <= |s.sheets| <= MaxSheets
    && (forall i :: 0 <= i < |s.sheets| ==> SheetAccepted(s.sheets[i]))
    && s.extraKeys == []
  }

  // ---------------------------------------------------------------------------
  // The two requests

  datatype FileFormat = Xlsx | Csv

  function FormatName(f: FileFormat): string {
    match f
    case Xlsx => "xlsx"
    case Csv => "csv"
  }

  /** The body of a download request. */
  datatype DownloadRequest = DownloadRequest(format: Option<string>, schema: Schema, extraKeys: seq<string>)

  /** What a download request parses to. */
  datatype Download = Download(format: FileFormat, schema: Schema)

  /** `z.enum(['xlsx', 'csv']).default('xlsx')`. */
  function ParseFileFormat(o: Option<string>): (r: Option<FileFormat>)
    ensures r.Some? <==> o.None? || o.value in ["xlsx", "csv"]
    ensures r.Some? && o.Some? ==> FormatName(r.value) == o.value
    ensures o.None? ==> r == Some(Xlsx)
  {
    match o
    case None => Some(Xlsx)
    case Some(name) =>
      if name == "xlsx" then Some(Xlsx) else if name == "csv" then Some(Csv) else None
  }

  predicate DownloadAccepted(req: DownloadRequest) {
    ParseFileFormat(req.format).Some? && SchemaAccepted(req.schema) && req.extraKeys == []
  }

  /** `downloadRequestSchema.safeParse`: the schema unchanged and the format
      defaulted, or nothing. */
  function ParseDownload(req: DownloadRequest): (r: Option<Download>)
    ensures r.Some? <==> DownloadAccepted(req)
    ensures r.Some? ==> r.value.schema == req.schema
    ensures r.Some? ==> r.value.format == (if req.format == Some("csv") then Csv else Xlsx)
  {
    var format := ParseFileFormat(req.format);
    if format.Some? && SchemaAccepted(req.schema) && req.extraKeys == [] then
      Some(Download(format.value, req.schema))
    else None
  }

  /** Writing a parsed download back as a request, with its format spelled
      out, parses to the same download. */
  lemma DownloadRoundTrip(d: Download)
    requires SchemaAccepted(d.schema)
    ensures ParseDownload(DownloadRequest(Some(FormatName(d.format)), d.schema, [])) == Some(d)
  {
  }

  /** Leaving the format out is the same as asking for `xlsx`. */
  lemma DownloadFormatDefault(schema: Schema, extra: seq<string>)
    ensures ParseDownload(DownloadRequest(None, schema, extra))
         == ParseDownload(DownloadRequest(Some("xlsx"), schema, extra))
  {
  }

  /** The body of a process request. */
  datatype ProcessRequest = ProcessRequest(prompt: string, extraKeys: seq<string>)

  /** `processRequestSchema.safeParse`: the trimmed prompt when it has
      3..3000 units and there is no other property. */
  function ParseProcess(req: ProcessRequest): (r: Option<string>)
    ensures r.Some? <==> 3 <= Utf16Length(Trim(req.prompt)) <= 3000 && req.extraKeys == []
    ensures r.Some? ==> r.value == Trim(req.prompt)
  {
    var prompt := Trim(req.prompt);
    if 3 <= Utf16Length(prompt) <= 3000 && req.extraKeys == [] then Some(prompt) else None
  }

  /** A parsed prompt parses to itself again. */
  lemma ProcessIdempotent(req: ProcessRequest)
    requires ParseProcess(req).Some?
    ensures ParseProcess(ProcessRequest(ParseProcess(req).value, [])) == ParseProcess(req)
  {
    TrimIdempotent(req.prompt);
  }

  // ---------------------------------------------------------------------------
  // How the request bounds relate to the generated-schema contract

  /** A key of identifier characters holds no white space, so trimming it
      changes nothing. */
  lemma KeyIsTrimmed(key: string)
    requires KeyAccepted(key)
    ensures Trim(key) == key
  {
    TrimOfTrimmed(key);
  }

  /** Every count bound of an accepted download is within the generated-schema
      bounds, and so are the column keys. */
  lemma DownloadCountsWithinContract(s: Schema)
    requires SchemaAccepted(s)
    ensures 1 <= |s.sheets| <= 8
    ensures forall i :: 0 <= i < |s.sheets| ==> 1 <= |s.sheets[i].columns| <= 200 && |s.sheets[i].rows| <= 10000
    ensures forall i, j :: 0 <= i < |s.sheets| && 0 <= j < |s.sheets[i].columns| ==>
      S.TrimmedWithin(s.sheets[i].columns[j].key, 1, 120)
  {
    forall i, j | 0 <= i < |s.sheets| && 0 <= j < |s.sheets[i].columns|
      ensures S.TrimmedWithin(s.sheets[i].columns[j].key, 1, 120)
    {
      assert ColumnAccepted(s.sheets[i].columns[j]);
      KeyIsTrimmed(s.sheets[i].columns[j].key);
    }
  }

  /** The formula bound is not stricter in every respect: the request counts
      untrimmed units, so a formula of three spaces passes it while its
      trimmed text is empty and fails the generated-schema bound. */
  lemma BlankFormulaPassesRequestOnly()
    ensures ValueAccepted(FormulaCell("   ", None, []))
    ensures !S.CellAccepted(FormulaCell("   ", None, []))
  {
    assert Trim("   ") == Trim("  ") == Trim(" ") == Trim("") == "";
  }
}
