/** The spreadsheet controller: the text generator's answer for a prompt,
    passed on as it is, and the download's file name, MIME type
    and writer. The generator is a parameter; its failures are passed on. */
module Controller {
  import opened Wrappers
  import opened SheetSchema
  import opened RenderPlan

  /** What the generator answers: a schema and two pieces of follow-up text. */
  datatype GeneratorResponse = GeneratorResponse(schema: Schema, followUp: string, suggestions: seq<string>)

  datatype ProcessResult = ProcessResult(status: string, schema: Schema, followUp: string, suggestions: seq<string>)

  /** `processRequest`: the answer depends on the generator only through its
      answer for the prompt as given. There is no retry and no repair: a
      failure is passed on unchanged, and a success is wrapped with status
      `success` and its parts kept as they are. */
  method ProcessRequest(prompt: string, generate: string -> Result<GeneratorResponse, string>)
    returns (r: Result<ProcessResult, string>)
    ensures generate(prompt).Failure? ==> r == Failure(generate(prompt).error)
    ensures generate(prompt).Success? ==>
      var g := generate(prompt).value;
      r == Success(ProcessResult("success", g.schema, g.followUp, g.suggestions))
  {
    var response := generate(prompt);
    if response.Failure? {
      r := Failure(response.error);
      return;
    }
    var g := response.value;
    r := Success(ProcessResult("success", g.schema, g.followUp, g.suggestions));
  }

  const XlsxMime: string := "application/vnd.openxmlformats-officedocument.spreadsheetml.sheet"
  const CsvMime: string := "text/csv"

  datatype FileResponse = FileResponse(content: WorkbookPlan, writer: Writer, filename: string, mimeType: string)

  /** `${schema.title || 'planilha'}`. */
  function BaseName(title: Option<string>): (b: string)
    ensures b != ""
  {
    if title.Some? && title.value != "" then title.value else "planilha"
  }

  /** `generateFile`: the format defaults to `xlsx`; the file is named after
      the title and the format; the MIME type is the spreadsheet type for
      `xlsx` and `text/csv` for anything else. */
  function GenerateFile(schema: Schema, format: Option<string>): (r: FileResponse)
    ensures r.content == PlanWorkbook(schema)
  {
    var f := format.GetOr("xlsx");
    FileResponse(PlanWorkbook(schema), ExportWriter(f), BaseName(schema.title) + "." + f,
                 if f == "xlsx" then XlsxMime else CsvMime)
  }

  /** The file name is the title, or `planilha` when there is none or it is
      empty, then a dot and the format. */
  lemma FileNameParts(schema: Schema, format: Option<string>)
    ensures var f := format.GetOr("xlsx");
      && GenerateFile(schema, format).filename == BaseName(schema.title) + "." + f
      && (schema.title.None? || schema.title == Some("") ==> GenerateFile(schema, format).filename == "planilha." + f)
      && (schema.title.Some? && schema.title.value != "" ==>
            GenerateFile(schema, format).filename == schema.title.value + "." + f)
  {
  }

  /** For the two declared formats the writer and the MIME type agree, and a
      missing format means an `.xlsx` spreadsheet. */
  lemma DeclaredFormatsAgree(schema: Schema)
    ensures GenerateFile(schema, Some("xlsx")).writer == XlsxWriter && GenerateFile(schema, Some("xlsx")).mimeType == XlsxMime
    ensures GenerateFile(schema, Some("csv")).writer == CsvWriter && GenerateFile(schema, Some("csv")).mimeType == CsvMime
    ensures GenerateFile(schema, None) == GenerateFile(schema, Some("xlsx"))
  {
  }

  /** Any other format string reaches the xlsx writer but is labelled
      `text/csv`: the two decisions test different strings. */
  lemma UndeclaredFormatMismatch(schema: Schema, format: string)
    requires format != "xlsx" && format != "csv"
    ensures GenerateFile(schema, Some(format)).writer == XlsxWriter
    ensures GenerateFile(schema, Some(format)).mimeType == CsvMime
  {
  }
}
