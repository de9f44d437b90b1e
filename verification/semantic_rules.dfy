/** The semantic checker run on a structurally valid schema: duplicate column
    keys, row keys that name no column, unsafe formulas and references to
    sheets that do not exist. It never stops early; the issues come out
    sheet by sheet, and within a sheet all column checks come before the rows,
    rows in order and, within a row, its keys in enumeration order. */
module SemanticRules {
  import opened JsText
  import opened Collections
  import opened SheetSchema
  import opened FormulaSafety
  import opened SheetReferences

  datatype IssueCode = DuplicateColumnKey | UnknownRowKey | UnsafeFormula | UnknownSheetReference

  /** The `code` string the issue carries. */
  function CodeName(c: IssueCode): string {
    match c
    case DuplicateColumnKey => "DUPLICATE_COLUMN_KEY"
    case UnknownRowKey => "UNKNOWN_ROW_KEY"
    case UnsafeFormula => "UNSAFE_FORMULA"
    case UnknownSheetReference => "UNKNOWN_SHEET_REFERENCE"
  }

  /** Where an issue points. */
  datatype IssuePath =
    | ColumnKeyPath(sheet: nat, column: nat)
    | CellPath(sheet: nat, row: nat, key: string)
    | FormulaPath(sheet: nat, row: nat, key: string)

  /** What an issue says. */
  datatype Message =
    | DuplicateKeyMessage(key: string, sheetName: string)
    | UnknownKeyMessage(key: string, sheetName: string)
    | BlockedPatternMessage
    | MissingSheetMessage(sheet: string)

  /** An issue is kept structured; `PathText` and `MessageText` give the
      `path` and `message` strings the checker builds. */
  datatype Issue = Issue(code: IssueCode, path: IssuePath, message: Message)

  /** Every issue of the list carries code `c`. */
  predicate OnlyCode(issues: seq<Issue>, c: IssueCode) {
    forall i :: 0 <= i < |issues| ==> issues[i].code == c
  }

  /** No issue of the list carries code `c`. */
  predicate NoCode(issues: seq<Issue>, c: IssueCode) {
    forall i :: 0 <= i < |issues| ==> issues[i].code != c
  }

  function PathText(p: IssuePath): string {
    match p
    case ColumnKeyPath(si, j) => "sheets[" + NatToString(si) + "].columns[" + NatToString(j) + "].key"
    case CellPath(si, ri, key) => "sheets[" + NatToString(si) + "].rows[" + NatToString(ri) + "]." + key
    case FormulaPath(si, ri, key) =>
      "sheets[" + NatToString(si) + "].rows[" + NatToString(ri) + "]." + key + ".formula"
  }

  function MessageText(m: Message): string {
    match m
    case DuplicateKeyMessage(key, sheetName) =>
      "A chave \"" + key + "\" está duplicada na aba \"" + sheetName + "\"."
    case UnknownKeyMessage(key, sheetName) =>
      "A chave \"" + key + "\" não existe nas colunas da aba \"" + sheetName + "\"."
    case BlockedPatternMessage => "A fórmula contém padrão bloqueado por segurança."
    case MissingSheetMessage(sheet) => "A fórmula referencia a aba \"" + sheet + "\" que não existe."
  }

  function DuplicateKeyIssue(si: nat, j: nat, key: string, sheetName: string): Issue {
    Issue(DuplicateColumnKey, ColumnKeyPath(si, j), DuplicateKeyMessage(key, sheetName))
  }

  function UnknownRowKeyIssue(si: nat, ri: nat, key: string, sheetName: string): Issue {
    Issue(UnknownRowKey, CellPath(si, ri, key), UnknownKeyMessage(key, sheetName))
  }

  function UnsafeFormulaIssue(si: nat, ri: nat, key: string): Issue {
    Issue(UnsafeFormula, FormulaPath(si, ri, key), BlockedPatternMessage)
  }

  function UnknownReferenceIssue(si: nat, ri: nat, key: string, sheet: string): Issue {
    Issue(UnknownSheetReference, FormulaPath(si, ri, key), MissingSheetMessage(sheet))
  }

  // ---------------------------------------------------------------------------
  // Columns

  /** The set `columnKeys` once the first `j` columns have been visited: a
      key already present is not added again, which leaves the set as it is. */
  function KeysBefore(cols: seq<Column>, j: nat): set<string>
    requires j <= |cols|
  {
    if j == 0 then {} else KeysBefore(cols, j - 1) + {cols[j - 1].key}
  }

  /** The set holds exactly the keys of the columns visited. */
  lemma {:induction false} KeysBeforeMembers(cols: seq<Column>, j: nat, x: string)
    requires j <= |cols|
    ensures x in KeysBefore(cols, j) <==> exists i :: 0 <= i < j && cols[i].key == x
  {
    if j > 0 {
      KeysBeforeMembers(cols, j - 1, x);
      if x in KeysBefore(cols, j - 1) {
        var i :| 0 <= i < j - 1 && cols[i].key == x;
        assert 0 <= i < j && cols[i].key == x;
      } else if x == cols[j - 1].key {
        assert 0 <= j - 1 < j && cols[j - 1].key == x;
      }
    }
  }

  /** The check of column `j`. */
  function ColumnIssue(si: nat, sheet: Sheet, j: nat): seq<Issue>
    requires j < |sheet.columns|
  {
    var key := sheet.columns[j].key;
    if key in KeysBefore(sheet.columns, j) then [DuplicateKeyIssue(si, j, key, sheet.name)] else []
  }

  /** The column checks of the first `n` columns. */
  function ColumnIssuesUpTo(si: nat, sheet: Sheet, n: nat): (r: seq<Issue>)
    requires n <= |sheet.columns|
  {
    if n == 0 then []
    else
      ColumnIssuesUpTo(si, sheet, n - 1) + ColumnIssue(si, sheet, n - 1)
  }

  // ---------------------------------------------------------------------------
  // Cells

  /** The sheet-reference checks of a safe formula, for its first `n` references. */
  function ReferenceIssuesUpTo(si: nat, ri: nat, key: string, refs: seq<string>, names: set<string>, n: nat)
    : (r: seq<Issue>)
    requires n <= |refs|
  {
    if n == 0 then []
    else
      ReferenceIssuesUpTo(si, ri, key, refs, names, n - 1)
      + if refs[n - 1] in names then [] else [UnknownReferenceIssue(si, ri, key, refs[n - 1])]
  }

  /** The sheet-reference checks of a safe (already trimmed) formula, whose
      references are `refs` (`ReferenceIssuesReport` states what they are). */
  function ReferenceIssues(si: nat, ri: nat, key: string, refs: seq<string>, names: set<string>): (r: seq<Issue>)
  {
    ReferenceIssuesUpTo(si, ri, key, refs, names, |refs|)
  }

  /** Among the first `n` references, exactly the missing sheets are
      reported, without repetition when the references are distinct. */
  lemma {:induction false} ReferenceIssuesUpToReport(si: nat, ri: nat, key: string, refs: seq<string>,
                                                      names: set<string>, n: nat)
    requires n <= |refs|
    ensures var r := ReferenceIssuesUpTo(si, ri, key, refs, names, n);
      && OnlyCode(r, UnknownSheetReference)
      && (forall x :: UnknownReferenceIssue(si, ri, key, x) in r <==> x in refs[..n] && x !in names)
      && (|r| == 0 <==> forall k :: 0 <= k < n ==> refs[k] in names)
      && (Distinct(refs) ==> Distinct(r))
  {
    if n > 0 {
      ReferenceIssuesUpToReport(si, ri, key, refs, names, n - 1);
      assert refs[..n] == refs[..n - 1] + [refs[n - 1]];
      if Distinct(refs) && refs[n - 1] !in names {
        assert refs[n - 1] !in refs[..n - 1];
      }
    }
  }

  /** A safe formula's references that are not sheets of the schema are
      reported, each once when the references are distinct, and nothing
      else is; there is no issue exactly when every reference exists. */
  lemma ReferenceIssuesReport(si: nat, ri: nat, key: string, refs: seq<string>, names: set<string>)
    ensures var r := ReferenceIssues(si, ri, key, refs, names);
      && OnlyCode(r, UnknownSheetReference)
      && (forall x :: UnknownReferenceIssue(si, ri, key, x) in r <==> x in refs && x !in names)
      && (|r| == 0 <==> forall x :: x in refs ==> x in names)
      && (Distinct(refs) ==> Distinct(r))
  {
    ReferenceIssuesUpToReport(si, ri, key, refs, names, |refs|);
    assert refs[..|refs|] == refs;
  }

  /** A formula passes when it is safe and every sheet it names exists. */
  predicate FormulaValid(v: CellValue, names: set<string>) {
    v.FormulaCell? ==>
      !IsDangerousFormula(Trim(v.formula))
      && forall x :: x in ExtractSheetReferences(Trim(v.formula)) ==> x in names
  }

  /** The formula checks of one cell value (`isFormulaValue` and what follows it). */
  function FormulaIssues(si: nat, ri: nat, key: string, v: CellValue, names: set<string>): (r: seq<Issue>)
  {
    match v
    case Prim(_) => []
    case FormulaCell(f, _, _) =>
      var formula := Trim(f);
      if IsDangerousFormula(formula) then [UnsafeFormulaIssue(si, ri, key)]
      else ReferenceIssues(si, ri, key, ExtractSheetReferences(formula), names)
  }

  /** The checks of one row property. */
  function EntryIssues(si: nat, ri: nat, sheetName: string, keys: set<string>, e: Entry, names: set<string>)
    : seq<Issue>
  {
    var formulaIssues := FormulaIssues(si, ri, e.key, e.value, names);
    if e.key in keys then formulaIssues
    else [UnknownRowKeyIssue(si, ri, e.key, sheetName)] + formulaIssues
  }

  /** A row property passes: its key names a column and its value, if a
      formula, passes. */
  predicate EntryValid(keys: set<string>, e: Entry, names: set<string>) {
    e.key in keys && FormulaValid(e.value, names)
  }

  // ---------------------------------------------------------------------------
  // Sheets

  /** The keys of the sheet's columns, i.e. `columnKeys` after the column pass. */
  function SheetKeys(sheet: Sheet): set<string> {
    KeysBefore(sheet.columns, |sheet.columns|)
  }

  /** No two columns share a key. */
  predicate DistinctColumnKeys(cols: seq<Column>) {
    forall j, k :: 0 <= k < j < |cols| ==> cols[k].key != cols[j].key
  }

  /** A sheet passes: its column keys are distinct and every property of
      every row is valid. */
  predicate SheetValid(sheet: Sheet, names: set<string>) {
    && DistinctColumnKeys(sheet.columns)
    && forall ri, k :: 0 <= ri < |sheet.rows| && 0 <= k < |sheet.rows[ri]| ==>
         EntryValid(SheetKeys(sheet), sheet.rows[ri][k], names)
  }

  /** The schema passes every semantic rule. */
  predicate SemanticallyValid(schema: Schema) {
    forall i :: 0 <= i < |schema.sheets| ==> SheetValid(schema.sheets[i], SheetNames(schema.sheets))
  }

  /** A stretch of the checker's nested loops: the first `n` sheets, one
      sheet, the first `n` rows of sheet `si`, the first `n` properties of
      row `ri`, or property `k` of that row. */
  datatype Scope =
    | SheetsScope(n: nat)
    | SheetScope(si: nat)
    | RowsScope(si: nat, n: nat)
    | RowScope(si: nat, ri: nat, n: nat)
    | EntryScope(si: nat, ri: nat, k: nat)

  /** The scope's indices lie inside the schema. */
  predicate Within(sheets: seq<Sheet>, scope: Scope) {
    match scope
    case SheetsScope(n) => n <= |sheets|
    case SheetScope(si) => si < |sheets|
    case RowsScope(si, n) => si < |sheets| && n <= |sheets[si].rows|
    case RowScope(si, ri, n) => si < |sheets| && ri < |sheets[si].rows| && n <= |sheets[si].rows[ri]|
    case EntryScope(si, ri, k) => si < |sheets| && ri < |sheets[si].rows| && k < |sheets[si].rows[ri]|
  }

  function Level(scope: Scope): nat {
    match scope
    case SheetsScope(_) => 4
    case SheetScope(_) => 3
    case RowsScope(_, _) => 2
    case RowScope(_, _, _) => 1
    case EntryScope(_, _, _) => 0
  }

  function Count(scope: Scope): nat {
    match scope
    case SheetsScope(n) => n
    case RowsScope(_, n) => n
    case RowScope(_, _, n) => n
    case _ => 0
  }

  /** The issues the checker pushes within a scope, in push order: per sheet
      the column checks first, then the rows in order and, within a row,
      its properties in enumeration order. */
  function Issues(sheets: seq<Sheet>, names: set<string>, scope: Scope): seq<Issue>
    requires Within(sheets, scope)
    decreases Level(scope), Count(scope)
  {
    match scope
    case SheetsScope(n) =>
      if n == 0 then [] else Issues(sheets, names, SheetsScope(n - 1)) + Issues(sheets, names, SheetScope(n - 1))
    case SheetScope(si) =>
      ColumnIssuesUpTo(si, sheets[si], |sheets[si].columns|) + Issues(sheets, names, RowsScope(si, |sheets[si].rows|))
    case RowsScope(si, n) =>
      if n == 0 then []
      else Issues(sheets, names, RowsScope(si, n - 1)) + Issues(sheets, names, RowScope(si, n - 1, |sheets[si].rows[n - 1]|))
    case RowScope(si, ri, n) =>
      if n == 0 then []
      else Issues(sheets, names, RowScope(si, ri, n - 1)) + Issues(sheets, names, EntryScope(si, ri, n - 1))
    case EntryScope(si, ri, k) =>
      EntryIssues(si, ri, sheets[si].name, SheetKeys(sheets[si]), sheets[si].rows[ri][k], names)
  }

  /** Passing the checks of a scope, in the same shape as `Issues`. */
  predicate Passes(sheets: seq<Sheet>, names: set<string>, scope: Scope)
    requires Within(sheets, scope)
    decreases Level(scope), Count(scope)
  {
    match scope
    case SheetsScope(n) =>
      n == 0 || (Passes(sheets, names, SheetsScope(n - 1)) && Passes(sheets, names, SheetScope(n - 1)))
    case SheetScope(si) =>
      DistinctColumnKeys(sheets[si].columns) && Passes(sheets, names, RowsScope(si, |sheets[si].rows|))
    case RowsScope(si, n) =>
      n == 0
      || (Passes(sheets, names, RowsScope(si, n - 1)) && Passes(sheets, names, RowScope(si, n - 1, |sheets[si].rows[n - 1]|)))
    case RowScope(si, ri, n) =>
      n == 0 || (Passes(sheets, names, RowScope(si, ri, n - 1)) && Passes(sheets, names, EntryScope(si, ri, n - 1)))
    case EntryScope(si, ri, k) => EntryValid(SheetKeys(sheets[si]), sheets[si].rows[ri][k], names)
  }

  /** What passing the checks of a scope means, stated element by element. */
  predicate Holds(sheets: seq<Sheet>, names: set<string>, scope: Scope)
    requires Within(sheets, scope)
  {
    match scope
    case SheetsScope(n) => forall i :: 0 <= i < n ==> SheetValid(sheets[i], names)
    case SheetScope(si) => SheetValid(sheets[si], names)
    case RowsScope(si, n) =>
      forall ri, k :: 0 <= ri < n && 0 <= k < |sheets[si].rows[ri]| ==>
        EntryValid(SheetKeys(sheets[si]), sheets[si].rows[ri][k], names)
    case RowScope(si, ri, n) =>
      forall k :: 0 <= k < n ==> EntryValid(SheetKeys(sheets[si]), sheets[si].rows[ri][k], names)
    case EntryScope(si, ri, k) => EntryValid(SheetKeys(sheets[si]), sheets[si].rows[ri][k], names)
  }

  /** `validateSpreadsheetSemantics`, as a definition (`SemanticIssuesEmptyIff`
      relates it to `SemanticallyValid`). */
  function SemanticIssues(schema: Schema): seq<Issue> {
    Issues(schema.sheets, SheetNames(schema.sheets), SheetsScope(|schema.sheets|))
  }

  // ---------------------------------------------------------------------------
  // The checker as written: nested loops over sheets, columns, rows, keys and
  // references, pushing onto one list.

  /** The column pass of one sheet, with its `columnKeys` set. */
  method CheckColumns(si: nat, sheet: Sheet) returns (issues: seq<Issue>, columnKeys: set<string>)
    ensures issues == ColumnIssuesUpTo(si, sheet, |sheet.columns|)
    ensures columnKeys == SheetKeys(sheet)
  {
    issues := [];
    columnKeys := {};
    var j := 0;
    while j < |sheet.columns|
      invariant j <= |sheet.columns|
      invariant issues == ColumnIssuesUpTo(si, sheet, j)
      invariant columnKeys == KeysBefore(sheet.columns, j)
    {
      var column := sheet.columns[j];
      if column.key in columnKeys {
        issues := issues + [DuplicateKeyIssue(si, j, column.key, sheet.name)];
      } else {
        columnKeys := columnKeys + {column.key};
      }
      j := j + 1;
    }
  }

  /** The formula part of the loop body: the `return`s of the callback end it
      early. */
  method CheckFormula(si: nat, ri: nat, key: string, v: CellValue, sheetNames: set<string>)
    returns (issues: seq<Issue>)
    ensures issues == FormulaIssues(si, ri, key, v, sheetNames)
  {
    issues := [];
    if !v.FormulaCell? {
      return;
    }
    var formula := Trim(v.formula);
    if IsDangerousFormula(formula) {
      issues := [UnsafeFormulaIssue(si, ri, key)];
      return;
    }
    var refs := ExtractSheetReferences(formula);
    var k := 0;
    while k < |refs|
      invariant k <= |refs|
      invariant issues == ReferenceIssuesUpTo(si, ri, key, refs, sheetNames, k)
    {
      if refs[k] !in sheetNames {
        issues := issues + [UnknownReferenceIssue(si, ri, key, refs[k])];
      }
      k := k + 1;
    }
  }

  /** The checks of one row property, as the loop body does them. */
  method CheckEntry(si: nat, ri: nat, sheetName: string, e: Entry, columnKeys: set<string>, sheetNames: set<string>)
    returns (issues: seq<Issue>)
    ensures issues == EntryIssues(si, ri, sheetName, columnKeys, e, sheetNames)
  {
    var unknownKey := e.key !in columnKeys;
    var formulaIssues := CheckFormula(si, ri, e.key, e.value, sheetNames);
    if unknownKey {
      issues := [UnknownRowKeyIssue(si, ri, e.key, sheetName)] + formulaIssues;
    } else {
      issues := formulaIssues;
    }
  }

  /** The pass over the properties of row `ri` of sheet `si`, given the
      sheet's `columnKeys`. */
  method CheckRow(sheets: seq<Sheet>, sheetNames: set<string>, si: nat, ri: nat, columnKeys: set<string>)
    returns (issues: seq<Issue>)
    requires si < |sheets| && ri < |sheets[si].rows|
    requires columnKeys == SheetKeys(sheets[si])
    ensures issues == Issues(sheets, sheetNames, RowScope(si, ri, |sheets[si].rows[ri]|))
  {
    var row := sheets[si].rows[ri];
    issues := [];
    var k := 0;
    while k < |row|
      invariant k <= |row|
      invariant issues == Issues(sheets, sheetNames, RowScope(si, ri, k))
    {
      var more := CheckEntry(si, ri, sheets[si].name, row[k], columnKeys, sheetNames);
      issues := issues + more;
      k := k + 1;
    }
  }

  /** The row pass of sheet `si`. */
  method CheckRows(sheets: seq<Sheet>, sheetNames: set<string>, si: nat, columnKeys: set<string>)
    returns (issues: seq<Issue>)
    requires si < |sheets|
    requires columnKeys == SheetKeys(sheets[si])
    ensures issues == Issues(sheets, sheetNames, RowsScope(si, |sheets[si].rows|))
  {
    issues := [];
    var ri := 0;
    while ri < |sheets[si].rows|
      invariant ri <= |sheets[si].rows|
      invariant issues == Issues(sheets, sheetNames, RowsScope(si, ri))
    {
      var more := CheckRow(sheets, sheetNames, si, ri, columnKeys);
      issues := issues + more;
      ri := ri + 1;
    }
  }

  /** `validateSpreadsheetSemantics`: the loops compute the issue list the
      definition describes. */
  method ValidateSpreadsheetSemantics(schema: Schema) returns (issues: seq<Issue>)
    ensures issues == SemanticIssues(schema)
  {
    var sheets := schema.sheets;
    var sheetNames := SheetNames(sheets);
    issues := [];
    var si := 0;
    while si < |sheets|
      invariant si <= |sheets|
      invariant issues == Issues(sheets, sheetNames, SheetsScope(si))
    {
      var columnIssues, columnKeys := CheckColumns(si, sheets[si]);
      var rowIssues := CheckRows(sheets, sheetNames, si, columnKeys);
      issues := issues + (columnIssues + rowIssues);
      si := si + 1;
    }
  }

  // ---------------------------------------------------------------------------
  // No issue exactly when the schema is semantically valid, level by level.

  lemma {:induction false} ColumnIssuesEmptyIff(si: nat, sheet: Sheet, n: nat)
    requires n <= |sheet.columns|
    ensures |ColumnIssuesUpTo(si, sheet, n)| == 0 <==>
      forall j, k :: 0 <= k < j < n ==> sheet.columns[k].key != sheet.columns[j].key
  {
    if n > 0 {
      ColumnIssuesEmptyIff(si, sheet, n - 1);
      var key := sheet.columns[n - 1].key;
      KeysBeforeMembers(sheet.columns, n - 1, key);
    }
  }

  lemma FormulaIssuesEmptyIff(si: nat, ri: nat, key: string, v: CellValue, names: set<string>)
    ensures |FormulaIssues(si, ri, key, v, names)| == 0 <==> FormulaValid(v, names)
  {
    if v.FormulaCell? && !IsDangerousFormula(Trim(v.formula)) {
      ReferenceIssuesReport(si, ri, key, ExtractSheetReferences(Trim(v.formula)), names);
    }
  }

  lemma EntryIssuesEmptyIff(si: nat, ri: nat, sheetName: string, keys: set<string>, e: Entry, names: set<string>)
    ensures |EntryIssues(si, ri, sheetName, keys, e, names)| == 0 <==> EntryValid(keys, e, names)
  {
    FormulaIssuesEmptyIff(si, ri, e.key, e.value, names);
  }

  /** A row property yields no issue exactly when it passes. */
  lemma EntryScopeEmptyIff(sheets: seq<Sheet>, names: set<string>, si: nat, ri: nat, k: nat)
    requires Within(sheets, EntryScope(si, ri, k))
    ensures |Issues(sheets, names, EntryScope(si, ri, k))| == 0 <==> Passes(sheets, names, EntryScope(si, ri, k))
  {
    var sheet := sheets[si];
    EntryIssuesEmptyIff(si, ri, sheet.name, SheetKeys(sheet), sheet.rows[ri][k], names);
  }

  lemma {:induction false} RowScopeEmptyIff(sheets: seq<Sheet>, names: set<string>, si: nat, ri: nat, n: nat)
    requires Within(sheets, RowScope(si, ri, n))
    ensures |Issues(sheets, names, RowScope(si, ri, n))| == 0 <==> Passes(sheets, names, RowScope(si, ri, n))
  {
    if n > 0 {
      RowScopeEmptyIff(sheets, names, si, ri, n - 1);
      EntryScopeEmptyIff(sheets, names, si, ri, n - 1);
    }
  }

  lemma {:induction false} RowsScopeEmptyIff(sheets: seq<Sheet>, names: set<string>, si: nat, n: nat)
    requires Within(sheets, RowsScope(si, n))
    ensures |Issues(sheets, names, RowsScope(si, n))| == 0 <==> Passes(sheets, names, RowsScope(si, n))
  {
    if n > 0 {
      RowsScopeEmptyIff(sheets, names, si, n - 1);
      RowScopeEmptyIff(sheets, names, si, n - 1, |sheets[si].rows[n - 1]|);
    }
  }

  lemma SheetScopeEmptyIff(sheets: seq<Sheet>, names: set<string>, si: nat)
    requires si < |sheets|
    ensures |Issues(sheets, names, SheetScope(si))| == 0 <==> Passes(sheets, names, SheetScope(si))
  {
    ColumnIssuesEmptyIff(si, sheets[si], |sheets[si].columns|);
    RowsScopeEmptyIff(sheets, names, si, |sheets[si].rows|);
  }

  lemma {:induction false} SheetsScopeEmptyIff(sheets: seq<Sheet>, names: set<string>, n: nat)
    requires n <= |sheets|
    ensures |Issues(sheets, names, SheetsScope(n))| == 0 <==> Passes(sheets, names, SheetsScope(n))
  {
    if n > 0 {
      SheetsScopeEmptyIff(sheets, names, n - 1);
      SheetScopeEmptyIff(sheets, names, n - 1);
    }
  }

  /** Passing a row is every property of it being valid. */
  lemma {:induction false} RowPassesHolds(sheets: seq<Sheet>, names: set<string>, si: nat, ri: nat, n: nat)
    requires Within(sheets, RowScope(si, ri, n))
    ensures Passes(sheets, names, RowScope(si, ri, n)) <==> Holds(sheets, names, RowScope(si, ri, n))
  {
    if n > 0 {
      RowPassesHolds(sheets, names, si, ri, n - 1);
    }
  }

  /** Passing the first `n` rows is every property of each being valid. */
  lemma {:induction false} RowsPassesHolds(sheets: seq<Sheet>, names: set<string>, si: nat, n: nat)
    requires Within(sheets, RowsScope(si, n))
    ensures Passes(sheets, names, RowsScope(si, n)) <==> Holds(sheets, names, RowsScope(si, n))
  {
    if n > 0 {
      RowsPassesHolds(sheets, names, si, n - 1);
      RowPassesHolds(sheets, names, si, n - 1, |sheets[si].rows[n - 1]|);
    }
  }

  /** Passing the first `n` sheets is each of them being valid. */
  lemma {:induction false} SheetsPassesHolds(sheets: seq<Sheet>, names: set<string>, n: nat)
    requires n <= |sheets|
    ensures Passes(sheets, names, SheetsScope(n)) <==> Holds(sheets, names, SheetsScope(n))
  {
    if n > 0 {
      SheetsPassesHolds(sheets, names, n - 1);
      RowsPassesHolds(sheets, names, n - 1, |sheets[n - 1].rows|);
    }
  }

  /** The checker reports nothing exactly when every sheet has distinct column
      keys, every row key names a column, and every formula is safe and names
      only existing sheets. */
  lemma SemanticIssuesEmptyIff(schema: Schema)
    ensures |SemanticIssues(schema)| == 0 <==> SemanticallyValid(schema)
  {
    var names := SheetNames(schema.sheets);
    SheetsScopeEmptyIff(schema.sheets, names, |schema.sheets|);
    SheetsPassesHolds(schema.sheets, names, |schema.sheets|);
  }

  // ---------------------------------------------------------------------------
  // Which codes come from where

  lemma {:induction false} ColumnIssuesCodes(si: nat, sheet: Sheet, n: nat)
    requires n <= |sheet.columns|
    ensures OnlyCode(ColumnIssuesUpTo(si, sheet, n), DuplicateColumnKey)
  {
    if n > 0 {
      ColumnIssuesCodes(si, sheet, n - 1);
      var prev: seq<Issue> := ColumnIssuesUpTo(si, sheet, n - 1);
      var last: seq<Issue> := ColumnIssue(si, sheet, n - 1);
      forall i | 0 <= i < |prev + last| ensures (prev + last)[i].code == DuplicateColumnKey {
        if i >= |prev| { assert (prev + last)[i] == last[i - |prev|]; }
      }
    }
  }

  /** A formula yields only `UNSAFE_FORMULA` and `UNKNOWN_SHEET_REFERENCE` issues. */
  lemma FormulaIssuesCodes(si: nat, ri: nat, key: string, v: CellValue, names: set<string>)
    ensures NoCode(FormulaIssues(si, ri, key, v, names), DuplicateColumnKey)
    ensures NoCode(FormulaIssues(si, ri, key, v, names), UnknownRowKey)
  {
    if v.FormulaCell? && !IsDangerousFormula(Trim(v.formula)) {
      ReferenceIssuesReport(si, ri, key, ExtractSheetReferences(Trim(v.formula)), names);
    }
  }

  lemma EntryIssuesCodes(si: nat, ri: nat, sheetName: string, keys: set<string>, e: Entry, names: set<string>)
    ensures NoCode(EntryIssues(si, ri, sheetName, keys, e, names), DuplicateColumnKey)
  {
    FormulaIssuesCodes(si, ri, e.key, e.value, names);
    var f := FormulaIssues(si, ri, e.key, e.value, names);
    if e.key !in keys {
      var r := [UnknownRowKeyIssue(si, ri, e.key, sheetName)] + f;
      forall i | 1 <= i < |r| ensures r[i].code != DuplicateColumnKey {
        assert r[i] == f[i - 1];
      }
    }
  }

  /** Two lists without code `c` concatenate to one. */
  lemma NoCodeAppend(a: seq<Issue>, b: seq<Issue>, c: IssueCode)
    requires NoCode(a, c) && NoCode(b, c)
    ensures NoCode(a + b, c)
  {
    forall i | 0 <= i < |a + b| ensures (a + b)[i].code != c {
      if i >= |a| { assert (a + b)[i] == b[i - |a|]; }
    }
  }

  lemma {:induction false} RowIssuesCodes(sheets: seq<Sheet>, names: set<string>, si: nat, ri: nat, n: nat)
    requires Within(sheets, RowScope(si, ri, n))
    ensures NoCode(Issues(sheets, names, RowScope(si, ri, n)), DuplicateColumnKey)
  {
    if n > 0 {
      RowIssuesCodes(sheets, names, si, ri, n - 1);
      var sheet := sheets[si];
      EntryIssuesCodes(si, ri, sheet.name, SheetKeys(sheet), sheet.rows[ri][n - 1], names);
      NoCodeAppend(Issues(sheets, names, RowScope(si, ri, n - 1)), Issues(sheets, names, EntryScope(si, ri, n - 1)),
                   DuplicateColumnKey);
    }
  }

  lemma {:induction false} RowsIssuesCodes(sheets: seq<Sheet>, names: set<string>, si: nat, n: nat)
    requires Within(sheets, RowsScope(si, n))
    ensures NoCode(Issues(sheets, names, RowsScope(si, n)), DuplicateColumnKey)
  {
    if n > 0 {
      RowsIssuesCodes(sheets, names, si, n - 1);
      RowIssuesCodes(sheets, names, si, n - 1, |sheets[si].rows[n - 1]|);
      NoCodeAppend(Issues(sheets, names, RowsScope(si, n - 1)),
                   Issues(sheets, names, RowScope(si, n - 1, |sheets[si].rows[n - 1]|)), DuplicateColumnKey);
    }
  }

  /** Within a sheet, every duplicate-key issue comes before every row issue. */
  lemma SheetIssuesColumnsFirst(sheets: seq<Sheet>, names: set<string>, si: nat, a: nat, b: nat)
    requires si < |sheets|
    requires a < b < |Issues(sheets, names, SheetScope(si))|
    requires Issues(sheets, names, SheetScope(si))[b].code == DuplicateColumnKey
    ensures Issues(sheets, names, SheetScope(si))[a].code == DuplicateColumnKey
  {
    var cols := ColumnIssuesUpTo(si, sheets[si], |sheets[si].columns|);
    var rows := Issues(sheets, names, RowsScope(si, |sheets[si].rows|));
    ColumnIssuesCodes(si, sheets[si], |sheets[si].columns|);
    RowsIssuesCodes(sheets, names, si, |sheets[si].rows|);
    assert Issues(sheets, names, SheetScope(si))[a] == cols[a];
  }

  // ---------------------------------------------------------------------------
  // Properties of the checker

  /** Each column whose key appeared earlier yields one issue and first
      occurrences yield none, so the issues count the columns beyond the
      distinct keys. */
  lemma {:induction false} DuplicateIssuesCount(si: nat, sheet: Sheet, n: nat)
    requires n <= |sheet.columns|
    ensures |ColumnIssuesUpTo(si, sheet, n)| + |KeysBefore(sheet.columns, n)| == n
  {
    if n == 0 {
      assert KeysBefore(sheet.columns, 0) == {};
    } else {
      DuplicateIssuesCount(si, sheet, n - 1);
      var key := sheet.columns[n - 1].key;
      var before := KeysBefore(sheet.columns, n - 1);
      if key in before {
        assert before + {key} == before;
        assert |ColumnIssue(si, sheet, n - 1)| == 1;
      } else {
        assert |before + {key}| == |before| + 1;
        assert |ColumnIssue(si, sheet, n - 1)| == 0;
      }
    }
  }

  /** A formula whose trimmed text is blank, spans lines, holds NUL or matches
      a blocked pattern yields exactly one `UNSAFE_FORMULA` issue and no
      sheet-reference issue. */
  lemma UnsafeFormulaReported(si: nat, ri: nat, key: string, v: CellValue, names: set<string>)
    requires v.FormulaCell?
    requires Trim(v.formula) == [] || HasLineBreakOrNul(Trim(v.formula)) || Blocked(Trim(v.formula))
    ensures FormulaIssues(si, ri, key, v, names) == [UnsafeFormulaIssue(si, ri, key)]
  {
    TrimIdempotent(v.formula);
    DangerousIffTrimmedText(Trim(v.formula));
  }

  /** A safe formula yields one `UNKNOWN_SHEET_REFERENCE` per distinct sheet
      name it refers to that is not a sheet of the schema, and nothing else. */
  lemma SafeFormulaReferencesReported(si: nat, ri: nat, key: string, v: CellValue, names: set<string>)
    requires v.FormulaCell? && !IsDangerousFormula(Trim(v.formula))
    ensures var r := FormulaIssues(si, ri, key, v, names);
      Distinct(r)
      && OnlyCode(r, UnknownSheetReference)
      && forall x :: UnknownReferenceIssue(si, ri, key, x) in r <==>
           x in ExtractSheetReferences(Trim(v.formula)) && x !in names
  {
    ExtractShape(Trim(v.formula));
    ReferenceIssuesReport(si, ri, key, ExtractSheetReferences(Trim(v.formula)), names);
  }

  // ---------------------------------------------------------------------------
  // `formatSemanticIssues`

  /** The default number of issues shown. */
  const DefaultIssueLimit: int := 5

  /** The end index `Array.prototype.slice(0, limit)` uses: a negative limit
      counts back from the end. */
  function SliceEnd(n: nat, limit: int): (k: nat)
    ensures k <= n
    ensures 0 <= limit ==> k == if limit < n then limit else n
    ensures limit < 0 ==> k == if n + limit < 0 then 0 else n + limit
  {
    if limit < 0 then (if n + limit < 0 then 0 else n + limit)
    else if limit < n then limit
    else n
  }

  /** `${issue.path}: ${issue.message}` */
  function RenderIssue(issue: Issue): string {
    PathText(issue.path) + ": " + MessageText(issue.message)
  }

  function RenderAll(issues: seq<Issue>): (r: seq<string>)
    ensures |r| == |issues|
    ensures forall i :: 0 <= i < |issues| ==> r[i] == RenderIssue(issues[i])
  {
    seq(|issues|, i requires 0 <= i < |issues| => RenderIssue(issues[i]))
  }

  /** `formatSemanticIssues`. */
  function FormatSemanticIssues(issues: seq<Issue>, limit: int): (r: string)
    ensures |issues| == 0 ==> r == ""
  {
    if |issues| == 0 then ""
    else Join(RenderAll(issues[..SliceEnd(|issues|, limit)]), " | ")
  }

  /** The first shown issue leads the text. */
  lemma {:induction false} JoinStartsWithFirst(parts: seq<string>, sep: string)
    requires |parts| >= 1
    ensures parts[0] <= Join(parts, sep)
  {
  }

  /** With a positive limit, the text starts with the first issue. */
  lemma FormatStartsWithFirstIssue(issues: seq<Issue>, limit: int)
    requires |issues| > 0 && limit >= 1
    ensures RenderIssue(issues[0]) <= FormatSemanticIssues(issues, limit)
  {
    var shown := RenderAll(issues[..SliceEnd(|issues|, limit)]);
    JoinStartsWithFirst(shown, " | ");
  }

  /** For a positive limit the text is the renderings of the first
      `min(limit, |issues|)` issues, in order, joined by ` | `; so its length
      is theirs plus one three-character separator between neighbours. */
  lemma FormatLength(issues: seq<Issue>, limit: int)
    requires |issues| > 0 && limit >= 1
    ensures var k := if limit < |issues| then limit else |issues|;
      FormatSemanticIssues(issues, limit) == Join(RenderAll(issues[..k]), " | ")
    ensures var k := if limit < |issues| then limit else |issues|;
      |FormatSemanticIssues(issues, limit)| == SumLengths(RenderAll(issues[..k])) + (k - 1) * 3
  {
    JoinLength(RenderAll(issues[..SliceEnd(|issues|, limit)]), " | ");
  }

  /** A limit that is negative by at least the number of issues shows none. */
  lemma FormatNegativeLimitEmpty(issues: seq<Issue>, limit: int)
    requires limit < 0 && |issues| + limit <= 0
    ensures FormatSemanticIssues(issues, limit) == ""
  {
  }

  /** Adding an issue beyond the limit does not change the text. */
  lemma FormatIgnoresIssuesBeyondLimit(issues: seq<Issue>, extra: Issue, limit: int)
    requires 1 <= limit <= |issues|
    ensures FormatSemanticIssues(issues + [extra], limit) == FormatSemanticIssues(issues, limit)
  {
    assert (issues + [extra])[..limit] == issues[..limit];
  }
}
