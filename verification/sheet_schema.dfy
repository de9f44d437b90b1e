/** The spreadsheet description exchanged between the text generator, the
    validators and the renderer, as typed data. A JSON object becomes a
    datatype with one field per declared property; the names of any other
    properties it carries are kept in `extraKeys`, so that strict object
    schemas (which reject them) and pass-through ones (which keep them) can
    both be stated. */
module SheetSchema {
  import opened Wrappers

  /** A JavaScript number. */
  datatype Number = Finite(value: real) | PosInfinity | NegInfinity | NaN {

    /** `Number.isInteger`. */
    predicate IsInteger() {
      Finite? && value.Floor as real == value
    }

    /** JavaScript truthiness: every number except `0` and `NaN`. */
    predicate Truthy() {
      !NaN? && !(Finite? && value == 0.0)
    }
  }

  datatype Primitive = PString(text: string) | PNumber(number: Number) | PBool(flag: bool) | PNull

  /** A cell: a primitive, or an object whose `formula` property is a string
      (with an optional cached `result`). */
  datatype CellValue =
    | Prim(primitive: Primitive)
    | FormulaCell(formula: string, result: Option<Primitive>, extraKeys: seq<string>)

  /** One property of a row object, in `Object.keys` enumeration order. */
  datatype Entry = Entry(key: string, value: CellValue)

  /** A row object's properties. A JavaScript object never has two properties
      with the same key; this sequence does not enforce that, and the model
      reads a row as meaning an object only when its keys are distinct. Every
      operation here walks the entries in order, so on such a row it sees
      what the object holds. */
  type Row = seq<Entry>

  datatype Column = Column(
    header: string,
    key: string,
    width: Option<Number>,
    format: Option<string>,
    kind: Option<string>,        // the `type` property
    alignment: Option<string>,
    extraKeys: seq<string>)

  /** `x` is the declared property; `y` is read by the renderer although no
      schema declares it. */
  datatype FreezePanes = FreezePanes(x: Option<Number>, y: Option<Number>, extraKeys: seq<string>)

  datatype Sheet = Sheet(
    name: string,
    showTitle: Option<bool>,
    autoFilter: Option<bool>,
    freezePanes: Option<FreezePanes>,
    columns: seq<Column>,
    rows: seq<Row>,
    extraKeys: seq<string>)

  datatype Theme = Theme(
    headerBg: Option<string>,
    headerText: Option<string>,
    rowEvenBg: Option<string>,
    rowOddBg: Option<string>,
    borderColor: Option<string>,
    extraKeys: seq<string>)

  datatype Metadata = Metadata(
    locale: Option<string>,
    currency: Option<string>,
    fiscalYearStartMonth: Option<Number>,
    businessUnit: Option<string>,
    mode: Option<string>,
    extraKeys: seq<string>)

  datatype Schema = Schema(
    schemaVersion: Option<string>,
    title: Option<string>,
    description: Option<string>,
    metadata: Option<Metadata>,
    theme: Option<Theme>,
    sheets: seq<Sheet>,
    extraKeys: seq<string>)

  /** The keys of a sheet's columns, in declaration order. */
  function ColumnKeys(columns: seq<Column>): (keys: seq<string>)
    ensures |keys| == |columns|
    ensures forall j :: 0 <= j < |columns| ==> keys[j] == columns[j].key
  {
    seq(|columns|, j requires 0 <= j < |columns| => columns[j].key)
  }

  /** The names of a schema's sheets, as a set. */
  function SheetNames(sheets: seq<Sheet>): (names: set<string>)
    ensures forall n :: n in names <==> exists i :: 0 <= i < |sheets| && sheets[i].name == n
  {
    set i | 0 <= i < |sheets| :: sheets[i].name
  }
}
