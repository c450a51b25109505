/**
 Column field types, the formula check done while encoding a column, and the
 column endpoints (columns.go).
 */
module Columns {
  import opened Wrappers
  import opened Schema
  import opened Grist
  import opened Routes

  const IntField: FieldType := "Int"
  const AnyField: FieldType := "Any"
  const TextField: FieldType := "Text"
  const NumericField: FieldType := "Numeric"
  const BoolField: FieldType := "Bool"
  const DateField: FieldType := "Date"
  const ChoiceField: FieldType := "Choice"

  const FixedFieldTypes: seq<FieldType> :=
    [IntField, AnyField, TextField, NumericField, BoolField, DateField, ChoiceField]

  const NewOnly: Recalc := 0
  const Never: Recalc := 1
  const NewAndUpdate: Recalc := 2

  const DateTimePrefix := "DateTime:"
  const RefPrefix := "Ref:"

  function NewDateTimeField(timezone: string): FieldType {
    DateTimePrefix + timezone
  }

  function NewRefField(tableId: string): FieldType {
    RefPrefix + tableId
  }

  /** How a field-type string reads: a fixed type, a parameterised one, or something else. */
  datatype FieldKind = Fixed(name: string) | DateTime(timezone: string) | Ref(tableId: string) | Unknown(raw: string)

  predicate HasPrefix(s: string, prefix: string) {
    |s| >= |prefix| && s[..|prefix|] == prefix
  }

  function KindOf(t: FieldType): FieldKind {
    if t in FixedFieldTypes then Fixed(t)
    else if HasPrefix(t, DateTimePrefix) then DateTime(t[|DateTimePrefix|..])
    else if HasPrefix(t, RefPrefix) then Ref(t[|RefPrefix|..])
    else Unknown(t)
  }

  /**
   The seven fixed types are distinct and each reads as itself; the two
   constructors give back their parameter and never collide with a fixed type
   or with each other.
   */
  lemma FieldTypesReadBack(timezone: string, tableId: string)
    ensures forall i, j | 0 <= i < j < |FixedFieldTypes| :: FixedFieldTypes[i] != FixedFieldTypes[j]
    ensures forall i | 0 <= i < |FixedFieldTypes| :: KindOf(FixedFieldTypes[i]) == Fixed(FixedFieldTypes[i])
    ensures KindOf(NewDateTimeField(timezone)) == DateTime(timezone)
    ensures KindOf(NewRefField(tableId)) == Ref(tableId)
  {
    var d := NewDateTimeField(timezone);
    var r := NewRefField(tableId);
    assert d[..|DateTimePrefix|] == DateTimePrefix && d[|DateTimePrefix|..] == timezone;
    assert r[..|RefPrefix|] == RefPrefix && r[|RefPrefix|..] == tableId;
    assert d !in FixedFieldTypes by {
      forall i | 0 <= i < |FixedFieldTypes| ensures FixedFieldTypes[i] != d {
        assert |FixedFieldTypes[i]| < |DateTimePrefix| <= |d|;
      }
    }
    assert r[0] == 'R';
    assert r !in FixedFieldTypes by {
      forall i | 0 <= i < |FixedFieldTypes| ensures FixedFieldTypes[i] != r {
        assert FixedFieldTypes[i][0] != 'R';
      }
    }
  }

  const FormulaRequired := "formula must be set for formula field"

  /** The invariant a column field must keep: a formula column has formula text. */
  predicate FormulaSet(f: ColumnField) {
    f.isFormula ==> f.formula != ""
  }

  /** ColumnField.MarshalJSON: the only way encoding a field can fail. */
  function MarshalField(f: ColumnField): Option<Error> {
    if f.isFormula && f.formula == "" then Some(MarshalerError(FormulaRequired)) else None
  }

  /** Encoding a list of columns: the first field that fails stops it. */
  function MarshalColumns(cols: seq<Column>): (err: Option<Error>)
    ensures err.None? <==> forall i | 0 <= i < |cols| :: FormulaSet(cols[i].fields)
    ensures err.Some? ==> err.value == MarshalerError(FormulaRequired)
    decreases |cols|
  {
    if cols == [] then None
    else if MarshalField(cols[0].fields).Some? then MarshalField(cols[0].fields)
    else
      var rest := MarshalColumns(cols[1..]);
      assert forall i | 1 <= i < |cols| :: cols[i] == cols[1..][i - 1];
      rest
  }

  /** GetColumns: a GET of the table's columns route, with no body and no filter of its own. */
  function GetColumnsRequest(doc: DocumentID, table: Table): (r: GristRequest)
    ensures r.verb == MethodGet && r.data.None? && r.filter.None?
    ensures r.path == Path(TableColumns(doc.id, table.id.id))
    ensures WellFormed(TableColumns(doc.id, table.id.id)) ==> ParseRoute(r.path) == Some(TableColumns(doc.id, table.id.id))
  {
    RequestTo(TableColumns(doc.id, table.id.id), MethodGet)
  }

  /**
   writeColumns: the columns wrapped under `columns` and sent with the given
   method to the table's columns route, unless a column fails to encode.
   */
  function WriteColumnsRequest(verb: string, doc: DocumentID, table: Table, cols: seq<Column>): (r: Result<GristRequest, Error>)
    ensures r.Success? <==> forall i | 0 <= i < |cols| :: FormulaSet(cols[i].fields)
    ensures r.Failure? ==> r.error == MarshalerError(FormulaRequired)
    ensures r.Success? ==> r.value.verb == verb && r.value.data == Some(ColumnsBody(cols)) && r.value.filter.None?
    ensures r.Success? ==> r.value.path == Path(TableColumns(doc.id, table.id.id))
    ensures r.Success? && WellFormed(TableColumns(doc.id, table.id.id)) ==>
      ParseRoute(r.value.path) == Some(TableColumns(doc.id, table.id.id))
  {
    match MarshalColumns(cols)
    case Some(e) => Failure(e)
    case None => Success(RequestTo(TableColumns(doc.id, table.id.id), verb).(data := Some(ColumnsBody(cols))))
  }

  function GetColumns(c: Client, doc: DocumentID, table: Table, send: Transport): Result<Bytes, Error> {
    HttpRequest(c, GetColumnsRequest(doc, table), send)
  }

  function WriteColumns(c: Client, verb: string, doc: DocumentID, table: Table, cols: seq<Column>, send: Transport): Result<Bytes, Error> {
    Dispatch(c, WriteColumnsRequest(verb, doc, table, cols), send)
  }

  function CreateColumns(c: Client, doc: DocumentID, table: Table, cols: seq<Column>, send: Transport): Result<Bytes, Error> {
    WriteColumns(c, MethodPost, doc, table, cols, send)
  }

  function PatchColumns(c: Client, doc: DocumentID, table: Table, cols: seq<Column>, send: Transport): Result<Bytes, Error> {
    WriteColumns(c, MethodPatch, doc, table, cols, send)
  }

  /** Creating and patching columns build the same request but for the method, and fail alike. */
  lemma CreateAndPatchColumnsDifferOnlyInMethod(doc: DocumentID, table: Table, cols: seq<Column>)
    ensures WriteColumnsRequest(MethodPost, doc, table, cols).Success? == WriteColumnsRequest(MethodPatch, doc, table, cols).Success?
    ensures WriteColumnsRequest(MethodPost, doc, table, cols).Success? ==>
      WriteColumnsRequest(MethodPatch, doc, table, cols).value == WriteColumnsRequest(MethodPost, doc, table, cols).value.(verb := MethodPatch)
    ensures WriteColumnsRequest(MethodPost, doc, table, cols).Success? ==>
      WriteColumnsRequest(MethodPost, doc, table, cols).value.path == GetColumnsRequest(doc, table).path
  {
  }

  /** A column that fails to encode stops creating or patching before anything is sent. */
  lemma EncodingFailureSkipsTransport(c: Client, verb: string, doc: DocumentID, table: Table, cols: seq<Column>, i: nat, send1: Transport, send2: Transport)
    requires i < |cols| && cols[i].fields.isFormula && cols[i].fields.formula == ""
    ensures WriteColumns(c, verb, doc, table, cols, send1) == WriteColumns(c, verb, doc, table, cols, send2)
    ensures WriteColumns(c, verb, doc, table, cols, send1) == Failure(MarshalerError(FormulaRequired))
  {
    assert !FormulaSet(cols[i].fields);
  }
}
