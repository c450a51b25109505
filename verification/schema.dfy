/**
 The shapes the client sends: the distinct identifier types and the
 request bodies. JSON encoding itself is not modelled; a body is the
 value that would be encoded.
 */
module Schema {
  import opened Wrappers

  /** Go byte slices and strings alike: one character per byte. */
  type Bytes = string

  /** Distinct wrappers keep document, table and workspace identifiers apart. */
  datatype DocumentID = DocumentID(id: string)
  datatype TableID = TableID(id: string)
  datatype WorkspaceID = WorkspaceID(id: int)

  /** A column's type as the server spells it. */
  type FieldType = string

  /** When a formula column is recomputed; any int is a value of the type. */
  newtype Recalc = int

  datatype ColumnField = ColumnField(
    labelText: string,
    fieldType: FieldType,
    formula: string,
    isFormula: bool,
    widgetOptions: string,
    untieColIdFromLabel: bool,
    recalcWhen: Recalc,
    visibleCol: int,
    recalcDeps: seq<int>)

  datatype Column = Column(id: string, fields: ColumnField)

  datatype TableFields = TableFields(tableRef: int, onDemand: bool)

  datatype Table = Table(id: TableID, columns: seq<Column>, fields: TableFields)

  /**
   What a request carries: the new-document object, the workspace-name object
   (whose `name` key is left out when the name is empty), the `tables` and
   `columns` wrappers, or a caller's bytes passed through as they are.
   */
  datatype Body =
    | DocBody(docName: string, isPinned: bool)
    | WorkspaceBody(workspaceName: Option<string>)
    | TablesBody(tables: seq<Table>)
    | ColumnsBody(columns: seq<Column>)
    | Raw(bytes: Bytes)
}
