/** The table endpoints and the one local check made before a request (tables.go). */
module Tables {
  import opened Wrappers
  import opened Schema
  import opened Grist
  import opened Routes
  import opened Columns

  const ColumnsRequired := "columns required to create table"

  /** createTables' check: every table in the list declares at least one column. */
  function ValidateTables(tables: seq<Table>): (err: Option<Error>)
    ensures err.None? <==> forall i | 0 <= i < |tables| :: |tables[i].columns| >= 1
    ensures err.Some? ==> err.value == Failed(ColumnsRequired)
    decreases |tables|
  {
    if tables == [] then None
    else if |tables[0].columns| < 1 then Some(Failed(ColumnsRequired))
    else
      var rest := ValidateTables(tables[1..]);
      assert forall i | 1 <= i < |tables| :: tables[i] == tables[1..][i - 1];
      rest
  }

  /** Encoding the `tables` wrapper reaches every column's field, so one missing formula fails it. */
  function MarshalTables(tables: seq<Table>): (err: Option<Error>)
    ensures err.None? <==>
      forall i, j | 0 <= i < |tables| && 0 <= j < |tables[i].columns| :: FormulaSet(tables[i].columns[j].fields)
    ensures err.Some? ==> err.value == MarshalerError(FormulaRequired)
    decreases |tables|
  {
    if tables == [] then None
    else if MarshalColumns(tables[0].columns).Some? then MarshalColumns(tables[0].columns)
    else
      var rest := MarshalTables(tables[1..]);
      assert forall i | 1 <= i < |tables| :: tables[i] == tables[1..][i - 1];
      rest
  }

  /** ListTables: a GET of the document's tables route, with no body and no filter of its own. */
  function ListTablesRequest(doc: DocumentID): (r: GristRequest)
    ensures r.verb == MethodGet && r.data.None? && r.filter.None?
    ensures r.path == Path(DocTables(doc.id))
    ensures WellFormed(DocTables(doc.id)) ==> ParseRoute(r.path) == Some(DocTables(doc.id))
  {
    RequestTo(DocTables(doc.id), MethodGet)
  }

  /** writeTable: all tables, in the order given, wrapped under `tables` and sent to the document's tables route. */
  function WriteTableRequest(verb: string, doc: DocumentID, tables: seq<Table>): (r: Result<GristRequest, Error>)
    ensures r.Success? <==> MarshalTables(tables).None?
    ensures r.Failure? ==> r.error == MarshalerError(FormulaRequired)
    ensures r.Success? ==> r.value.verb == verb && r.value.data == Some(TablesBody(tables)) && r.value.filter.None?
    ensures r.Success? ==> r.value.path == Path(DocTables(doc.id))
    ensures r.Success? && WellFormed(DocTables(doc.id)) ==> ParseRoute(r.value.path) == Some(DocTables(doc.id))
  {
    match MarshalTables(tables)
    case Some(e) => Failure(e)
    case None => Success(RequestTo(DocTables(doc.id), verb).(data := Some(TablesBody(tables))))
  }

  /**
   createTables: a table without columns is refused with a local error and
   nothing is sent; otherwise the tables are POSTed by writeTable.
   */
  function CreateTablesRequest(doc: DocumentID, tables: seq<Table>): (r: Result<GristRequest, Error>)
    ensures (exists i | 0 <= i < |tables| :: |tables[i].columns| < 1) ==> r == Failure(Failed(ColumnsRequired))
    ensures (forall i | 0 <= i < |tables| :: |tables[i].columns| >= 1) ==> r == WriteTableRequest(MethodPost, doc, tables)
  {
    match ValidateTables(tables)
    case Some(e) => Failure(e)
    case None => WriteTableRequest(MethodPost, doc, tables)
  }

  function ListTables(c: Client, doc: DocumentID, send: Transport): Result<Bytes, Error> {
    HttpRequest(c, ListTablesRequest(doc), send)
  }

  function CreateTables(c: Client, doc: DocumentID, tables: seq<Table>, send: Transport): Result<Bytes, Error> {
    Dispatch(c, CreateTablesRequest(doc, tables), send)
  }

  /** A table without columns stops CreateTables before the transport is used: any two transports agree. */
  lemma ColumnlessTableSkipsTransport(c: Client, doc: DocumentID, tables: seq<Table>, i: nat, send1: Transport, send2: Transport)
    requires i < |tables| && |tables[i].columns| == 0
    ensures CreateTables(c, doc, tables, send1) == CreateTables(c, doc, tables, send2) == Failure(Failed(ColumnsRequired))
  {
  }

  /** The check quantifies over the list, so an empty list passes it and is POSTed. */
  lemma EmptyTableListIsSent(doc: DocumentID)
    ensures CreateTablesRequest(doc, []).Success?
    ensures CreateTablesRequest(doc, []).value.data == Some(TablesBody([]))
  {
  }

  /** Listing and creating tables use the same route. */
  lemma ListAndCreateShareRoute(doc: DocumentID, tables: seq<Table>)
    requires CreateTablesRequest(doc, tables).Success?
    ensures CreateTablesRequest(doc, tables).value.path == ListTablesRequest(doc).path
  {
  }
}
