/** The record endpoints (records.go). */
module Records {
  import opened Wrappers
  import opened Schema
  import opened Grist
  import opened Routes

  /**
   GetRecordsWithOptions: the options are applied in order to a zero request,
   then the path is built from the document and table they left. The method
   stays empty, which net/http sends as GET.
   */
  function GetRecordsWithOptionsRequest(opts: seq<RequestOpt>): (r: GristRequest)
    ensures var doc := LastSet(opts, DocumentSet, DocumentID(""));
      var tbl := LastSet(opts, TableSet, TableID(""));
      && r.document == doc && r.table == tbl
      && r.filter == LastSet(opts, FilterSet, None)
      && r.verb == "" && r.data.None?
      && r.path == Path(TableRecords(doc.id, tbl.id))
      && (WellFormed(TableRecords(doc.id, tbl.id)) ==> ParseRoute(r.path) == Some(TableRecords(doc.id, tbl.id)))
  {
    var r := ApplyRequestOpts(EmptyRequest, opts);
    ApplyRequestOptsLastWins(EmptyRequest, opts);
    ParsePath(TableRecords(r.document.id, r.table.id));
    r.(path := Path(TableRecords(r.document.id, r.table.id)))
  }

  /** GetRecords: a GET of the table's records route with no filter of its own. */
  function GetRecordsRequest(doc: DocumentID, table: TableID): (r: GristRequest)
    ensures r.verb == MethodGet && r.data.None? && r.filter.None?
    ensures r.path == Path(TableRecords(doc.id, table.id))
    ensures WellFormed(TableRecords(doc.id, table.id)) ==> ParseRoute(r.path) == Some(TableRecords(doc.id, table.id))
  {
    RequestTo(TableRecords(doc.id, table.id), MethodGet)
  }

  /** GetFilteredRecords: GetRecords with the filter, when there is one, attached to the request. */
  function GetFilteredRecordsRequest(doc: DocumentID, table: TableID, filter: Option<Bytes>): (r: GristRequest)
    ensures r.filter == filter
    ensures r.(filter := None) == GetRecordsRequest(doc, table)
  {
    var r := GetRecordsRequest(doc, table);
    if filter.Some? then r.(filter := filter) else r
  }

  /** CreateRecord: a POST of the caller's payload, passed through as it is, to the records route. */
  function CreateRecordRequest(doc: DocumentID, table: TableID, payload: Option<Bytes>): (r: GristRequest)
    ensures r.verb == MethodPost && r.filter.None?
    ensures r.data == (if payload.Some? then Some(Raw(payload.value)) else None)
    ensures r.path == GetRecordsRequest(doc, table).path
  {
    var r := RequestTo(TableRecords(doc.id, table.id), MethodPost);
    if payload.Some? then r.(data := Some(Raw(payload.value))) else r
  }

  /** getRecords only forwards to httpRequest. */
  function GetRecordsWithOptions(c: Client, opts: seq<RequestOpt>, send: Transport): Result<Bytes, Error> {
    HttpRequest(c, GetRecordsWithOptionsRequest(opts), send)
  }

  function GetRecords(c: Client, doc: DocumentID, table: TableID, send: Transport): Result<Bytes, Error> {
    HttpRequest(c, GetRecordsRequest(doc, table), send)
  }

  function GetFilteredRecords(c: Client, doc: DocumentID, table: TableID, filter: Option<Bytes>, send: Transport): Result<Bytes, Error> {
    HttpRequest(c, GetFilteredRecordsRequest(doc, table, filter), send)
  }

  function CreateRecord(c: Client, doc: DocumentID, table: TableID, payload: Option<Bytes>, send: Transport): Result<Bytes, Error> {
    HttpRequest(c, CreateRecordRequest(doc, table, payload), send)
  }

  /** A filtered read sends exactly its own filter, whatever the client's global filter is. */
  lemma FilteredRecordsSendOwnFilter(c: Client, doc: DocumentID, table: TableID, f: Bytes)
    ensures BuildOutgoing(c, GetFilteredRecordsRequest(doc, table, Some(f))).query == map["filter" := [f]]
  {
  }

  /** Without a filter, GetFilteredRecords is GetRecords. */
  lemma UnfilteredIsGetRecords(doc: DocumentID, table: TableID)
    ensures GetFilteredRecordsRequest(doc, table, None) == GetRecordsRequest(doc, table)
  {
  }

  /**
   A client built with only a URL and a key, reading through options that set a
   document and a filter: the request goes to that document's records under the
   URL, carries the key, and its query holds that filter alone, or nothing when
   the filter is nil.
   */
  lemma OptionsReadSendsItsFilter(url: string, key: string, doc: DocumentID, filter: Option<Bytes>)
    ensures var o := BuildOutgoing(NewClient([SetURL(url), SetAPIKey(key)]), GetRecordsWithOptionsRequest([SetDocument(doc), SetFilter(filter)]));
      && o.url == url + Path(TableRecords(doc.id, ""))
      && o.header["Authorization"] == ["Bearer " + key]
      && o.query == (if filter.Some? then map["filter" := [filter.value]] else map[])
  {
    var opts := [SetDocument(doc), SetFilter(filter)];
    var c := NewClient([SetURL(url), SetAPIKey(key)]);
    NewClientLastWriteWins([SetURL(url), SetAPIKey(key)]);
    ApplyRequestOptsLastWins(EmptyRequest, opts);
    var r := GetRecordsWithOptionsRequest(opts);
    assert opts[..1] == [SetDocument(doc)] && opts[..1][..0] == [];
    assert TableSet(opts[1]) == None && TableSet(opts[0]) == None;
    assert LastSet(opts[..1], TableSet, TableID("")) == TableID("");
    assert LastSet(opts, TableSet, TableID("")) == TableID("");
    assert r.document == doc && r.table == TableID("") && r.filter == filter;
    var copts := [SetURL(url), SetAPIKey(key)];
    assert copts[..1] == [SetURL(url)] && copts[..1][..0] == [];
    assert LastSet(copts[..1], GlobalFilterSet, None) == None;
    assert c.url == url && c.token == key && c.globalFilter.None?;
    if filter.Some? {
      RequestFilterReplacesGlobal(c, r, filter.value);
    } else {
      GlobalFilterFallback(c, r);
    }
  }
}
