/**
 The client configuration, the request value, their functional options, and
 the single dispatcher every endpoint goes through (grist.go). The network is
 an input: a transport maps the outgoing request to what happened to it.
 */
module Grist {
  import opened Wrappers
  import opened Decimal
  import opened Schema
  import opened Routes

  const MethodGet := "GET"
  const MethodPost := "POST"
  const MethodPatch := "PATCH"
  const MethodDelete := "DELETE"

  /** The last value that an option in `opts` gives a field, or `unset` when none gives it one. */
  function LastSet<O, T>(opts: seq<O>, pick: O -> Option<T>, unset: T): T
    decreases |opts|
  {
    if opts == [] then unset
    else match pick(opts[|opts| - 1])
      case Some(v) => v
      case None => LastSet(opts[..|opts| - 1], pick, unset)
  }

  // ---------------------------------------------------------------------
  // Client configuration

  /** The *http.Client a configuration carries; the model only tells handles apart. */
  datatype HttpHandle = DefaultClient | Handle(id: nat)

  datatype Client = Client(token: string, url: string, http: Option<HttpHandle>, globalFilter: Option<Bytes>)

  datatype ClientOpt =
    | SetAPIKey(key: string)
    | SetURL(address: string)
    | SetHTTPClient(handle: Option<HttpHandle>)
    | SetClientGlobalFilter(global: Option<Bytes>)

  /** The configuration field an option writes. */
  datatype ClientField = TokenField | UrlField | HttpField | GlobalFilterField

  function ClientFieldOf(o: ClientOpt): ClientField {
    match o
    case SetAPIKey(_) => TokenField
    case SetURL(_) => UrlField
    case SetHTTPClient(_) => HttpField
    case SetClientGlobalFilter(_) => GlobalFilterField
  }

  /** The zero configuration NewClient starts from. */
  const ZeroClient := Client("", "", None, None)

  function ApplyClientOpt(c: Client, o: ClientOpt): Client {
    match o
    case SetAPIKey(k) => c.(token := k)
    case SetURL(u) => c.(url := u)
    case SetHTTPClient(h) => c.(http := h)
    case SetClientGlobalFilter(f) => c.(globalFilter := f)
  }

  /** The options applied in order, first to last. */
  function ApplyClientOpts(c: Client, opts: seq<ClientOpt>): Client
    decreases |opts|
  {
    if opts == [] then c else ApplyClientOpts(ApplyClientOpt(c, opts[0]), opts[1..])
  }

  function NewClient(opts: seq<ClientOpt>): (c: Client)
    ensures c.http.Some?
  {
    var c := ApplyClientOpts(ZeroClient, opts);
    if c.http.None? then c.(http := Some(DefaultClient)) else c
  }

  /** Options that write different fields can be applied in either order. */
  lemma ClientOptsCommute(c: Client, a: ClientOpt, b: ClientOpt)
    requires ClientFieldOf(a) != ClientFieldOf(b)
    ensures ApplyClientOpt(ApplyClientOpt(c, a), b) == ApplyClientOpt(ApplyClientOpt(c, b), a)
  {
  }

  /** A second option on the same field erases the first. */
  lemma ClientOptOverwrites(c: Client, a: ClientOpt, b: ClientOpt)
    requires ClientFieldOf(a) == ClientFieldOf(b)
    ensures ApplyClientOpt(ApplyClientOpt(c, a), b) == ApplyClientOpt(c, b)
  {
  }

  function TokenSet(o: ClientOpt): Option<string> {
    if o.SetAPIKey? then Some(o.key) else None
  }

  function UrlSet(o: ClientOpt): Option<string> {
    if o.SetURL? then Some(o.address) else None
  }

  function HandleSet(o: ClientOpt): Option<Option<HttpHandle>> {
    if o.SetHTTPClient? then Some(o.handle) else None
  }

  function GlobalFilterSet(o: ClientOpt): Option<Option<Bytes>> {
    if o.SetClientGlobalFilter? then Some(o.global) else None
  }

  lemma {:induction false} ApplyClientOptsSnoc(c: Client, opts: seq<ClientOpt>, o: ClientOpt)
    ensures ApplyClientOpts(c, opts + [o]) == ApplyClientOpt(ApplyClientOpts(c, opts), o)
    decreases |opts|
  {
    if opts == [] {
      assert opts + [o] == [o];
    } else {
      assert (opts + [o])[1..] == opts[1..] + [o];
      ApplyClientOptsSnoc(ApplyClientOpt(c, opts[0]), opts[1..], o);
    }
  }

  /** Applying options in order leaves each field with the value of the last option that writes it. */
  lemma {:induction false} ApplyClientOptsLastWins(c: Client, opts: seq<ClientOpt>)
    ensures ApplyClientOpts(c, opts) == Client(
      LastSet(opts, TokenSet, c.token),
      LastSet(opts, UrlSet, c.url),
      LastSet(opts, HandleSet, c.http),
      LastSet(opts, GlobalFilterSet, c.globalFilter))
    decreases |opts|
  {
    if opts != [] {
      var init, o := opts[..|opts| - 1], opts[|opts| - 1];
      assert init + [o] == opts;
      ApplyClientOptsSnoc(c, init, o);
      ApplyClientOptsLastWins(c, init);
    }
  }

  /**
   NewClient: each field holds what the last option writing it set, or its zero
   value; the HTTP handle becomes the default one only when no option left one.
   */
  lemma NewClientLastWriteWins(opts: seq<ClientOpt>)
    ensures NewClient(opts).token == LastSet(opts, TokenSet, "")
    ensures NewClient(opts).url == LastSet(opts, UrlSet, "")
    ensures NewClient(opts).globalFilter == LastSet(opts, GlobalFilterSet, None)
    ensures NewClient(opts).http ==
      (var h := LastSet(opts, HandleSet, None); if h.None? then Some(DefaultClient) else h)
  {
    ApplyClientOptsLastWins(ZeroClient, opts);
  }

  // ---------------------------------------------------------------------
  // Request value

  datatype GristRequest = GristRequest(
    path: string,
    verb: string,
    document: DocumentID,
    table: TableID,
    filter: Option<Bytes>,
    data: Option<Body>)

  /** The zero request: what a Go composite literal leaves in the fields it does not name. */
  const EmptyRequest := GristRequest("", "", DocumentID(""), TableID(""), None, None)

  /** An endpoint's request to `route` with method `verb`, every other field at its zero value. */
  function RequestTo(route: Route, verb: string): (r: GristRequest)
    ensures r.verb == verb && r.filter.None? && r.data.None?
    ensures r.document == DocumentID("") && r.table == TableID("")
    ensures r.path == Path(route)
    ensures WellFormed(route) ==> ParseRoute(r.path) == Some(route)
  {
    ParsePath(route);
    EmptyRequest.(path := Path(route), verb := verb)
  }

  datatype RequestOpt =
    | SetDocument(doc: DocumentID)
    | SetTable(tbl: TableID)
    | SetFilter(only: Option<Bytes>)

  datatype RequestField = DocumentField | TableField | FilterField

  function RequestFieldOf(o: RequestOpt): RequestField {
    match o
    case SetDocument(_) => DocumentField
    case SetTable(_) => TableField
    case SetFilter(_) => FilterField
  }

  function ApplyRequestOpt(r: GristRequest, o: RequestOpt): GristRequest {
    match o
    case SetDocument(d) => r.(document := d)
    case SetTable(t) => r.(table := t)
    case SetFilter(f) => r.(filter := f)
  }

  function ApplyRequestOpts(r: GristRequest, opts: seq<RequestOpt>): GristRequest
    decreases |opts|
  {
    if opts == [] then r else ApplyRequestOpts(ApplyRequestOpt(r, opts[0]), opts[1..])
  }

  /** A request option writes its one field and leaves path, method, body and the other two fields alone. */
  lemma RequestOptWritesOneField(r: GristRequest, o: RequestOpt)
    ensures var r' := ApplyRequestOpt(r, o);
      && r'.path == r.path && r'.verb == r.verb && r'.data == r.data
      && (RequestFieldOf(o) != DocumentField ==> r'.document == r.document)
      && (RequestFieldOf(o) != TableField ==> r'.table == r.table)
      && (RequestFieldOf(o) != FilterField ==> r'.filter == r.filter)
  {
  }

  lemma RequestOptOverwrites(r: GristRequest, a: RequestOpt, b: RequestOpt)
    requires RequestFieldOf(a) == RequestFieldOf(b)
    ensures ApplyRequestOpt(ApplyRequestOpt(r, a), b) == ApplyRequestOpt(r, b)
  {
  }

  function DocumentSet(o: RequestOpt): Option<DocumentID> {
    if o.SetDocument? then Some(o.doc) else None
  }

  function TableSet(o: RequestOpt): Option<TableID> {
    if o.SetTable? then Some(o.tbl) else None
  }

  function FilterSet(o: RequestOpt): Option<Option<Bytes>> {
    if o.SetFilter? then Some(o.only) else None
  }

  lemma {:induction false} ApplyRequestOptsSnoc(r: GristRequest, opts: seq<RequestOpt>, o: RequestOpt)
    ensures ApplyRequestOpts(r, opts + [o]) == ApplyRequestOpt(ApplyRequestOpts(r, opts), o)
    decreases |opts|
  {
    if opts == [] {
      assert opts + [o] == [o];
    } else {
      assert (opts + [o])[1..] == opts[1..] + [o];
      ApplyRequestOptsSnoc(ApplyRequestOpt(r, opts[0]), opts[1..], o);
    }
  }

  /** Request options applied in order: the last write to each field wins, and nothing else changes. */
  lemma {:induction false} ApplyRequestOptsLastWins(r: GristRequest, opts: seq<RequestOpt>)
    ensures ApplyRequestOpts(r, opts) == r.(
      document := LastSet(opts, DocumentSet, r.document),
      table := LastSet(opts, TableSet, r.table),
      filter := LastSet(opts, FilterSet, r.filter))
    decreases |opts|
  {
    if opts != [] {
      var init, o := opts[..|opts| - 1], opts[|opts| - 1];
      assert init + [o] == opts;
      ApplyRequestOptsSnoc(r, init, o);
      ApplyRequestOptsLastWins(r, init);
    }
  }

  // ---------------------------------------------------------------------
  // Errors

  /** The error for a response whose status is not 200. */
  datatype GristError = GristError(statusCode: int, details: string)

  /** The error values the client hands back. */
  datatype Error =
    | Api(grist: GristError)                 // a non-200 response
    | Failed(message: string)                // an error value from a step before the status check, or a local check
    | MarshalerError(cause: string)          // encoding/json reporting a failed MarshalJSON
    | NumError(num: string, kind: NumErr)    // strconv.Atoi rejecting `num`

  const StatusPrefix := "status: "
  const DetailsSeparator := ", details: "

  /** GristError.Error: the status code in decimal, then the response body. */
  function ErrorText(g: GristError): (s: string)
    ensures |s| >= |StatusPrefix| && s[..|StatusPrefix|] == StatusPrefix
    ensures |s| >= |g.details| && s[|s| - |g.details|..] == g.details
    ensures var k, n := |StatusPrefix|, |IntToString(g.statusCode)|;
      && |s| == k + n + |DetailsSeparator| + |g.details|
      && s[k..k + n] == IntToString(g.statusCode)
      && s[k + n..k + n + |DetailsSeparator|] == DetailsSeparator
  {
    StatusPrefix + IntToString(g.statusCode) + DetailsSeparator + g.details
  }

  /** The index of the first comma of `s`, or |s| when there is none. */
  function CommaIndex(s: string): (k: nat)
    ensures k <= |s|
    ensures forall i | 0 <= i < k :: s[i] != ','
    ensures k < |s| ==> s[k] == ','
    decreases |s|
  {
    if s == [] then 0 else if s[0] == ',' then 0 else 1 + CommaIndex(s[1..])
  }

  /** Reads a status code and details back out of an error message. */
  function ParseErrorText(s: string): Option<GristError> {
    if |s| < |StatusPrefix| || s[..|StatusPrefix|] != StatusPrefix then None
    else
      var rest := s[|StatusPrefix|..];
      var k := CommaIndex(rest);
      var code := Atoi(rest[..k]);
      var tail := rest[k..];
      if code.err.Some? || |tail| < |DetailsSeparator| || tail[..|DetailsSeparator|] != DetailsSeparator then None
      else Some(GristError(code.value, tail[|DetailsSeparator|..]))
  }

  /** The first comma of `a + b` is the one `b` starts with when `a` holds none. */
  lemma CommaIndexAfter(a: string, b: string)
    requires ',' !in a && |b| > 0 && b[0] == ','
    ensures CommaIndex(a + b) == |a|
  {
    var k := CommaIndex(a + b);
    assert (a + b)[|a|] == ',';
  }

  /** A message of the error's shape whose code text Atoi reads cleanly is parsed back to that code and details. */
  lemma ParseComposedText(code: string, details: string, x: int)
    requires ',' !in code && Atoi(code) == Parsed(x, None)
    ensures ParseErrorText(StatusPrefix + code + DetailsSeparator + details) == Some(GristError(x, details))
  {
    var tail := DetailsSeparator + details;
    var rest := code + tail;
    var s := StatusPrefix + code + DetailsSeparator + details;
    assert s == StatusPrefix + rest;
    assert s[..|StatusPrefix|] == StatusPrefix;
    assert s[|StatusPrefix|..] == rest;
    CommaIndexAfter(code, tail);
    assert rest[..|code|] == code;
    assert rest[|code|..] == tail;
    assert tail[..|DetailsSeparator|] == DetailsSeparator;
    assert tail[|DetailsSeparator|..] == details;
  }

  /** The message loses nothing: status code and details can be read back from it. */
  lemma ErrorTextRoundTrip(g: GristError)
    requires MinInt64 <= g.statusCode <= MaxInt64
    ensures ParseErrorText(ErrorText(g)) == Some(g)
  {
    IntToStringAvoids(g.statusCode, ',');
    AtoiIntToString(g.statusCode);
    ParseComposedText(IntToString(g.statusCode), g.details, g.statusCode);
  }

  lemma ErrorTextInjective(g1: GristError, g2: GristError)
    requires MinInt64 <= g1.statusCode <= MaxInt64 && MinInt64 <= g2.statusCode <= MaxInt64
    requires ErrorText(g1) == ErrorText(g2)
    ensures g1 == g2
  {
    ErrorTextRoundTrip(g1);
    ErrorTextRoundTrip(g2);
  }

  // ---------------------------------------------------------------------
  // Dispatcher

  /** url.Values and http.Header: every key maps to its list of values. */
  type Params = map<string, seq<string>>

  /** Add: append a value to the key's list. */
  function AddParam(p: Params, key: string, value: string): Params {
    p[key := (if key in p then p[key] else []) + [value]]
  }

  /** Del: drop the key with all its values. */
  function DelParam(p: Params, key: string): Params {
    p - {key}
  }

  /** The request as handed to the transport. */
  datatype Outgoing = Outgoing(
    verb: string,
    url: string,
    header: Params,
    query: Params,
    body: Option<Body>,
    via: Option<HttpHandle>)

  /** The filter rule: a request's own filter replaces the global one, which applies only when the request has none. */
  function EffectiveFilter(c: Client, r: GristRequest): Option<Bytes> {
    if r.filter.Some? then r.filter else c.globalFilter
  }

  /**
   The outgoing request: base URL and path joined as they are, the two
   headers, and a query whose only parameter is `filter`, holding at most one
   value, chosen by the filter rule.
   */
  function BuildOutgoing(c: Client, r: GristRequest): (o: Outgoing)
    ensures o.verb == r.verb && o.body == r.data && o.via == c.http
    ensures o.url == c.url + r.path
    ensures o.header == map["Content-Type" := ["application/json"], "Authorization" := ["Bearer " + c.token]]
    ensures o.query.Keys <= {"filter"}
    ensures "filter" in o.query <==> EffectiveFilter(c, r).Some?
    ensures "filter" in o.query ==> o.query["filter"] == [EffectiveFilter(c, r).value]
  {
    var url := c.url + r.path;
    var token := "Bearer " + c.token;
    var none: Params := map[];
    var header := AddParam(none, "Content-Type", "application/json");
    assert [] + ["application/json"] == ["application/json"];
    assert header == map["Content-Type" := ["application/json"]];
    assert "Authorization" != "Content-Type";
    assert [] + [token] == [token];
    var q0: Params := map[];
    var q1 := if c.globalFilter.Some? then AddParam(q0, "filter", c.globalFilter.value) else q0;
    var q2 := if r.filter.Some? then AddParam(DelParam(q1, "filter"), "filter", r.filter.value) else q1;
    Outgoing(r.verb, url, AddParam(header, "Authorization", token), q2, r.data, c.http)
  }

  /** A request filter is sent alone, whatever the global filter is. */
  lemma RequestFilterReplacesGlobal(c: Client, r: GristRequest, f: Bytes)
    requires r.filter == Some(f)
    ensures BuildOutgoing(c, r).query == map["filter" := [f]]
  {
  }

  /** With no request filter, the global filter is sent, or no filter at all. */
  lemma GlobalFilterFallback(c: Client, r: GristRequest)
    requires r.filter.None?
    ensures c.globalFilter.Some? ==> BuildOutgoing(c, r).query == map["filter" := [c.globalFilter.value]]
    ensures c.globalFilter.None? ==> BuildOutgoing(c, r).query == map[]
  {
  }

  /** What happened to an outgoing request: a failure before any status was known, or a read response. */
  datatype Outcome =
    | BuildFail(cause: Error)       // http.NewRequest refused the method or URL
    | TransportFail(cause: Error)   // Client.Do failed
    | ReadFail(cause: Error)        // reading the body failed, before the status is looked at
    | Response(status: int, body: Bytes)

  type Transport = Outgoing -> Outcome

  /**
   Status 200 gives the body untouched; every other status gives a GristError
   with that status and the body as details; earlier failures pass through as they are.
   */
  function Normalize(o: Outcome): (r: Result<Bytes, Error>)
    ensures r.Success? <==> o.Response? && o.status == 200
    ensures r.Success? ==> r.value == o.body
    ensures o.Response? && o.status != 200 ==> r == Failure(Api(GristError(o.status, o.body)))
    ensures !o.Response? ==> r == Failure(o.cause)
  {
    match o
    case BuildFail(e) => Failure(e)
    case TransportFail(e) => Failure(e)
    case ReadFail(e) => Failure(e)
    case Response(status, body) =>
      if status != 200 then Failure(Api(GristError(status, body))) else Success(body)
  }

  /** httpRequest: build the outgoing request, hand it to the transport, normalise what comes back. */
  function HttpRequest(c: Client, r: GristRequest, send: Transport): Result<Bytes, Error> {
    Normalize(send(BuildOutgoing(c, r)))
  }

  /** Dispatches a request an endpoint built, or returns the local error that stopped it. */
  function Dispatch(c: Client, plan: Result<GristRequest, Error>, send: Transport): Result<Bytes, Error> {
    match plan
    case Failure(e) => Failure(e)
    case Success(r) => HttpRequest(c, r, send)
  }

  /** A request stopped locally never reaches the transport: any two transports give the same local error. */
  lemma LocalFailureSkipsTransport(c: Client, plan: Result<GristRequest, Error>, send1: Transport, send2: Transport)
    requires plan.Failure?
    ensures Dispatch(c, plan, send1) == Dispatch(c, plan, send2) == Failure(plan.error)
  {
  }

  /** The payload comes back only on status 200; any other status, 2xx included, is a GristError. */
  lemma OnlyStatus200Succeeds(c: Client, r: GristRequest, send: Transport, status: int, body: Bytes)
    requires send(BuildOutgoing(c, r)) == Response(status, body)
    ensures status == 200 ==> HttpRequest(c, r, send) == Success(body)
    ensures status != 200 ==> HttpRequest(c, r, send) == Failure(Api(GristError(status, body)))
  {
  }

  /** A Go (value, error) pair, for the endpoints that return a zero value beside their error. */
  datatype Returns<T> = Returns(value: T, err: Option<Error>)
}
