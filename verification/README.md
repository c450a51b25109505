# gorist in Dafny

A model of gorist, a small Go client for the REST API of the Grist
spreadsheet server, together with proofs about that model.

The model covers the following:

- the client configuration that `NewClient` builds from functional options;
- the per-request options;
- the one dispatcher, `httpRequest`. It builds the URL, the two headers and
  the `filter` query parameter, hands the request to the HTTP client, and
  turns any status other than 200 into a `GristError`;
- every endpoint built on the dispatcher: organisations, workspaces,
  documents, tables, columns and records. For each it models the route it
  targets, the method and body it sends, the local checks that refuse a
  request before anything is sent, and the post-processing of the reply.
  There are two kinds of post-processing. The quotes around a new document
  id are stripped, and `strconv.Atoi` reads a new workspace id.

## Layout

| file | module | what it holds |
|---|---|---|
| wrappers.dfy | Wrappers | `Option` and `Result` |
| decimal.dfy | Decimal | `%d` formatting, and `strconv.Atoi`'s result and error kinds |
| routes.dfy | Routes | the REST routes, their path templates, and a parser that reads a path back |
| schema.dfy | Schema | ids, the column, table and field records, and request bodies |
| grist.dfy | Grist | client and request options, `GristError`, the dispatcher |
| orgs.dfy, workspaces.dfy, documents.dfy, tables.dfy, columns.dfy, records.dfy | one module each | the endpoints of the Go file of the same name |

Each endpoint comes in two parts:

- a pure request builder, such as `Tables.CreateTablesRequest`, that carries
  the contract about the route, method, body and local errors;
- a thin composition, such as `Tables.CreateTables`, that runs the builder
  through the dispatcher.

The HTTP client is a parameter `send: Transport`, a function from the
outgoing request to what came back. A proof that a request is never sent
states that the result is the same for every transport.

## Model

| member | source | states |
|---|---|---|
| Grist.NewClientLastWriteWins | grist.go:67-107 | each client field holds the value of the last option that wrote it, or its zero value; the HTTP handle becomes the default client only when no option left one |
| Grist.ApplyClientOptsLastWins | grist.go:67-72 | `Grist.ApplyClientOpts`, applying options in order, equals taking, field by field, the last write |
| Grist.ClientOptsCommute | grist.go:81-107 | two client options that write different fields can be applied in either order |
| Grist.ClientOptOverwrites | grist.go:81-107 | a later option on the same field erases the earlier one |
| Grist.ApplyRequestOptsLastWins | grist.go:49-65 | `Grist.ApplyRequestOpts`, request options applied in order: the last write to document, table or filter wins; path, method and body are untouched |
| Grist.RequestOptWritesOneField | grist.go:49-65 | a request option changes only its own field |
| Grist.RequestOptOverwrites | grist.go:49-65 | a later request option on the same field erases the earlier one |
| Grist.RequestTo | grist.go:37-45 | an endpoint's request has the given method, zero document, table, filter and body, and its route's path template; the path parses back to the route when no id holds a `/` |
| Grist.BuildOutgoing | grist.go:109-132 | URL is base URL then path; headers are exactly Content-Type application/json and Authorization Bearer plus token; the query holds only `filter`, present exactly when the request or the client has a filter, with one value chosen by the filter rule |
| Grist.RequestFilterReplacesGlobal | grist.go:120-130 | a request filter is sent alone, whatever the global filter is |
| Grist.GlobalFilterFallback | grist.go:120-130 | without a request filter the global filter is sent, or no filter when there is none |
| Grist.Normalize | grist.go:113-153 | the body is returned exactly on status 200; any other status gives GristError with that status and the body; earlier failures pass through unchanged; `Grist.HttpRequest` is BuildOutgoing, then the transport, then this |
| Grist.OnlyStatus200Succeeds | grist.go:146-153 | for a received response, 200 gives the body and every other status, 2xx included, gives the GristError |
| Grist.LocalFailureSkipsTransport | tables.go:58-62 | `Grist.Dispatch` returns a request an endpoint refused before dispatch (the column check here, and the encoding failures of tables.go:83-86 and columns.go:112-115) with its local error, whatever the transport does |
| Grist.ErrorText | grist.go:161-163 | the message is `status: `, then the status code exactly as `%d` writes it, then `, details: `, then the details |
| Grist.ErrorTextRoundTrip | grist.go:161-163 | status code and details can be read back from the message |
| Grist.ErrorTextInjective | grist.go:161-163 | two errors with the same message are the same error |
| Decimal.NatToString | grist.go:162 | `%d` of a natural number is a digit string without leading zeros that denotes the number |
| Decimal.IntToString | grist.go:162 | `%d` of an integer is a sign exactly for negatives, then the digits of its magnitude with no leading zero |
| Decimal.AtoiAccepts | workspaces.go:66 | `Decimal.Atoi` succeeds exactly on optionally signed decimal numerals within 64 bits and returns their value; larger numerals give a range error with the nearest bound |
| Decimal.AtoiIntToString | workspaces.go:56-66 | Atoi reads back every 64-bit integer that `%d` wrote |
| Decimal.AtoiRangeClamps | workspaces.go:66 | every range error carries MinInt64 after a leading `-` and MaxInt64 otherwise; every syntax error carries 0 |
| Decimal.AtoiRangeBeforeSyntax | workspaces.go:66 | digits that already exceed 64 bits, after an optional sign, are a range error with the bound on the side of the sign, whatever follows them |
| Decimal.AtoiSyntaxError | workspaces.go:66 | Atoi gives a syntax error, with 0, exactly on the empty text, a lone sign, and a text whose digits after the sign stop at another character before exceeding 64 bits |
| Decimal.ScanUintStopsAtNonDigit | workspaces.go:66 | the parsing loop stops with a syntax error at the first non-digit when the digits before it fit in 64 bits |
| Decimal.ScanUintOfDigits | workspaces.go:66 | on digits the parsing loop computes the value, or reports overflow exactly when it exceeds 64 bits |
| Decimal.ScanUintOverflowPrefix | workspaces.go:66 | once the digits read exceed 64 bits the loop stops with overflow, whatever follows |
| Decimal.ScanUintRejectsNonDigit | workspaces.go:66 | a string with a non-digit never parses to a value |
| Routes.SplitJoin | records.go:31 | splitting the joined slash-free segments on `/` gives them back |
| Routes.PathIsJoin | records.go:31 | every path template is its route's segments joined with `/` |
| Routes.ParsePath | records.go:31 | a route whose ids hold no `/` is read back from its path |
| Routes.PathInjective | records.go:31 | two well-formed routes with the same path are the same route |
| Routes.SlashInIdentifierAliases | documents.go:126 | an id holding a `/` gives the path of another route |
| Orgs.ListOrgsRequest | orgs.go:52-59 | a GET of the organisations route, with no body and no filter |
| Orgs.GetOrgRequest | orgs.go:61-69 | a GET of the organisation's route, the id inserted as it is, for every id |
| Orgs.GetOrgWorkspacesAndDocumentsRequest | orgs.go:71-79 | a GET of the organisation's workspaces route, the id inserted as it is, for every id |
| Orgs.OrgReadsSendGlobalFilter | orgs.go:52-79 | these reads send the client's global filter |
| Workspaces.WorkspaceNameBody | workspaces.go:29 | an empty name is left out of the body; any other name is sent as it is |
| Workspaces.CreateWorkspaceRequest | workspaces.go:45-59 | a POST of the name to the workspaces route of the organisation id written in decimal |
| Workspaces.AtoiReturns | workspaces.go:66 | the workspace id read from the reply: success exactly on 64-bit decimal numerals, which give their value; otherwise a NumError naming the text: a syntax error, with 0, exactly on the texts `Decimal.AtoiSyntaxError` names, and otherwise a range error with the bound on the side of the sign |
| Workspaces.CreateWorkspace | workspaces.go:61-66 | a failed request gives 0 beside its error; otherwise the reply is read by Atoi |
| Workspaces.CreateWorkspaceReadsId | workspaces.go:61-66 | a server answering 200 with an id in decimal gives that id and no error |
| Workspaces.CreateWorkspaceRejectsNonNumeral | workspaces.go:61-66 | every reply that starts with neither a sign nor a digit, a quoted id among them, gives 0 and a syntax error |
| Workspaces.GetWorkspaceRequest | workspaces.go:69-76 | a GET of the workspace's route, the id in decimal |
| Documents.StripQuotes | documents.go:120-121 | no quote is left; the other bytes are kept, with their counts; an input without quotes is returned as it is |
| Documents.StripQuotesAppend | documents.go:121 | stripping distributes over concatenation, so the kept bytes keep their order |
| Documents.StripQuotesIdempotent | documents.go:121 | stripping twice is stripping once |
| Documents.StripQuotesUnwraps | documents.go:120-121 | a quoted id comes back without its quotes |
| Documents.StripQuotesExample | documents.go:120-121 | the reply `"abc123"` gives abc123 |
| Documents.CreateDocumentRequest | documents.go:98-113 | a POST of name and pin flag to the workspace's docs route, the id in decimal |
| Documents.CreateDocumentRaw | documents.go:115-121 | a failed request passes its error through; a reply is returned with every quote removed and the other bytes in order |
| Documents.CreateDocument | documents.go:88-96 | the empty string beside any error; otherwise the reply with its quotes removed |
| Documents.CreateDocumentReturnsIdentifier | documents.go:88-121 | a 200 reply with a quoted id gives that id alone and no error |
| Documents.GetDocumentRequest | documents.go:124-130 | a GET of the document's route, the id inserted as it is, for every id |
| Documents.DeleteDocumentRequest | documents.go:132-139 | the GetDocument request with the DELETE method |
| Tables.ValidateTables | tables.go:57-62 | refused exactly when some table has no columns, with "columns required to create table" |
| Tables.MarshalTables | tables.go:79-86 | encoding fails exactly when some column of some table is a formula column with an empty formula |
| Tables.ListTablesRequest | tables.go:42-50 | a GET of the document's tables route, the id inserted as it is, for every id |
| Tables.WriteTableRequest | tables.go:79-96 | on success, the given method and all tables, in order, sent to the document's tables route; otherwise the encoding error |
| Tables.CreateTablesRequest | tables.go:52-66 | a table without columns gives the local error; otherwise a POST by writeTable |
| Tables.ColumnlessTableSkipsTransport | tables.go:57-62 | a table without columns stops CreateTables before anything is sent |
| Tables.EmptyTableListIsSent | tables.go:57-64 | an empty list of tables passes the check and is sent |
| Tables.ListAndCreateShareRoute | tables.go:45-89 | listing and creating tables use the same path |
| Columns.FieldTypesReadBack | columns.go:25-51 | the seven fixed field types are distinct; `Columns.NewDateTimeField` and `Columns.NewRefField` give types that read back their timezone and table id |
| Columns.MarshalColumns | columns.go:74-88 | encoding, `Columns.MarshalField` per column, fails exactly when a formula column has an empty formula, with "formula must be set for formula field" |
| Columns.GetColumnsRequest | columns.go:90-97 | a GET of the table's columns route, document and table id inserted as they are |
| Columns.WriteColumnsRequest | columns.go:107-125 | on success, the method and the columns sent to the table's columns route; otherwise the encoding error |
| Columns.CreateAndPatchColumnsDifferOnlyInMethod | columns.go:99-105 | CreateColumns and PatchColumns send the same request except for the method |
| Columns.EncodingFailureSkipsTransport | columns.go:82-86 | a formula column with no formula stops the write before anything is sent |
| Records.GetRecordsWithOptionsRequest | records.go:24-34 | the document, table and filter are the last ones the options set; the path is the records route of that document and table, for every id; the method is empty |
| Records.GetRecordsRequest | records.go:36-44 | a GET of the table's records route, document and table id inserted as they are, with no filter |
| Records.GetFilteredRecordsRequest | records.go:46-58 | the GetRecords request with the given filter |
| Records.UnfilteredIsGetRecords | records.go:46-58 | with no filter, GetFilteredRecords is GetRecords |
| Records.FilteredRecordsSendOwnFilter | records.go:46-58 | a filtered read sends exactly its filter, whatever the global filter is |
| Records.CreateRecordRequest | records.go:64-72 | a POST of the caller's payload to the records route |
| Records.OptionsReadSendsItsFilter | grist_test.go:192-200 | a client made with a URL and key, reading with a document and a filter option, sends to that document's records with the key and only that filter |

## Left out

- net/http is a parameter, not a model: `http.NewRequest`, `Client.Do`
  and `io.ReadAll` are the transport's outcomes. Their failures pass through
  unchanged.
- A nil `*http.Client` handle makes `Client.Do` panic in Go. `NewClient`
  replaces a nil handle with the default client after every option has run
  (`Grist.NewClientLastWriteWins`), so such a handle can only come from a
  `Client` literal or from an option applied after construction. The model
  passes the handle along in the outgoing request and does not model the
  panic.
- The query is modelled as starting empty. A query already present in the
  base URL or in an id would be parsed and kept by `req.URL.Query()`; it is
  not modelled.
- `url.Values.Encode` is not modelled. The query is the map before encoding,
  and its escaping and key ordering are left to net/http.
- JSON encoding is not modelled as text. Bodies are the records they
  encode, and a `MarshalerError` carries only its cause. The text of
  `NumError` and `MarshalerError` messages is not modelled.
- The response data types (Org, Workspace, Document, Features, and so on) are
  left out. The client never reads them; callers decode the raw replies.
- Only the package's own options are modelled: `SetDocument`, `SetTable`
  and `SetFilter` for requests, and `SetAPIKey`, `SetURL`, `SetHTTPClient`
  and `SetClientGlobalFilter` for clients. `ClientOpt` and `GristRequestOpt`
  are exported function types, so a caller may write an option that sets the
  method, the body or several fields at once. `Grist.RequestOptWritesOneField`,
  the last-write-wins lemmas, and the empty method and absent body of
  `Records.GetRecordsWithOptionsRequest` hold only for the package's options.
- Concurrency is left out. The package itself never writes to a `Client`
  after `NewClient`, but its fields are exported and a caller may apply
  options or assign fields later, so concurrent use of one client is outside
  the model.
- `strconv.Atoi`'s fast path for short strings is not modelled separately.
  Go documents Atoi as equivalent to `ParseInt(s, 10, 0)`, which is what is
  modelled.
- Go's `int` is taken to be 64 bits wide. An `orgID` or workspace id is
  formatted as an unbounded integer, which agrees with Go on 64-bit
  platforms.
- `PatchTables` is commented out in tables.go (lines 68-77). It is not part
  of the client and is not modelled.
- `getRecords` (records.go:60-62) and the thin `CreateTables`
  (tables.go:53-55) only forward. They are folded into the functions that
  call them.
- The `Records.GetRecordsWithOptionsRequest` method is the empty string, as
  in the source. net/http sends an empty method as GET.
- The endpoint compositions (`Orgs.ListOrgs`, `Documents.GetDocument`,
  `Tables.CreateTables` and the others) carry no contract of their own. Each
  is its request builder passed through `Grist.HttpRequest` or
  `Grist.Dispatch`, and those and the lemmas above state its behaviour.
- Grist.NewClient: its own ensures says only that a handle is always set.
  The full statement is in `Grist.NewClientLastWriteWins`.
- Ids are inserted into paths without escaping. Every request builder states
  its path as its route's template for every id. The route is read back from
  the path only when no id holds a `/`: an id with a slash names another
  route (`Routes.SlashInIdentifierAliases`).
- Grist.ErrorTextRoundTrip: proved only for status codes within 64 bits,
  which every HTTP status is.

## Behaviour worth noting

- `createTables` checks only that every table has columns. Encoding the
  `tables` wrapper still reaches `(*ColumnField).MarshalJSON` for every
  column, because slice elements are addressable. So a formula column with
  an empty formula also makes CreateTables fail, with a `MarshalerError`
  and nothing sent (`Tables.MarshalTables`, `Tables.WriteTableRequest`).
- `strconv.Atoi` reports a range error as soon as the digits read so far
  exceed 64 bits, before it reaches a later character that is not a digit
  (`Decimal.AtoiRangeBeforeSyntax`). A reply that is not a numeral is
  therefore not always a syntax error; a range error carries the bound on the
  side of the sign (`Decimal.AtoiRangeClamps`).
