/** The document endpoints (documents.go). */
module Documents {
  import opened Wrappers
  import opened Decimal
  import opened Schema
  import opened Grist
  import opened Routes

  const Quote: char := '"'

  /** bytes.ReplaceAll(b, `"`, nil): every quote byte removed, every other byte kept in order. */
  function StripQuotes(b: Bytes): (r: Bytes)
    ensures Quote !in r
    ensures |r| <= |b|
    ensures Quote !in b ==> r == b
    ensures multiset(r) == multiset(b)[Quote := 0]
    decreases |b|
  {
    if b == [] then []
    else
      var rest := StripQuotes(b[1..]);
      assert b == [b[0]] + b[1..];
      (if b[0] == Quote then [] else [b[0]]) + rest
  }

  /** Stripping works piece by piece, so it keeps the order of the bytes it keeps. */
  lemma {:induction false} StripQuotesAppend(a: Bytes, b: Bytes)
    ensures StripQuotes(a + b) == StripQuotes(a) + StripQuotes(b)
    decreases |a|
  {
    if a == [] {
      assert a + b == b;
    } else {
      assert (a + b)[1..] == a[1..] + b;
      StripQuotesAppend(a[1..], b);
    }
  }

  lemma StripQuotesIdempotent(b: Bytes)
    ensures StripQuotes(StripQuotes(b)) == StripQuotes(b)
  {
  }

  /** A quoted identifier comes back without its quotes. */
  lemma StripQuotesUnwraps(id: Bytes)
    requires Quote !in id
    ensures StripQuotes([Quote] + id + [Quote]) == id
  {
    StripQuotesAppend([Quote] + id, [Quote]);
    StripQuotesAppend([Quote], id);
  }

  /** The server's reply `"abc123"` becomes the identifier abc123. */
  lemma StripQuotesExample()
    ensures StripQuotes("\"abc123\"") == "abc123"
  {
    assert "\"abc123\"" == [Quote] + "abc123" + [Quote];
    StripQuotesUnwraps("abc123");
  }

  /** createDocument's request: a POST to the workspace's docs route carrying the name and the pin flag. */
  function CreateDocumentRequest(workspace: WorkspaceID, name: string, isPinned: bool): (r: GristRequest)
    ensures r.verb == MethodPost && r.data == Some(DocBody(name, isPinned)) && r.filter.None?
    ensures r.path == Path(WorkspaceDocs(IntToString(workspace.id)))
    ensures ParseRoute(r.path) == Some(WorkspaceDocs(IntToString(workspace.id)))
  {
    IntToStringAvoids(workspace.id, '/');
    RequestTo(WorkspaceDocs(IntToString(workspace.id)), MethodPost).(data := Some(DocBody(name, isPinned)))
  }

  /** createDocument: the dispatcher's error as it is, or the reply with its quotes stripped. */
  function CreateDocumentRaw(c: Client, workspace: WorkspaceID, name: string, isPinned: bool, send: Transport): (r: Result<Bytes, Error>)
    ensures var sent := HttpRequest(c, CreateDocumentRequest(workspace, name, isPinned), send);
      && (sent.Failure? ==> r == sent)
      && (sent.Success? ==> r == Success(StripQuotes(sent.value)))
      && (sent.Success? ==> Quote !in r.value && multiset(r.value) == multiset(sent.value)[Quote := 0])
  {
    match HttpRequest(c, CreateDocumentRequest(workspace, name, isPinned), send)
    case Failure(e) => Failure(e)
    case Success(resp) => Success(StripQuotes(resp))
  }

  /** CreateDocument: the new identifier, or the empty string beside the error. */
  function CreateDocument(c: Client, workspace: WorkspaceID, name: string, isPinned: bool, send: Transport): (r: Returns<string>)
    ensures r.err.None? <==> CreateDocumentRaw(c, workspace, name, isPinned, send).Success?
    ensures r.err.Some? ==> r == Returns("", Some(CreateDocumentRaw(c, workspace, name, isPinned, send).error))
    ensures r.err.None? ==> r.value == CreateDocumentRaw(c, workspace, name, isPinned, send).value && Quote !in r.value
  {
    match CreateDocumentRaw(c, workspace, name, isPinned, send)
    case Failure(e) => Returns("", Some(e))
    case Success(id) => Returns(id, None)
  }

  /** When the server answers 200 with a quoted identifier, CreateDocument returns the identifier alone. */
  lemma CreateDocumentReturnsIdentifier(c: Client, workspace: WorkspaceID, name: string, isPinned: bool, send: Transport, id: string)
    requires Quote !in id
    requires send(BuildOutgoing(c, CreateDocumentRequest(workspace, name, isPinned))) == Response(200, [Quote] + id + [Quote])
    ensures CreateDocument(c, workspace, name, isPinned, send) == Returns(id, None)
  {
    StripQuotesUnwraps(id);
  }

  /** GetDocument: a GET of the document's route. */
  function GetDocumentRequest(id: string): (r: GristRequest)
    ensures r.verb == MethodGet && r.data.None? && r.filter.None?
    ensures r.path == Path(Doc(id))
    ensures WellFormed(Doc(id)) ==> ParseRoute(r.path) == Some(Doc(id))
  {
    RequestTo(Doc(id), MethodGet)
  }

  /** DeleteDocument: the same request as GetDocument but for the DELETE method. */
  function DeleteDocumentRequest(id: string): (r: GristRequest)
    ensures r == GetDocumentRequest(id).(verb := MethodDelete)
  {
    RequestTo(Doc(id), MethodDelete)
  }

  function GetDocument(c: Client, id: string, send: Transport): Result<Bytes, Error> {
    HttpRequest(c, GetDocumentRequest(id), send)
  }

  function DeleteDocument(c: Client, id: string, send: Transport): Result<Bytes, Error> {
    HttpRequest(c, DeleteDocumentRequest(id), send)
  }
}
