/** The workspace endpoints (workspaces.go). */
module Workspaces {
  import opened Wrappers
  import opened Decimal
  import opened Schema
  import opened Grist
  import opened Routes

  /** The workspace name is omitted from the body when it is empty. */
  function WorkspaceNameBody(name: string): (b: Body)
    ensures b.WorkspaceBody?
    ensures b.workspaceName.None? <==> name == ""
    ensures b.workspaceName.Some? ==> b.workspaceName.value == name
  {
    WorkspaceBody(if name == "" then None else Some(name))
  }

  /** CreateWorkspace's request: a POST of the name to the organisation's workspaces route, the id written in decimal. */
  function CreateWorkspaceRequest(orgID: int, name: string): (r: GristRequest)
    ensures r.verb == MethodPost && r.filter.None? && r.data == Some(WorkspaceNameBody(name))
    ensures r.path == Path(OrgWorkspaces(IntToString(orgID)))
    ensures ParseRoute(r.path) == Some(OrgWorkspaces(IntToString(orgID)))
  {
    IntToStringAvoids(orgID, '/');
    RequestTo(OrgWorkspaces(IntToString(orgID)), MethodPost).(data := Some(WorkspaceNameBody(name)))
  }

  /** strconv.Atoi's result as the client returns it: the value, and a NumError naming the text when it failed. */
  function AtoiReturns(s: string): (r: Returns<int>)
    ensures r.err.None? <==> IsSignedDecimal(s) && MinInt64 <= SignedValue(s) <= MaxInt64
    ensures r.err.None? ==> r.value == SignedValue(s)
    ensures r.err.Some? ==> r.err.value.NumError? && r.err.value.num == s
    ensures IsSignedDecimal(s) && SignedValue(s) > MaxInt64 ==> r == Returns(MaxInt64, Some(NumError(s, ErrRange)))
    ensures IsSignedDecimal(s) && SignedValue(s) < MinInt64 ==> r == Returns(MinInt64, Some(NumError(s, ErrRange)))
    ensures r.err.Some? && r.err.value.kind == ErrSyntax <==> IsSyntaxError(s)
    ensures r.err.Some? && r.err.value.kind == ErrSyntax ==> r.value == 0
    ensures r.err.Some? && r.err.value.kind == ErrRange ==> |s| > 0 && r.value == (if s[0] == '-' then MinInt64 else MaxInt64)
  {
    AtoiAccepts(s);
    AtoiRangeClamps(s);
    AtoiSyntaxError(s);
    var p := Atoi(s);
    Returns(p.value, if p.err.Some? then Some(NumError(s, p.err.value)) else None)
  }

  /**
   CreateWorkspace: a failed request gives 0 beside its error; otherwise the
   reply is read as a decimal integer.
   */
  function CreateWorkspace(c: Client, orgID: int, name: string, send: Transport): (r: Returns<int>)
    ensures var sent := HttpRequest(c, CreateWorkspaceRequest(orgID, name), send);
      && (sent.Failure? ==> r == Returns(0, Some(sent.error)))
      && (sent.Success? ==> r == AtoiReturns(sent.value))
  {
    match HttpRequest(c, CreateWorkspaceRequest(orgID, name), send)
    case Failure(e) => Returns(0, Some(e))
    case Success(id) => AtoiReturns(id)
  }

  /** A server that answers 200 with the new id in decimal gives that id back with no error. */
  lemma CreateWorkspaceReadsId(c: Client, orgID: int, name: string, send: Transport, id: int)
    requires MinInt64 <= id <= MaxInt64
    requires send(BuildOutgoing(c, CreateWorkspaceRequest(orgID, name))) == Response(200, IntToString(id))
    ensures CreateWorkspace(c, orgID, name, send) == Returns(id, None)
  {
  }

  /** A reply that starts with neither a sign nor a digit, such as a quoted id, gives 0 and a syntax error. */
  lemma CreateWorkspaceRejectsNonNumeral(c: Client, orgID: int, name: string, send: Transport, reply: string)
    requires |reply| > 0 && reply[0] != '+' && reply[0] != '-' && !IsDigit(reply[0])
    requires send(BuildOutgoing(c, CreateWorkspaceRequest(orgID, name))) == Response(200, reply)
    ensures CreateWorkspace(c, orgID, name, send) == Returns(0, Some(NumError(reply, ErrSyntax)))
  {
  }

  /** GetWorkspace: a GET of the workspace's route, the id written in decimal. */
  function GetWorkspaceRequest(id: WorkspaceID): (r: GristRequest)
    ensures r.verb == MethodGet && r.data.None? && r.filter.None?
    ensures r.path == Path(Workspace(IntToString(id.id)))
    ensures ParseRoute(r.path) == Some(Workspace(IntToString(id.id)))
  {
    IntToStringAvoids(id.id, '/');
    RequestTo(Workspace(IntToString(id.id)), MethodGet)
  }

  function GetWorkspace(c: Client, id: WorkspaceID, send: Transport): Result<Bytes, Error> {
    HttpRequest(c, GetWorkspaceRequest(id), send)
  }
}
