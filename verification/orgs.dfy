/** The organisation endpoints (orgs.go). */
module Orgs {
  import opened Wrappers
  import opened Schema
  import opened Grist
  import opened Routes

  /** ListOrgs: a GET of the organisations route. */
  function ListOrgsRequest(): (r: GristRequest)
    ensures r.verb == MethodGet && r.data.None? && r.filter.None?
    ensures r.path == Path(Orgs)
    ensures ParseRoute(r.path) == Some(Orgs)
  {
    RequestTo(Orgs, MethodGet)
  }

  /** GetOrg: a GET of one organisation's route. */
  function GetOrgRequest(id: string): (r: GristRequest)
    ensures r.verb == MethodGet && r.data.None? && r.filter.None?
    ensures r.path == Path(Org(id))
    ensures WellFormed(Org(id)) ==> ParseRoute(r.path) == Some(Org(id))
  {
    RequestTo(Org(id), MethodGet)
  }

  /** GetOrgWorkspacesAndDocuments: a GET of the organisation's workspaces route. */
  function GetOrgWorkspacesAndDocumentsRequest(id: string): (r: GristRequest)
    ensures r.verb == MethodGet && r.data.None? && r.filter.None?
    ensures r.path == Path(OrgWorkspaces(id))
    ensures WellFormed(OrgWorkspaces(id)) ==> ParseRoute(r.path) == Some(OrgWorkspaces(id))
  {
    RequestTo(OrgWorkspaces(id), MethodGet)
  }

  function ListOrgs(c: Client, send: Transport): Result<Bytes, Error> {
    HttpRequest(c, ListOrgsRequest(), send)
  }

  function GetOrg(c: Client, id: string, send: Transport): Result<Bytes, Error> {
    HttpRequest(c, GetOrgRequest(id), send)
  }

  function GetOrgWorkspacesAndDocuments(c: Client, id: string, send: Transport): Result<Bytes, Error> {
    HttpRequest(c, GetOrgWorkspacesAndDocumentsRequest(id), send)
  }

  /** None of these reads carries a filter of its own, so each sends the client's global filter when there is one. */
  lemma OrgReadsSendGlobalFilter(c: Client, id: string, g: Bytes)
    requires c.globalFilter == Some(g)
    ensures BuildOutgoing(c, ListOrgsRequest()).query == map["filter" := [g]]
    ensures BuildOutgoing(c, GetOrgRequest(id)).query == map["filter" := [g]]
    ensures BuildOutgoing(c, GetOrgWorkspacesAndDocumentsRequest(id)).query == map["filter" := [g]]
  {
  }
}
