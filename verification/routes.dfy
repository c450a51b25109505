/**
 The REST routes the client addresses, as lists of `/`-separated path
 segments. This is the reference the endpoint builders are checked
 against: a path the builders concatenate must be the route's segments
 joined with `/`, and splitting it again recovers the route, identifiers
 included, as long as no identifier contains a `/`.
 */
module Routes {
  import opened Wrappers

  predicate SlashFree(s: string) {
    '/' !in s
  }

  /** The pieces of `s` between `/` characters, as Go's strings.Split(s, "/") gives them. */
  function Split(s: string): (parts: seq<string>)
    ensures |parts| > 0
    decreases |s|
  {
    if s == [] then [""]
    else
      var rest := Split(s[1..]);
      if s[0] == '/' then [""] + rest else [[s[0]] + rest[0]] + rest[1..]
  }

  /** The pieces joined with `/` between consecutive ones. */
  function Join(parts: seq<string>): string
    requires |parts| > 0
    decreases |parts|
  {
    if |parts| == 1 then parts[0] else parts[0] + "/" + Join(parts[1..])
  }

  /** A leading piece without `/` sticks to the first piece of what follows it. */
  lemma {:induction false} SplitSlashFreePrefix(a: string, t: string)
    requires SlashFree(a)
    ensures Split(a + t) == [a + Split(t)[0]] + Split(t)[1..]
    decreases |a|
  {
    if a == [] {
      assert a + t == t;
      assert a + Split(t)[0] == Split(t)[0];
      assert Split(t) == [Split(t)[0]] + Split(t)[1..];
    } else {
      assert (a + t)[1..] == a[1..] + t;
      SplitSlashFreePrefix(a[1..], t);
      assert [a[0]] + (a[1..] + Split(t)[0]) == a + Split(t)[0];
    }
  }

  /** Splitting undoes joining when no piece holds a `/`. */
  lemma {:induction false} SplitJoin(parts: seq<string>)
    requires |parts| > 0
    requires forall i | 0 <= i < |parts| :: SlashFree(parts[i])
    ensures Split(Join(parts)) == parts
    decreases |parts|
  {
    if |parts| == 1 {
      SplitSlashFreePrefix(parts[0], "");
      assert parts[0] + "" == parts[0];
    } else {
      var rest := Join(parts[1..]);
      SplitJoin(parts[1..]);
      assert parts[0] + "/" + rest == parts[0] + ("/" + rest);
      assert ("/" + rest)[1..] == rest;
      assert Split("/" + rest) == [""] + parts[1..];
      SplitSlashFreePrefix(parts[0], "/" + rest);
      assert parts[0] + "" == parts[0];
      assert parts == [parts[0]] + parts[1..];
    }
  }

  /** The resources of the remote API the client reaches, with their identifiers as path text. */
  datatype Route =
    | Orgs
    | Org(org: string)
    | OrgWorkspaces(org: string)
    | Workspace(workspace: string)
    | WorkspaceDocs(workspace: string)
    | Doc(doc: string)
    | DocTables(doc: string)
    | TableColumns(doc: string, table: string)
    | TableRecords(doc: string, table: string)

  function Segments(r: Route): (parts: seq<string>)
    ensures |parts| >= 3
  {
    match r
    case Orgs => ["", "api", "orgs"]
    case Org(o) => ["", "api", "orgs", o]
    case OrgWorkspaces(o) => ["", "api", "orgs", o, "workspaces"]
    case Workspace(w) => ["", "api", "workspaces", w]
    case WorkspaceDocs(w) => ["", "api", "workspaces", w, "docs"]
    case Doc(d) => ["", "api", "docs", d]
    case DocTables(d) => ["", "api", "docs", d, "tables"]
    case TableColumns(d, t) => ["", "api", "docs", d, "tables", t, "columns"]
    case TableRecords(d, t) => ["", "api", "docs", d, "tables", t, "records"]
  }

  /** The path of a route, identifiers inserted as they are, the way the endpoints format it. */
  function Path(r: Route): string {
    match r
    case Orgs => "/api/orgs"
    case Org(o) => "/api/orgs/" + o
    case OrgWorkspaces(o) => "/api/orgs/" + o + "/workspaces"
    case Workspace(w) => "/api/workspaces/" + w
    case WorkspaceDocs(w) => "/api/workspaces/" + w + "/docs"
    case Doc(d) => "/api/docs/" + d
    case DocTables(d) => "/api/docs/" + d + "/tables"
    case TableColumns(d, t) => "/api/docs/" + d + "/tables/" + t + "/columns"
    case TableRecords(d, t) => "/api/docs/" + d + "/tables/" + t + "/records"
  }

  lemma JoinCons(a: string, rest: seq<string>)
    requires |rest| > 0
    ensures Join([a] + rest) == a + "/" + Join(rest)
  {
    assert ([a] + rest)[1..] == rest;
  }

  /** The formatted path is the route's segments joined with `/`. */
  lemma PathIsJoin(r: Route)
    ensures Path(r) == Join(Segments(r))
  {
    match r
    case Orgs => JoinOrgs();
    case Org(o) => JoinApiLeaf("orgs", o, "/api/orgs/");
    case OrgWorkspaces(o) => JoinApiInner("orgs", o, "workspaces", "/api/orgs/", "/workspaces");
    case Workspace(w) => JoinApiLeaf("workspaces", w, "/api/workspaces/");
    case WorkspaceDocs(w) => JoinApiInner("workspaces", w, "docs", "/api/workspaces/", "/docs");
    case Doc(d) => JoinApiLeaf("docs", d, "/api/docs/");
    case DocTables(d) => JoinApiInner("docs", d, "tables", "/api/docs/", "/tables");
    case TableColumns(d, t) => JoinTableLeaf(d, t, "columns", "/columns");
    case TableRecords(d, t) => JoinTableLeaf(d, t, "records", "/records");
  }

  lemma JoinOrgs()
    ensures Join(["", "api", "orgs"]) == "/api/orgs"
  {
    JoinCons("api", ["orgs"]);
    assert ["api", "orgs"] == ["api"] + ["orgs"];
    JoinCons("", ["api", "orgs"]);
    assert ["", "api", "orgs"] == [""] + ["api", "orgs"];
  }

  lemma JoinApiLeaf(k: string, id: string, prefix: string)
    requires prefix == "/api/" + k + "/"
    ensures Join(["", "api", k, id]) == prefix + id
  {
    JoinCons(k, [id]);
    assert [k, id] == [k] + [id];
    var j2 := k + "/" + id;
    JoinCons("api", [k, id]);
    assert ["api", k, id] == ["api"] + [k, id];
    var j1 := "api" + "/" + j2;
    JoinCons("", ["api", k, id]);
    assert ["", "api", k, id] == [""] + ["api", k, id];
    var j0 := "" + "/" + j1;
    assert Join(["", "api", k, id]) == j0;
    assert j0 == prefix + id;
  }

  lemma JoinApiInner(k: string, id: string, leaf: string, prefix: string, suffix: string)
    requires prefix == "/api/" + k + "/" && suffix == "/" + leaf
    ensures Join(["", "api", k, id, leaf]) == prefix + id + suffix
  {
    JoinCons(id, [leaf]);
    assert [id, leaf] == [id] + [leaf];
    var j3 := id + "/" + leaf;
    JoinCons(k, [id, leaf]);
    assert [k, id, leaf] == [k] + [id, leaf];
    var j2 := k + "/" + j3;
    JoinCons("api", [k, id, leaf]);
    assert ["api", k, id, leaf] == ["api"] + [k, id, leaf];
    var j1 := "api" + "/" + j2;
    JoinCons("", ["api", k, id, leaf]);
    assert ["", "api", k, id, leaf] == [""] + ["api", k, id, leaf];
    var j0 := "" + "/" + j1;
    assert Join(["", "api", k, id, leaf]) == j0;
    assert j0 == prefix + id + suffix;
  }

  lemma JoinTableLeaf(d: string, t: string, leaf: string, suffix: string)
    requires suffix == "/" + leaf
    ensures Join(["", "api", "docs", d, "tables", t, leaf]) == "/api/docs/" + d + "/tables/" + t + suffix
  {
    JoinCons(t, [leaf]);
    assert [t, leaf] == [t] + [leaf];
    var j5 := t + "/" + leaf;
    JoinCons("tables", [t, leaf]);
    assert ["tables", t, leaf] == ["tables"] + [t, leaf];
    var j4 := "tables" + "/" + j5;
    JoinCons(d, ["tables", t, leaf]);
    assert [d, "tables", t, leaf] == [d] + ["tables", t, leaf];
    var j3 := d + "/" + j4;
    JoinCons("docs", [d, "tables", t, leaf]);
    assert ["docs", d, "tables", t, leaf] == ["docs"] + [d, "tables", t, leaf];
    var j2 := "docs" + "/" + j3;
    JoinCons("api", ["docs", d, "tables", t, leaf]);
    assert ["api", "docs", d, "tables", t, leaf] == ["api"] + ["docs", d, "tables", t, leaf];
    var j1 := "api" + "/" + j2;
    JoinCons("", ["api", "docs", d, "tables", t, leaf]);
    assert ["", "api", "docs", d, "tables", t, leaf] == [""] + ["api", "docs", d, "tables", t, leaf];
    var j0 := "" + "/" + j1;
    assert Join(["", "api", "docs", d, "tables", t, leaf]) == j0;
    assert j0 == "/api/docs/" + d + "/tables/" + t + suffix;
  }

  /** Every identifier of the route is free of `/`. */
  predicate WellFormed(r: Route) {
    forall i | 0 <= i < |Segments(r)| :: SlashFree(Segments(r)[i])
  }

  /** The route a path names, if it names one. */
  function ParseRoute(path: string): Option<Route> {
    var s := Split(path);
    if |s| < 3 || s[0] != "" || s[1] != "api" then None
    else if s[2] == "orgs" then
      if |s| == 3 then Some(Orgs)
      else if |s| == 4 then Some(Org(s[3]))
      else if |s| == 5 && s[4] == "workspaces" then Some(OrgWorkspaces(s[3]))
      else None
    else if s[2] == "workspaces" then
      if |s| == 4 then Some(Workspace(s[3]))
      else if |s| == 5 && s[4] == "docs" then Some(WorkspaceDocs(s[3]))
      else None
    else if s[2] == "docs" then
      if |s| == 4 then Some(Doc(s[3]))
      else if |s| == 5 && s[4] == "tables" then Some(DocTables(s[3]))
      else if |s| == 7 && s[4] == "tables" && s[6] == "columns" then Some(TableColumns(s[3], s[5]))
      else if |s| == 7 && s[4] == "tables" && s[6] == "records" then Some(TableRecords(s[3], s[5]))
      else None
    else None
  }

  /** The path of a well-formed route names that route and no other. */
  lemma ParsePath(r: Route)
    ensures WellFormed(r) ==> ParseRoute(Path(r)) == Some(r)
  {
    if WellFormed(r) {
      PathIsJoin(r);
      SplitJoin(Segments(r));
    }
  }

  lemma PathInjective(r1: Route, r2: Route)
    requires WellFormed(r1) && WellFormed(r2)
    requires Path(r1) == Path(r2)
    ensures r1 == r2
  {
    ParsePath(r1);
    ParsePath(r2);
  }

  /** Identifiers go into paths verbatim, so one holding a `/` can name another route. */
  lemma SlashInIdentifierAliases()
    ensures Path(Doc("a/tables")) == Path(DocTables("a"))
    ensures !WellFormed(Doc("a/tables"))
  {
    assert Segments(Doc("a/tables"))[3] == "a/tables";
  }
}
