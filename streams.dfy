/** The hooks of tap_github/streams.py: the repository search stream (the root of the
    graph), the issues stream below it and the issue comments stream below that. */
module Streams {

  import opened Wrappers
  import opened Json
  import opened PyDict
  import opened Hooks
  import Catalog
  import Paths

  /** The search API's page size and total-result cap; the client applies them. */
  const MaxPerPage := 100
  const MaxResultsLimit := 1000

  /** The media type that opts into reactions on issues and pull requests. */
  const SquirrelGirlPreview := "application/vnd.github.squirrel-girl-preview"

  /** `RepositoryStream`: the root; its name and query are given when the tap builds it. */
  const RepositoryDescriptor := Catalog.StreamDescriptor(
    name := None,
    path := Paths.SearchRepositories,
    primaryKeys := None,
    replicationKey := None,
    partitionKeys := None,
    parent := None,
    ignoreParentReplicationKey := false,
    toleratedHttpErrors := {})

  /** `IssuesStream` */
  const IssuesDescriptor := Catalog.StreamDescriptor(
    name := Some("Issues"),
    path := Paths.Issues,
    primaryKeys := Some(["id"]),
    replicationKey := Some("updated_at"),
    partitionKeys := None,
    parent := Some(Catalog.Repository),
    ignoreParentReplicationKey := true,
    toleratedHttpErrors := {})

  /** `IssueCommentsStream`; its keys are declared as `partition_keys`. */
  const IssueCommentsDescriptor := Catalog.StreamDescriptor(
    name := Some("IssueComments"),
    path := Paths.IssueComments,
    primaryKeys := Some(["id"]),
    replicationKey := Some("updated_at"),
    partitionKeys := Some(["repo", "org"]),
    parent := Some(Catalog.Issues),
    ignoreParentReplicationKey := false,
    toleratedHttpErrors := {})

  // RepositoryStream

  /** `RepositoryStream.get_url_params`: the runtime's parameters with `q` set to the
      stream's query (None when the tap gave none). */
  function RepositoryUrlParams(base: Object, query: Option<string>): (params: Object)
    ensures SetsOnly(base, params, "q", FromOption(query))
  {
    base["q" := FromOption(query)]
  }

  method GetRepositoryUrlParams(params: Dict, query: Option<string>) returns (r: Dict)
    modifies params
    ensures r == params
    ensures params.items == RepositoryUrlParams(old(params.items), query)
  {
    params.Assign("q", FromOption(query));
    r := params;
  }

  /** A repository record carries what its child context reads: `owner.login` and `name`. */
  predicate IsRepositoryRecord(record: Object)
  {
    "owner" in record && record["owner"].Obj? && "login" in record["owner"].fields && "name" in record
  }

  /** `RepositoryStream.get_child_context`: a fresh `{org, repo}` taken from the record; the
      inbound context plays no part. `record["owner"]["login"]` is read before `record["name"]`. */
  function RepositoryChildContext(record: Object, context: Option<Object>): (r: Result<Object>)
    ensures r.Ok? <==> IsRepositoryRecord(record)
    ensures r.Ok? ==>
      && r.value.Keys == {"org", "repo"}
      && r.value["org"] == record["owner"].fields["login"]
      && r.value["repo"] == record["name"]
    ensures "owner" !in record ==> r == Err(KeyError("owner"))
    ensures "owner" in record && !record["owner"].Obj? ==> r == Err(TypeError)
    ensures "owner" in record && record["owner"].Obj? && "login" !in record["owner"].fields ==>
      r == Err(KeyError("login"))
    ensures "owner" in record && record["owner"].Obj? && "login" in record["owner"].fields && "name" !in record ==>
      r == Err(KeyError("name"))
  {
    if "owner" !in record then Err(KeyError("owner"))
    else
      match Subscript(record["owner"], "login")
      case Err(e) => Err(e)
      case Ok(login) =>
        if "name" in record then Ok(map["org" := login, "repo" := record["name"]])
        else Err(KeyError("name"))
  }

  // IssuesStream

  /** `IssuesStream.get_child_context` on a given context dict: it writes `issue_number`
      and then the `comments` hint into that dict. A record without `comments` raises
      after the first write, which stays. */
  function IssuesChildContext(record: Object, context: Object): (m: Mutation)
    ensures m.raised.None? <==> "number" in record && "comments" in record
    ensures m.raised.None? ==>
      && m.after.Keys == context.Keys + {"issue_number", "comments"}
      && m.after["issue_number"] == record["number"]
      && m.after["comments"] == record["comments"]
      && forall k :: k in context && k != "issue_number" && k != "comments" ==> m.after[k] == context[k]
    ensures "number" !in record ==> m == Mutation(Some(KeyError("number")), context)
    ensures "number" in record && "comments" !in record ==>
      && m.raised == Some(KeyError("comments"))
      && SetsOnly(context, m.after, "issue_number", record["number"])
  {
    if "number" !in record then Mutation(Some(KeyError("number")), context)
    else
      var numbered := context["issue_number" := record["number"]];
      if "comments" !in record then Mutation(Some(KeyError("comments")), numbered)
      else Mutation(None, numbered["comments" := record["comments"]])
  }

  /** The hook rewrites the very dict the issues stream was synced with, so every issue's
      child context is that one dict. The rewrite does not leak into the next issue: both
      keys it writes are written again, and the next child context is the one the untouched
      inbound context would give. */
  lemma SharedContextRewritten(first: Object, next: Object, context: Object)
    requires IssuesChildContext(first, context).raised.None?
    requires "number" in next && "comments" in next
    ensures IssuesChildContext(next, IssuesChildContext(first, context).after) == IssuesChildContext(next, context)
  {
    var shared := IssuesChildContext(first, context).after;
    var a := IssuesChildContext(next, shared).after;
    var b := IssuesChildContext(next, context).after;
    assert a.Keys == b.Keys;
    assert forall k :: k in a ==> a[k] == b[k];
  }

  /** The hook itself: no context is a ValueError; otherwise the caller's dict is updated
      in place and returned. */
  method GetIssuesChildContext(record: Object, context: Dict?) returns (r: Result<Dict>)
    modifies context
    ensures context == null ==> r == Err(ValueError)
    ensures context != null ==>
      var m := IssuesChildContext(record, old(context.items));
      && context.items == m.after
      && (m.raised.None? ==> r.Ok? && r.value == context)
      && (m.raised.Some? ==> r == Err(m.raised.value))
  {
    if context == null {
      return Err(ValueError);
    }
    if "number" !in record {
      return Err(KeyError("number"));
    }
    context.Assign("issue_number", record["number"]);
    if "comments" !in record {
      return Err(KeyError("comments"));
    }
    context.Assign("comments", record["comments"]);
    r := Ok(context);
  }

  /** `IssuesStream.http_headers`: the runtime's headers with the reactions preview. */
  function IssuesHeaders(base: Object): (headers: Object)
    ensures SetsOnly(base, headers, "Accept", Str(SquirrelGirlPreview))
  {
    base["Accept" := Str(SquirrelGirlPreview)]
  }

  method IssuesHttpHeaders(headers: Dict) returns (r: Dict)
    modifies headers
    ensures r == headers
    ensures headers.items == IssuesHeaders(old(headers.items))
  {
    headers.Assign("Accept", Str(SquirrelGirlPreview));
    r := headers;
  }

  // IssueCommentsStream

  /** `IssueCommentsStream.get_records`: no rows when the `comments` hint is zero, else the
      runtime's fetch for this context. */
  function IssueCommentsRecords(context: Option<Object>, fetch: Option<Object> -> seq<Object>): (rows: seq<Object>)
    ensures ZeroHint(context, "comments") ==> rows == []
    ensures !ZeroHint(context, "comments") ==> rows == fetch(context)
  {
    SkipWhenZero("comments", context, fetch)
  }

  /** `IssueCommentsStream.get_url_params`: with a replication key declared, `since` is set
      to the starting timestamp when the runtime has one. Timestamps are opaque strings here;
      the runtime's datetime objects are always truthy. */
  function IssueCommentsUrlParams(base: Object, since: Option<string>): (params: Object)
    ensures since.Some? ==> SetsOnly(base, params, "since", Str(since.value))
    ensures since.None? ==> params == base
  {
    var key := IssueCommentsDescriptor.replicationKey;
    if key.Some? && key.value != "" && since.Some? then base["since" := Str(since.value)] else base
  }

  method GetIssueCommentsUrlParams(params: Dict, since: Option<string>) returns (r: Dict)
    modifies params
    ensures r == params
    ensures params.items == IssueCommentsUrlParams(old(params.items), since)
  {
    var key := IssueCommentsDescriptor.replicationKey;
    if key.Some? && key.value != "" {
      if since.Some? {
        params.Assign("since", Str(since.value));
      }
    }
    r := params;
  }
}
