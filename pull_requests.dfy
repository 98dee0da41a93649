/** The hooks of tap_github/streams/pull_requests.py. The stream's parent is the
    repository stream of tap_github/streams/repository.py, which is not part of this model;
    the repository stream of tap_github/streams.py stands in for it. */
module PullRequestsStream {

  import opened Wrappers
  import opened Json
  import opened PyDict
  import opened Hooks
  import Catalog
  import Paths
  import Streams

  const Descriptor := Catalog.StreamDescriptor(
    name := Some("pull_requests"),
    path := Paths.Pulls,
    primaryKeys := Some(["id"]),
    replicationKey := Some("updated_at"),
    partitionKeys := Some(["repo", "org"]),
    parent := Some(Catalog.Repository),
    ignoreParentReplicationKey := false,
    toleratedHttpErrors := {})

  /** `get_url_params`: asserts that a context is given, then sets `state` to "all" on the
      runtime's parameters, so that open, closed and merged pull requests all come back. */
  function UrlParams(context: Option<Object>, base: Object): (r: Result<Object>)
    ensures r.Err? <==> context.None?
    ensures r.Err? ==> r.error == AssertionError
    ensures r.Ok? ==> SetsOnly(base, r.value, "state", Str("all"))
  {
    if context.None? then Err(AssertionError) else Ok(base["state" := Str("all")])
  }

  /** The hook: `params` is the dict the runtime would hand back; the assertion fails
      before the runtime is asked, so on failure nothing is written. */
  method GetUrlParams(context: Option<Object>, params: Dict) returns (r: Result<Dict>)
    modifies params
    ensures context.None? ==> r == Err(AssertionError) && params.items == old(params.items)
    ensures context.Some? ==> r.Ok? && r.value == params
    ensures context.Some? ==> params.items == UrlParams(context, old(params.items)).value
  {
    if context.None? {
      return Err(AssertionError);
    }
    params.Assign("state", Str("all"));
    r := Ok(params);
  }

  /** `get_child_context`: a new dict holding the default child context with
      `pull_number` taken from the record, which wins over a key of the same name. */
  function ChildContext(record: Object, context: Option<Object>): (r: Result<Object>)
    ensures r.Ok? <==> "number" in record
    ensures r.Err? ==> r.error == KeyError("number")
    ensures r.Ok? ==> SetsOnly(DefaultChildContext(record, context), r.value, "pull_number", record["number"])
  {
    var base := DefaultChildContext(record, context);
    if "number" in record then Ok(base["pull_number" := record["number"]]) else Err(KeyError("number"))
  }

  /** The hook builds a fresh dict and leaves the inbound context as it was, unlike
      `IssuesStream.get_child_context`, which writes into it. */
  method GetChildContext(record: Object, context: Dict?) returns (r: Result<Dict>)
    ensures r.Ok? <==> "number" in record
    ensures r.Err? ==> r.error == KeyError("number")
    ensures r.Ok? ==> fresh(r.value)
    ensures r.Ok? ==> r.value.items == ChildContext(record, if context == null then None else Some(context.items)).value
  {
    var base := if context == null then record else context.items;
    if "number" !in record {
      return Err(KeyError("number"));
    }
    var child := new Dict(base["pull_number" := record["number"]]);
    r := Ok(child);
  }

  /** `http_headers`: the runtime's headers with the reactions preview. */
  function Headers(base: Object): (headers: Object)
    ensures SetsOnly(base, headers, "Accept", Str(Streams.SquirrelGirlPreview))
  {
    base["Accept" := Str(Streams.SquirrelGirlPreview)]
  }

  method HttpHeaders(headers: Dict) returns (r: Dict)
    modifies headers
    ensures r == headers
    ensures headers.items == Headers(old(headers.items))
  {
    headers.Assign("Accept", Str(Streams.SquirrelGirlPreview));
    r := headers;
  }
}
