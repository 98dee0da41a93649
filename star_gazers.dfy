/** The hooks of tap_github/streams/star_gazers.py: the star media type header and the
    post-processor that copies the user's id to the top-level `user_id`. */
module StargazersStream {

  import opened Wrappers
  import opened Json
  import opened PyDict
  import opened Hooks
  import Catalog
  import Paths

  const Descriptor := Catalog.StreamDescriptor(
    name := Some("stargazers"),
    path := Paths.Stargazers,
    primaryKeys := Some(["repo", "org", "user_id"]),
    replicationKey := Some("starred_at"),
    partitionKeys := Some(["repo", "org"]),
    parent := Some(Catalog.Repository),
    ignoreParentReplicationKey := false,
    toleratedHttpErrors := {})

  /** The media type that adds `starred_at` to each stargazer. */
  const StarMediaType := "application/vnd.github.v3.star+json"

  /** `http_headers`: the runtime's headers with the star media type. */
  function Headers(base: Object): (headers: Object)
    ensures SetsOnly(base, headers, "Accept", Str(StarMediaType))
  {
    base["Accept" := Str(StarMediaType)]
  }

  method HttpHeaders(headers: Dict) returns (r: Dict)
    modifies headers
    ensures r == headers
    ensures headers.items == Headers(old(headers.items))
  {
    headers.Assign("Accept", Str(StarMediaType));
    r := headers;
  }

  /** Where the id is read: `row["user"]["id"]`. */
  const IdPath := ["user", "id"]

  /** A row `post_process` accepts: a dict `user` holding an `id`. */
  predicate IsStargazerRow(row: Object)
  {
    "user" in row && row["user"].Obj? && "id" in row["user"].fields
  }

  lemma DigId(row: Object)
    ensures Dig(Obj(row), IdPath).Ok? <==> IsStargazerRow(row)
    ensures IsStargazerRow(row) ==> Dig(Obj(row), IdPath).value == row["user"].fields["id"]
    ensures "user" !in row ==> Dig(Obj(row), IdPath) == Err(KeyError("user"))
    ensures "user" in row && !row["user"].Obj? ==> Dig(Obj(row), IdPath) == Err(TypeError)
    ensures "user" in row && row["user"].Obj? && "id" !in row["user"].fields ==> Dig(Obj(row), IdPath) == Err(KeyError("id"))
  {
    assert IdPath[1..] == ["id"];
    assert ["id"][1..] == [];
    if "user" in row {
      var u := row["user"];
      assert Dig(Obj(row), IdPath) == Dig(u, ["id"]);
      if u.Obj? && "id" in u.fields {
        assert Dig(u, ["id"]) == Dig(u.fields["id"], []);
      }
    }
  }

  /** `post_process` on the row's contents: the user's id is read, then written to
      `user_id`; a missing field raises before anything is written. */
  function Processed(row: Object): (r: Result<Object>)
    ensures r.Ok? <==> IsStargazerRow(row)
    ensures r.Ok? ==> SetsOnly(row, r.value, "user_id", row["user"].fields["id"])
    ensures "user" !in row ==> r == Err(KeyError("user"))
    ensures "user" in row && !row["user"].Obj? ==> r == Err(TypeError)
    ensures "user" in row && row["user"].Obj? && "id" !in row["user"].fields ==> r == Err(KeyError("id"))
  {
    DigId(row);
    Promote(row, IdPath, "user_id")
  }

  /** The hook: writes into the row and returns that same row. */
  method PostProcess(row: Dict) returns (r: Result<Dict>)
    modifies row
    ensures var p := Processed(old(row.items));
      && (p.Ok? ==> row.items == p.value && r.Ok? && r.value == row)
      && (p.Err? ==> row.items == old(row.items) && r.Err? && r.error == p.error)
  {
    DigId(row.items);
    var id := Dig(Obj(row.items), IdPath);
    if id.Err? {
      return Err(id.error);
    }
    row.Assign("user_id", id.value);
    r := Ok(row);
  }

  /** The nested `user` is left intact. */
  lemma UserIsKept(row: Object)
    requires IsStargazerRow(row)
    ensures Processed(row).value["user"] == row["user"]
  {
  }

  /** Processing a processed row changes nothing. */
  lemma Idempotent(row: Object)
    requires Processed(row).Ok?
    ensures Processed(Processed(row).value) == Processed(row)
  {
    PromoteIdempotent(row, IdPath, "user_id");
  }
}
