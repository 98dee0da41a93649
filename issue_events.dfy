/** The hooks of tap_github/streams/issue_events.py: the zero-hint skip and the
    post-processor that hoists the issue's number and url to the top of each row. */
module IssueEventsStream {

  import opened Wrappers
  import opened Json
  import opened PyDict
  import opened Hooks
  import Catalog
  import Paths

  const Descriptor := Catalog.StreamDescriptor(
    name := Some("issue_events"),
    path := Paths.IssueEvents,
    primaryKeys := Some(["id"]),
    replicationKey := Some("created_at"),
    partitionKeys := Some(["repo", "org"]),
    parent := Some(Catalog.Repository),
    ignoreParentReplicationKey := false,
    toleratedHttpErrors := {})

  /** `get_records`: no rows when the `events` hint is zero, else the runtime's fetch. */
  function Records(context: Option<Object>, fetch: Option<Object> -> seq<Object>): (rows: seq<Object>)
    ensures ZeroHint(context, "events") ==> rows == []
    ensures !ZeroHint(context, "events") ==> rows == fetch(context)
  {
    SkipWhenZero("events", context, fetch)
  }

  /** A row `post_process` accepts: a dict `issue` holding a `url` and a `number` that
      `int` can convert. */
  predicate IsEventRow(row: Object)
  {
    && "issue" in row && row["issue"].Obj?
    && "number" in row["issue"].fields && "url" in row["issue"].fields
    && IntOf(row["issue"].fields["number"]).Ok?
  }

  /** `after` is `row` with the issue's number (as an int) and url moved to the top level
      as `issue_number` and `issue_url`; every other field is left as it was. */
  ghost predicate Hoisted(row: Object, after: Object)
  {
    && IsEventRow(row)
    && var issue := row["issue"].fields;
    && after.Keys == row.Keys + {"issue_number", "issue_url"}
    && after["issue_number"] == Int(IntOf(issue["number"]).value)
    && after["issue_url"] == issue["url"]
    && after["issue"] == Obj(issue - {"number", "url"})
    && forall k :: k in row && k != "issue" && k != "issue_number" && k != "issue_url" ==> after[k] == row[k]
  }

  /** `post_process` on the row's contents: pop `issue.number`, convert it, store it as
      `issue_number`, then pop `issue.url` and store it as `issue_url`. Each pop changes the
      nested dict at once, so a later failure leaves the earlier changes in the row. */
  function Processed(row: Object): (m: Mutation)
    ensures m.raised.None? <==> IsEventRow(row)
    ensures m.raised.None? ==> Hoisted(row, m.after)
    ensures "issue" !in row ==> m == Mutation(Some(KeyError("issue")), row)
    ensures "issue" in row && row["issue"].List? ==> m == Mutation(Some(TypeError), row)
    ensures "issue" in row && !row["issue"].Obj? && !row["issue"].List? ==> m == Mutation(Some(AttributeError), row)
    ensures "issue" in row && row["issue"].Obj? && "number" !in row["issue"].fields ==>
      m == Mutation(Some(KeyError("number")), row)
    ensures "issue" in row && row["issue"].Obj? && "number" in row["issue"].fields && IntOf(row["issue"].fields["number"]).Err? ==>
      m == Mutation(Some(IntOf(row["issue"].fields["number"]).error), row["issue" := Obj(row["issue"].fields - {"number"})])
    ensures "issue" in row && row["issue"].Obj? && "number" in row["issue"].fields && IntOf(row["issue"].fields["number"]).Ok?
            && "url" !in row["issue"].fields ==>
      && m.raised == Some(KeyError("url"))
      && m.after == row["issue" := Obj(row["issue"].fields - {"number"})]["issue_number" := Int(IntOf(row["issue"].fields["number"]).value)]
  {
    if "issue" !in row then Mutation(Some(KeyError("issue")), row)
    else
      match Pop(row["issue"], "number")
      case Err(e) => Mutation(Some(e), row)
      case Ok((number, issue)) =>
        var popped := row["issue" := issue];
        match IntOf(number)
        case Err(e) => Mutation(Some(e), popped)
        case Ok(n) =>
          var numbered := popped["issue_number" := Int(n)];
          match Pop(numbered["issue"], "url")
          case Err(e) => Mutation(Some(e), numbered)
          case Ok((url, rest)) => Mutation(None, numbered["issue" := rest]["issue_url" := url])
  }

  /** The hook: updates the row in place and returns that same row. */
  method PostProcess(row: Dict) returns (r: Result<Dict>)
    modifies row
    ensures var m := Processed(old(row.items));
      && row.items == m.after
      && (m.raised.None? ==> r.Ok? && r.value == row)
      && (m.raised.Some? ==> r.Err? && r.error == m.raised.value)
  {
    if "issue" !in row.items {
      return Err(KeyError("issue"));
    }
    var number := Pop(row.items["issue"], "number");
    if number.Err? {
      return Err(number.error);
    }
    row.Assign("issue", number.value.1);
    var n := IntOf(number.value.0);
    if n.Err? {
      return Err(n.error);
    }
    row.Assign("issue_number", Int(n.value));
    var url := Pop(row.items["issue"], "url");
    if url.Err? {
      return Err(url.error);
    }
    row.Assign("issue", url.value.1);
    row.Assign("issue_url", url.value.0);
    r := Ok(row);
  }

  /** Moving the two fields back into `issue`: the inverse of `post_process`. */
  function Restored(row: Object): Object
    requires "issue" in row && row["issue"].Obj? && "issue_number" in row && "issue_url" in row
  {
    var issue := row["issue"].fields["number" := row["issue_number"]]["url" := row["issue_url"]];
    (row - {"issue_number", "issue_url"})["issue" := Obj(issue)]
  }

  /** No information is lost: on a row whose issue number is already an int and which has
      no top-level `issue_number` or `issue_url`, restoring the processed row gives the row. */
  lemma RestoredUndoesProcessed(row: Object)
    requires IsEventRow(row) && row["issue"].fields["number"].Int?
    requires "issue_number" !in row && "issue_url" !in row
    ensures Processed(row).raised.None?
    ensures Restored(Processed(row).after) == row
  {
    var after := Processed(row).after;
    var issue := row["issue"].fields;
    var back := Restored(after);
    assert back["issue"] == Obj(issue) by {
      assert (issue - {"number", "url"})["number" := issue["number"]]["url" := issue["url"]] == issue;
    }
    assert back.Keys == row.Keys;
  }

  /** `post_process` is not idempotent: on a processed row the second call finds no
      `issue.number` and raises KeyError before changing anything. */
  lemma NotIdempotent(row: Object)
    requires Processed(row).raised.None?
    ensures Processed(Processed(row).after) == Mutation(Some(KeyError("number")), Processed(row).after)
  {
  }
}
