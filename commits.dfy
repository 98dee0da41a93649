/** The hooks of tap_github/streams/commits.py: the post-processor that copies the
    committer's date to the top-level replication key `commit_timestamp`. */
module CommitsStream {

  import opened Wrappers
  import opened Json
  import opened PyDict
  import opened Hooks
  import Catalog
  import Paths

  const Descriptor := Catalog.StreamDescriptor(
    name := Some("commits"),
    path := Paths.Commits,
    primaryKeys := Some(["node_id"]),
    replicationKey := Some("commit_timestamp"),
    partitionKeys := Some(["repo", "org"]),
    parent := Some(Catalog.Repository),
    ignoreParentReplicationKey := true,
    toleratedHttpErrors := {})

  /** Where the timestamp is read: `row["commit"]["committer"]["date"]`. */
  const DatePath := ["commit", "committer", "date"]

  /** A row `post_process` accepts: a dict `commit` holding a dict `committer` with a `date`. */
  predicate IsCommitRow(row: Object)
  {
    && "commit" in row && row["commit"].Obj?
    && "committer" in row["commit"].fields && row["commit"].fields["committer"].Obj?
    && "date" in row["commit"].fields["committer"].fields
  }

  function CommitDate(row: Object): Value
    requires IsCommitRow(row)
  {
    row["commit"].fields["committer"].fields["date"]
  }

  lemma DigDate(row: Object)
    ensures Dig(Obj(row), DatePath).Ok? <==> IsCommitRow(row)
    ensures IsCommitRow(row) ==> Dig(Obj(row), DatePath).value == CommitDate(row)
    ensures "commit" !in row ==> Dig(Obj(row), DatePath) == Err(KeyError("commit"))
    ensures "commit" in row && !row["commit"].Obj? ==> Dig(Obj(row), DatePath) == Err(TypeError)
    ensures "commit" in row && row["commit"].Obj? && "committer" in row["commit"].fields
            && !row["commit"].fields["committer"].Obj? ==>
      Dig(Obj(row), DatePath) == Err(TypeError)
    ensures "commit" in row && row["commit"].Obj? && "committer" !in row["commit"].fields ==>
      Dig(Obj(row), DatePath) == Err(KeyError("committer"))
    ensures "commit" in row && row["commit"].Obj? && "committer" in row["commit"].fields
            && row["commit"].fields["committer"].Obj? && "date" !in row["commit"].fields["committer"].fields ==>
      Dig(Obj(row), DatePath) == Err(KeyError("date"))
  {
    assert DatePath[1..] == ["committer", "date"];
    assert ["committer", "date"][1..] == ["date"];
    assert ["date"][1..] == [];
    if "commit" in row {
      var c := row["commit"];
      assert Dig(Obj(row), DatePath) == Dig(c, ["committer", "date"]);
      if c.Obj? && "committer" in c.fields {
        var m := c.fields["committer"];
        assert Dig(c, ["committer", "date"]) == Dig(m, ["date"]);
        if m.Obj? && "date" in m.fields {
          assert Dig(m, ["date"]) == Dig(m.fields["date"], []);
        }
      }
    }
  }

  /** `post_process` on the row's contents: the committer's date is read, then written to
      `commit_timestamp`; a missing field raises before anything is written. */
  function Processed(row: Object): (r: Result<Object>)
    ensures r.Ok? <==> IsCommitRow(row)
    ensures r.Ok? ==> SetsOnly(row, r.value, "commit_timestamp", CommitDate(row))
    ensures "commit" !in row ==> r == Err(KeyError("commit"))
    ensures "commit" in row && !row["commit"].Obj? ==> r == Err(TypeError)
    ensures "commit" in row && row["commit"].Obj? && "committer" in row["commit"].fields
            && !row["commit"].fields["committer"].Obj? ==>
      r == Err(TypeError)
    ensures "commit" in row && row["commit"].Obj? && "committer" !in row["commit"].fields ==>
      r == Err(KeyError("committer"))
    ensures "commit" in row && row["commit"].Obj? && "committer" in row["commit"].fields
            && row["commit"].fields["committer"].Obj? && "date" !in row["commit"].fields["committer"].fields ==>
      r == Err(KeyError("date"))
  {
    DigDate(row);
    Promote(row, DatePath, "commit_timestamp")
  }

  /** The hook: writes into the row and returns that same row. */
  method PostProcess(row: Dict) returns (r: Result<Dict>)
    modifies row
    ensures var p := Processed(old(row.items));
      && (p.Ok? ==> row.items == p.value && r.Ok? && r.value == row)
      && (p.Err? ==> row.items == old(row.items) && r.Err? && r.error == p.error)
  {
    DigDate(row.items);
    var date := Dig(Obj(row.items), DatePath);
    if date.Err? {
      return Err(date.error);
    }
    row.Assign("commit_timestamp", date.value);
    r := Ok(row);
  }

  /** The date is copied, not moved: `commit` itself is unchanged. */
  lemma DateIsCopied(row: Object)
    requires IsCommitRow(row)
    ensures Processed(row).value["commit"] == row["commit"]
    ensures CommitDate(Processed(row).value) == CommitDate(row)
  {
  }

  /** Every processed row carries the declared replication key. */
  lemma CarriesReplicationKey(row: Object)
    requires Processed(row).Ok?
    ensures Descriptor.replicationKey.Some? && Descriptor.replicationKey.value in Processed(row).value
  {
  }

  /** Processing a processed row changes nothing. */
  lemma Idempotent(row: Object)
    requires Processed(row).Ok?
    ensures Processed(Processed(row).value) == Processed(row)
  {
    PromoteIdempotent(row, DatePath, "commit_timestamp");
  }
}
