/** The parent-to-child graph of the streams: which stream feeds which, the context each
    parent record hands down through its stream's `get_child_context`, and the proof that
    this context always fills the child's path and partition keys, two levels deep. */
module Graph {

  import opened Wrappers
  import opened Json
  import opened Hooks
  import opened Catalog
  import opened PathTemplate
  import Paths
  import Streams
  import PullRequestsStream
  import IssueEventsStream
  import CommitsStream
  import StargazersStream
  import DeclaredStreams

  function DescriptorOf(s: StreamId): StreamDescriptor
  {
    match s
    case Repository => Streams.RepositoryDescriptor
    case Issues => Streams.IssuesDescriptor
    case IssueComments => Streams.IssueCommentsDescriptor
    case PullRequests => PullRequestsStream.Descriptor
    case PullRequestFiles => DeclaredStreams.PullRequestFilesDescriptor
    case Commits => CommitsStream.Descriptor
    case IssueEvents => IssueEventsStream.Descriptor
    case Stargazers => StargazersStream.Descriptor
    case Readme => DeclaredStreams.ReadmeDescriptor
    case CommunityProfile => DeclaredStreams.CommunityProfileDescriptor
  }

  /** How far below the root a stream is synced. */
  function Depth(s: StreamId): nat
  {
    match s
    case Repository => 0
    case IssueComments => 2
    case PullRequestFiles => 2
    case _ => 1
  }

  /** The repository stream is the only root, and each parent sits one level higher. */
  lemma ParentIsShallower(s: StreamId)
    ensures DescriptorOf(s).parent.None? <==> s == Repository
    ensures DescriptorOf(s).parent.Some? ==> Depth(DescriptorOf(s).parent.value) + 1 == Depth(s)
  {
    match s
    case Repository =>
    case Issues =>
    case IssueComments =>
    case PullRequests =>
    case PullRequestFiles =>
    case Commits =>
    case IssueEvents =>
    case Stargazers =>
    case Readme =>
    case CommunityProfile =>
  }

  /** The streams from the root down to the parent of `s`. */
  function Ancestors(s: StreamId): (chain: seq<StreamId>)
    ensures |chain| == Depth(s)
    decreases Depth(s)
  {
    ParentIsShallower(s);
    match DescriptorOf(s).parent
    case None => []
    case Some(p) => Ancestors(p) + [p]
  }

  /** The runtime calling stream `s`'s `get_child_context` with one of its records. */
  function ChildContext(s: StreamId, record: Object, context: Option<Object>): Result<Object>
  {
    match s
    case Repository => Streams.RepositoryChildContext(record, context)
    case Issues =>
      if context.None? then Err(ValueError)
      else
        var m := Streams.IssuesChildContext(record, context.value);
        if m.raised.None? then Ok(m.after) else Err(m.raised.value)
    case PullRequests => PullRequestsStream.ChildContext(record, context)
    case _ => Ok(DefaultChildContext(record, context))
  }

  /** The context handed to the stream below `chain`, one record of each stream of the
      chain in turn; the root is synced with no context. */
  function ContextBelow(chain: seq<StreamId>, records: seq<Object>): Result<Option<Object>>
    requires |chain| == |records|
  {
    if chain == [] then Ok(None)
    else
      match ContextBelow(chain[..|chain| - 1], records[..|records| - 1])
      case Err(e) => Err(e)
      case Ok(inbound) =>
        match ChildContext(chain[|chain| - 1], records[|records| - 1], inbound)
        case Err(e) => Err(e)
        case Ok(c) => Ok(Some(c))
  }

  /** The record carries every field its stream's `get_child_context` reads. */
  predicate Feeds(s: StreamId, record: Object)
  {
    match s
    case Repository => Streams.IsRepositoryRecord(record)
    case Issues => "number" in record && "comments" in record
    case PullRequests => "number" in record
    case _ => true
  }

  function KeysOf(context: Option<Object>): set<string>
  {
    if context.None? then {} else context.value.Keys
  }

  /** Stream `s` can be synced under `context`: every placeholder of its path and every
      partitioning key it declares is a key of the context. */
  predicate Serves(s: StreamId, context: Option<Object>)
  {
    && Placeholders(PathString(DescriptorOf(s))) <= KeysOf(context)
    && PartitionKeySet(DescriptorOf(s)) <= KeysOf(context)
  }

  /** Below a repository record the context is exactly `{org, repo}`. */
  lemma BelowRepository(repo: Object)
    requires Feeds(Repository, repo)
    ensures ContextBelow([Repository], [repo]).Ok?
    ensures ContextBelow([Repository], [repo]).value == Some(Streams.RepositoryChildContext(repo, None).value)
    ensures KeysOf(ContextBelow([Repository], [repo]).value) == {"org", "repo"}
  {
    assert [Repository][..0] == [] && [repo][..0] == [];
  }

  /** Below an issue of a repository: `{org, repo, issue_number, comments}`. */
  lemma BelowIssue(repo: Object, issue: Object)
    requires Feeds(Repository, repo) && Feeds(Issues, issue)
    ensures ContextBelow([Repository, Issues], [repo, issue]).Ok?
    ensures var c := ContextBelow([Repository, Issues], [repo, issue]).value;
      && c.Some? && c.value.Keys == {"org", "repo", "issue_number", "comments"}
      && c.value["comments"] == issue["comments"]
  {
    BelowRepository(repo);
    assert [Repository, Issues][..1] == [Repository] && [repo, issue][..1] == [repo];
  }

  /** Below a pull request of a repository: `{org, repo, pull_number}`. */
  lemma BelowPullRequest(repo: Object, pull: Object)
    requires Feeds(Repository, repo) && Feeds(PullRequests, pull)
    ensures ContextBelow([Repository, PullRequests], [repo, pull]).Ok?
    ensures KeysOf(ContextBelow([Repository, PullRequests], [repo, pull]).value) == {"org", "repo", "pull_number"}
  {
    BelowRepository(repo);
    assert [Repository, PullRequests][..1] == [Repository] && [repo, pull][..1] == [repo];
  }

  /** The keys a stream's path asks the context for. */
  function PathKeys(s: StreamId): set<string>
  {
    match s
    case Repository => {}
    case IssueComments => {"org", "repo", "issue_number"}
    case PullRequestFiles => {"org", "repo", "pull_number"}
    case _ => {"org", "repo"}
  }

  lemma PathKeysExact(s: StreamId)
    ensures Placeholders(PathString(DescriptorOf(s))) == PathKeys(s)
  {
    match s
    case Repository => Paths.SearchRepositoriesSpelling();
    case Issues => Paths.IssuesSpelling();
    case IssueComments => Paths.IssueCommentsSpelling();
    case PullRequests => Paths.PullsSpelling();
    case PullRequestFiles => Paths.PullFilesSpelling();
    case Commits => Paths.CommitsSpelling();
    case IssueEvents => Paths.IssueEventsSpelling();
    case Stargazers => Paths.StargazersSpelling();
    case Readme => Paths.ReadmeSpelling();
    case CommunityProfile => Paths.CommunityProfileSpelling();
  }

  lemma PartitionKeysWithin(s: StreamId)
    ensures PartitionKeySet(DescriptorOf(s)) <= PathKeys(s)
  {
  }

  /** The ancestors of every stream, spelled out. */
  lemma AncestorsSpelled(s: StreamId)
    ensures s == Repository ==> Ancestors(s) == []
    ensures s == IssueComments ==> Ancestors(s) == [Repository, Issues]
    ensures s == PullRequestFiles ==> Ancestors(s) == [Repository, PullRequests]
    ensures Depth(s) == 1 ==> Ancestors(s) == [Repository]
  {
    ParentIsShallower(s);
    if s == IssueComments {
      ParentIsShallower(Issues);
    } else if s == PullRequestFiles {
      ParentIsShallower(PullRequests);
    } else if Depth(s) == 1 {
      ParentIsShallower(Repository);
    }
  }

  /** The context below the ancestors of `s` holds every key of `s`'s path. */
  lemma ContextCoversPath(s: StreamId, records: seq<Object>)
    requires |records| == |Ancestors(s)|
    requires forall i :: 0 <= i < |records| ==> Feeds(Ancestors(s)[i], records[i])
    ensures ContextBelow(Ancestors(s), records).Ok?
    ensures PathKeys(s) <= KeysOf(ContextBelow(Ancestors(s), records).value)
  {
    AncestorsSpelled(s);
    if s == Repository {
    } else if s == IssueComments {
      assert Feeds(Repository, records[0]) && Feeds(Issues, records[1]);
      assert records == [records[0], records[1]];
      BelowIssue(records[0], records[1]);
    } else if s == PullRequestFiles {
      assert Feeds(Repository, records[0]) && Feeds(PullRequests, records[1]);
      assert records == [records[0], records[1]];
      BelowPullRequest(records[0], records[1]);
    } else {
      assert Feeds(Repository, records[0]);
      assert records == [records[0]];
      BelowRepository(records[0]);
    }
  }

  /** Context completeness: for every stream and any records of its ancestors that carry
      what their hooks read, the propagated context fills the stream's path placeholders
      and partitioning keys, down to the grandchildren of the repository stream. */
  lemma ContextCompleteness(s: StreamId, records: seq<Object>)
    requires |records| == |Ancestors(s)|
    requires forall i :: 0 <= i < |records| ==> Feeds(Ancestors(s)[i], records[i])
    ensures ContextBelow(Ancestors(s), records).Ok?
    ensures Serves(s, ContextBelow(Ancestors(s), records).value)
  {
    ContextCoversPath(s, records);
    PathKeysExact(s);
    PartitionKeysWithin(s);
  }

  /** Every partitioning key a stream declares is a placeholder of its path, so the key
      values of a partition can always be taken from the context that fills the path. */
  lemma PartitionKeysArePlaceholders(s: StreamId)
    ensures PartitionKeySet(DescriptorOf(s)) <= Placeholders(PathString(DescriptorOf(s)))
  {
    PathKeysExact(s);
    PartitionKeysWithin(s);
  }

  /** Skip equivalence below an issue: a zero `comments` count yields no comment rows,
      the rows a fetch that finds nothing would give, whatever the fetch; any other count
      yields exactly the fetch. */
  lemma CommentsHintDecidesFetch(repo: Object, issue: Object, fetch: Option<Object> -> seq<Object>)
    requires Feeds(Repository, repo) && Feeds(Issues, issue)
    ensures ContextBelow([Repository, Issues], [repo, issue]).Ok?
    ensures var c := ContextBelow([Repository, Issues], [repo, issue]).value;
      && (EqualsZero(issue["comments"]) ==>
            Streams.IssueCommentsRecords(c, fetch) == Streams.IssueCommentsRecords(c, NoRows) == [])
      && (!EqualsZero(issue["comments"]) ==> Streams.IssueCommentsRecords(c, fetch) == fetch(c))
  {
    BelowIssue(repo, issue);
  }

  /** Below the repository stream shown here no context carries an `events` hint, so the
      issue events stream always delegates to the fetch. */
  lemma EventsNeverSkippedBelowRepository(repo: Object, fetch: Option<Object> -> seq<Object>)
    requires Feeds(Repository, repo)
    ensures ContextBelow([Repository], [repo]).Ok?
    ensures var c := ContextBelow([Repository], [repo]).value;
      IssueEventsStream.Records(c, fetch) == fetch(c)
  {
    BelowRepository(repo);
  }

  /** The repository `acme/widget` hands `{org: "acme", repo: "widget"}` to its children,
      and an issue of it with no comments yields no comment rows at all. */
  lemma AcmeWidgetScenario(fetch: Option<Object> -> seq<Object>)
    ensures var repo := map["owner" := Obj(map["login" := Str("acme")]), "name" := Str("widget")];
      ContextBelow([Repository], [repo]) == Ok(Some(map["org" := Str("acme"), "repo" := Str("widget")]))
    ensures var repo := map["owner" := Obj(map["login" := Str("acme")]), "name" := Str("widget")];
      var issue := map["number" := Int(1), "comments" := Int(0)];
      var c := ContextBelow([Repository, Issues], [repo, issue]);
      c.Ok? && Streams.IssueCommentsRecords(c.value, fetch) == []
  {
    var repo := map["owner" := Obj(map["login" := Str("acme")]), "name" := Str("widget")];
    var issue := map["number" := Int(1), "comments" := Int(0)];
    assert Feeds(Repository, repo);
    BelowRepository(repo);
    var expected := map["org" := Str("acme"), "repo" := Str("widget")];
    assert Streams.RepositoryChildContext(repo, None).value == expected;
    CommentsHintDecidesFetch(repo, issue, fetch);
  }
}
