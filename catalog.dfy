/** The static description of each stream: what the runtime reads from a stream class's
    attributes to decide how to request it, how to key its state, and what feeds it. */
module Catalog {

  import opened Wrappers
  import opened PathTemplate

  /** One identifier per stream class of the tap. */
  datatype StreamId =
    | Repository
    | Issues
    | IssueComments
    | PullRequests
    | PullRequestFiles
    | Commits
    | IssueEvents
    | Stargazers
    | Readme
    | CommunityProfile

  /** A stream's class attributes; None stands for an attribute the class does not set. */
  datatype StreamDescriptor = StreamDescriptor(
    name: Option<string>,
    path: Template,
    primaryKeys: Option<seq<string>>,
    replicationKey: Option<string>,
    partitionKeys: Option<seq<string>>,
    parent: Option<StreamId>,
    ignoreParentReplicationKey: bool,
    toleratedHttpErrors: set<int>)

  /** The request path as the class spells it. */
  function PathString(d: StreamDescriptor): string
  {
    Render(d.path)
  }

  /** The declared partitioning keys, as a set; empty when none are declared. */
  function PartitionKeySet(d: StreamDescriptor): (ks: set<string>)
    ensures d.partitionKeys.None? ==> ks == {}
    ensures d.partitionKeys.Some? ==> forall k :: k in ks <==> k in d.partitionKeys.value
  {
    if d.partitionKeys.None? then {} else set k | k in d.partitionKeys.value
  }
}
