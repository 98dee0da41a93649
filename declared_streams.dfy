/** The streams whose classes only declare attributes and override no hook:
    tap_github/streams/readme.py, tap_github/streams/community_profile.py and
    tap_github/streams/pull_request_files.py. */
module DeclaredStreams {

  import opened Wrappers
  import Catalog
  import Paths

  const ReadmeDescriptor := Catalog.StreamDescriptor(
    name := Some("readme"),
    path := Paths.Readme,
    primaryKeys := Some(["repo", "org"]),
    replicationKey := None,
    partitionKeys := Some(["repo", "org"]),
    parent := Some(Catalog.Repository),
    ignoreParentReplicationKey := false,
    toleratedHttpErrors := {})

  /** A repository without a community profile answers 404, which counts as no data. */
  const CommunityProfileDescriptor := Catalog.StreamDescriptor(
    name := Some("community_profile"),
    path := Paths.CommunityProfile,
    primaryKeys := Some(["repo", "org"]),
    replicationKey := None,
    partitionKeys := Some(["repo", "org"]),
    parent := Some(Catalog.Repository),
    ignoreParentReplicationKey := false,
    toleratedHttpErrors := {404})

  /** The files of one pull request: the grandchild of the repository stream. */
  const PullRequestFilesDescriptor := Catalog.StreamDescriptor(
    name := Some("pull_request_files"),
    path := Paths.PullFiles,
    primaryKeys := Some(["filename"]),
    replicationKey := None,
    partitionKeys := Some(["repo", "org", "pull_number"]),
    parent := Some(Catalog.PullRequests),
    ignoreParentReplicationKey := false,
    toleratedHttpErrors := {})
}
