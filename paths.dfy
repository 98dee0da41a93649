/** The request path of every stream, as its class spells it, with the placeholders the
    runtime must fill from the partition's context. */
module Paths {

  import opened PathTemplate

  /** "/repos/{org}/{repo}" followed by `rest`: every path below a repository. */
  function UnderRepo(rest: Template): Template
  {
    Text("/repos/", Hole("org", Text("/", Hole("repo", rest))))
  }

  const SearchRepositories := Text("/search/repositories", End)
  const Issues := UnderRepo(Text("/issues", End))
  const IssueComments := UnderRepo(Text("/issues/", Hole("issue_number", Text("/comments", End))))
  const Pulls := UnderRepo(Text("/pulls", End))
  const PullFiles := UnderRepo(Text("/pulls/", Hole("pull_number", Text("/files", End))))
  const Commits := UnderRepo(Text("/commits", End))
  const IssueEvents := UnderRepo(Text("/issues/events", End))
  const Stargazers := UnderRepo(Text("/stargazers", End))
  const Readme := UnderRepo(Text("/readme", End))
  const CommunityProfile := UnderRepo(Text("/community/profile", End))

  lemma UnderRepoRender(rest: Template)
    ensures Render(UnderRepo(rest)) == "/repos/{org}/{repo}" + Render(rest)
  {
    var r := Render(rest);
    assert Render(Hole("repo", rest)) == "{repo}" + r;
    assert Render(Text("/", Hole("repo", rest))) == "/{repo}" + r;
    assert Render(Hole("org", Text("/", Hole("repo", rest)))) == "{org}/{repo}" + r;
  }

  lemma UnderRepoPlaceholders(rest: Template)
    requires WellFormed(rest)
    ensures Placeholders(Render(UnderRepo(rest))) == {"org", "repo"} + Names(rest)
  {
    PlaceholdersOfRender(UnderRepo(rest));
  }

  /** A repository-level path: a literal suffix after "/repos/{org}/{repo}". */
  lemma {:induction false} SuffixPath(suffix: string, spelled: string)
    requires NoBraces(suffix) && spelled == "/repos/{org}/{repo}" + suffix
    ensures Render(UnderRepo(Text(suffix, End))) == spelled
    ensures Placeholders(spelled) == {"org", "repo"}
  {
    UnderRepoRender(Text(suffix, End));
    assert Render(Text(suffix, End)) == suffix;
    UnderRepoPlaceholders(Text(suffix, End));
  }

  /** A path with one more placeholder below the repository: `mid`, `{hole}`, `tail`. */
  lemma {:induction false} NestedPath(mid: string, hole: string, tail: string, spelled: string)
    requires NoBraces(mid) && NoBraces(hole) && NoBraces(tail)
    requires spelled == "/repos/{org}/{repo}" + mid + "{" + hole + "}" + tail
    ensures Render(UnderRepo(Text(mid, Hole(hole, Text(tail, End))))) == spelled
    ensures Placeholders(spelled) == {"org", "repo", hole}
  {
    var rest := Text(mid, Hole(hole, Text(tail, End)));
    UnderRepoRender(rest);
    assert Render(Text(tail, End)) == tail;
    assert Render(rest) == mid + "{" + hole + "}" + tail;
    assert WellFormed(Text(tail, End));
    assert WellFormed(Hole(hole, Text(tail, End)));
    assert Names(Text(tail, End)) == {};
    assert Names(Hole(hole, Text(tail, End))) == {hole};
    assert Names(rest) == {hole};
    UnderRepoPlaceholders(rest);
  }

  lemma SearchRepositoriesSpelling()
    ensures Render(SearchRepositories) == "/search/repositories"
    ensures Placeholders(Render(SearchRepositories)) == {}
  {
    assert WellFormed(SearchRepositories);
    PlaceholdersOfRender(SearchRepositories);
  }

  lemma IssuesSpelling()
    ensures Render(Issues) == "/repos/{org}/{repo}/issues"
    ensures Placeholders(Render(Issues)) == {"org", "repo"}
  {
    SuffixPath("/issues", "/repos/{org}/{repo}/issues");
  }

  lemma IssueCommentsSpelling()
    ensures Render(IssueComments) == "/repos/{org}/{repo}/issues/{issue_number}/comments"
    ensures Placeholders(Render(IssueComments)) == {"org", "repo", "issue_number"}
  {
    var head := "/repos/{org}/{repo}" + "/issues/";
    assert head == "/repos/{org}/{repo}/issues/";
    var hole := head + "{" + "issue_number" + "}";
    assert hole == "/repos/{org}/{repo}/issues/{issue_number}";
    assert hole + "/comments" == "/repos/{org}/{repo}/issues/{issue_number}/comments";
    NestedPath("/issues/", "issue_number", "/comments", "/repos/{org}/{repo}/issues/{issue_number}/comments");
  }

  lemma PullsSpelling()
    ensures Render(Pulls) == "/repos/{org}/{repo}/pulls"
    ensures Placeholders(Render(Pulls)) == {"org", "repo"}
  {
    SuffixPath("/pulls", "/repos/{org}/{repo}/pulls");
  }

  lemma PullFilesSpelling()
    ensures Render(PullFiles) == "/repos/{org}/{repo}/pulls/{pull_number}/files"
    ensures Placeholders(Render(PullFiles)) == {"org", "repo", "pull_number"}
  {
    var head := "/repos/{org}/{repo}" + "/pulls/";
    assert head == "/repos/{org}/{repo}/pulls/";
    var hole := head + "{" + "pull_number" + "}";
    assert hole == "/repos/{org}/{repo}/pulls/{pull_number}";
    assert hole + "/files" == "/repos/{org}/{repo}/pulls/{pull_number}/files";
    NestedPath("/pulls/", "pull_number", "/files", "/repos/{org}/{repo}/pulls/{pull_number}/files");
  }

  lemma CommitsSpelling()
    ensures Render(Commits) == "/repos/{org}/{repo}/commits"
    ensures Placeholders(Render(Commits)) == {"org", "repo"}
  {
    SuffixPath("/commits", "/repos/{org}/{repo}/commits");
  }

  lemma IssueEventsSpelling()
    ensures Render(IssueEvents) == "/repos/{org}/{repo}/issues/events"
    ensures Placeholders(Render(IssueEvents)) == {"org", "repo"}
  {
    SuffixPath("/issues/events", "/repos/{org}/{repo}/issues/events");
  }

  lemma StargazersSpelling()
    ensures Render(Stargazers) == "/repos/{org}/{repo}/stargazers"
    ensures Placeholders(Render(Stargazers)) == {"org", "repo"}
  {
    SuffixPath("/stargazers", "/repos/{org}/{repo}/stargazers");
  }

  lemma ReadmeSpelling()
    ensures Render(Readme) == "/repos/{org}/{repo}/readme"
    ensures Placeholders(Render(Readme)) == {"org", "repo"}
  {
    SuffixPath("/readme", "/repos/{org}/{repo}/readme");
  }

  lemma CommunityProfileSpelling()
    ensures Render(CommunityProfile) == "/repos/{org}/{repo}/community/profile"
    ensures Placeholders(Render(CommunityProfile)) == {"org", "repo"}
  {
    SuffixPath("/community/profile", "/repos/{org}/{repo}/community/profile");
  }
}
