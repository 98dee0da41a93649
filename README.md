# tap-github stream hooks

A model of the per-stream behaviour of tap-github, a Singer tap that reads GitHub's REST
API. A stream class declares its request path, its keys, its replication key and its
parent stream. It may also override a few hooks of the Singer SDK runtime:

- `get_url_params`
- `http_headers`
- `get_child_context`
- `get_records`
- `post_process`

The model covers the streams of `tap_github/streams.py` (repository search, issues, issue
comments) and the streams in `tap_github/streams/`: pull requests, issue events, commits,
stargazers, readme, community profile and pull request files.

Each stream's class attributes become a `Catalog.StreamDescriptor` value. Request paths are
`PathTemplate.Template` values. Their rendering is proved to spell the class's path string,
and a parser reads the `{name}` placeholders back from that string.

A hook that updates a Python dict in place (URL parameters, headers, a row, the inbound
context) is a method that takes a `PyDict.Dict`, whose `Assign` writes one key. Each such
method is proved against a pure function on the dict's contents. Where the Python code
raises after a first write, the function returns a `Json.Mutation`, which keeps the
exception together with the contents left behind. Python's exceptions (KeyError,
TypeError, AttributeError, ValueError, AssertionError) are modelled as `Json.Error`
values. `int()` on strings is modelled in `IntText`.

`Graph` puts the streams together:

- It sets out the parent-to-child graph.
- It follows the context down from the root: the root has no context, and each parent
  record is passed through its stream's `get_child_context`.
- It proves that this context fills every path placeholder and every partitioning key of
  each stream, two levels deep.

Calls into the SDK runtime that the tap does not show are inputs of the model:

- `super().get_url_params` and `super().http_headers` are the `base` or `params` dict.
- `get_starting_timestamp` is the `since` argument.
- `super().get_records` is the `fetch` function.

## Model

| member | source | states |
|---|---|---|
| Streams.RepositoryUrlParams | tap_github/streams.py:28-34 | the parameters are the runtime's with only `q` set, to the stream's query (null when none was given) |
| Streams.GetRepositoryUrlParams | tap_github/streams.py:32-34 | updates the runtime's dict in place to exactly `RepositoryUrlParams` of its old contents and returns that same dict |
| Streams.RepositoryChildContext | tap_github/streams.py:36-47 | succeeds iff the record has a dict `owner` with `login`, and a `name`. The result then has exactly the keys `org` and `repo`, taken from those fields, and the inbound context plays no part. Errors: a missing key raises KeyError naming it, and a non-dict `owner` raises TypeError |
| Streams.IssuesChildContext | tap_github/streams.py:111-116 | succeeds iff the record has `number` and `comments`. The context then gains exactly `issue_number` and `comments` and keeps every other key. A missing `number` leaves it unchanged. A missing `comments` raises after `issue_number` has been written, and that write stays |
| Streams.SharedContextRewritten | tap_github/streams.py:114-116 | the context dict rewritten for one issue gives the next issue the same child context as the untouched inbound context would |
| Streams.GetIssuesChildContext | tap_github/streams.py:104-116 | no context raises ValueError. Otherwise the caller's dict is updated in place to `IssuesChildContext`'s contents, even when the hook raises, and on success that same dict is returned |
| Streams.IssuesHeaders | tap_github/streams.py:125-127 | the runtime's headers with only `Accept` set to the reactions preview media type |
| Streams.IssuesHttpHeaders | tap_github/streams.py:118-127 | updates the runtime's headers in place to `IssuesHeaders` and returns them |
| Streams.IssueCommentsRecords | tap_github/streams.py:156-165 | no rows when the context is non-empty and its `comments` is 0 (or False); otherwise exactly the runtime's rows |
| Streams.IssueCommentsUrlParams | tap_github/streams.py:167-176 | with a starting timestamp, only `since` is set, to that timestamp; without one, the parameters are unchanged |
| Streams.GetIssueCommentsUrlParams | tap_github/streams.py:171-176 | updates the runtime's dict in place to `IssueCommentsUrlParams` of its old contents |
| PullRequestsStream.UrlParams | tap_github/streams/pull_requests.py:20-28 | raises AssertionError iff no context is given; otherwise only `state` is set, to "all" |
| PullRequestsStream.GetUrlParams | tap_github/streams/pull_requests.py:24-28 | on no context raises before the dict is touched; otherwise updates it in place to `UrlParams` and returns it |
| PullRequestsStream.ChildContext | tap_github/streams/pull_requests.py:30-40 | succeeds iff the record has `number`, and otherwise raises KeyError("number"). The result is the runtime's default child context with only `pull_number` set to the record's number, which wins over a key of that name |
| PullRequestsStream.GetChildContext | tap_github/streams/pull_requests.py:35-40 | returns a freshly allocated dict holding `ChildContext`; the inbound context is not modified |
| PullRequestsStream.Headers | tap_github/streams/pull_requests.py:42-51 | the runtime's headers with only `Accept` set to the reactions preview media type |
| PullRequestsStream.HttpHeaders | tap_github/streams/pull_requests.py:49-51 | updates the runtime's headers in place to `Headers` and returns them |
| IssueEventsStream.Records | tap_github/streams/issue_events.py:24-33 | no rows when the context is non-empty and its `events` is 0 (or False); otherwise exactly the runtime's rows |
| IssueEventsStream.Processed | tap_github/streams/issue_events.py:35-38 | succeeds iff `issue` is a dict holding `url` and a `number` that `int` accepts. `issue_number` and `issue_url` then hold those values, both are removed from `issue`, and nothing else changes. A missing key raises KeyError, a list `issue` TypeError and any other non-dict `issue` AttributeError, and a number `int` rejects raises its error; each failure keeps the pops done before it |
| IssueEventsStream.PostProcess | tap_github/streams/issue_events.py:35-38 | updates the row in place to `Processed`'s contents, on failure too, and on success returns the same row |
| IssueEventsStream.RestoredUndoesProcessed | tap_github/streams/issue_events.py:36-37 | nothing is lost: putting the two hoisted fields back into `issue` restores the original row, when the number was already an int |
| IssueEventsStream.NotIdempotent | tap_github/streams/issue_events.py:36 | a second `post_process` on a processed row raises KeyError("number") and changes nothing |
| CommitsStream.DigDate | tap_github/streams/commits.py:30 | reading `row["commit"]["committer"]["date"]` succeeds iff those nested dicts and keys are present; otherwise it raises KeyError for the first missing key, or TypeError when `commit` or `committer` is not a dict |
| CommitsStream.Processed | tap_github/streams/commits.py:24-31 | succeeds iff the committer date is present. The row then gains only `commit_timestamp`, equal to that date. Otherwise it raises, before anything is written, KeyError for the first missing key or TypeError for a non-dict `commit` or `committer` |
| CommitsStream.PostProcess | tap_github/streams/commits.py:30-31 | updates the row in place to `Processed`, leaves it unchanged on failure, and returns the same row |
| CommitsStream.DateIsCopied | tap_github/streams/commits.py:30 | the date is copied: `commit` is left as it was |
| CommitsStream.CarriesReplicationKey | tap_github/streams/commits.py:19 | every processed row holds the declared replication key `commit_timestamp` |
| CommitsStream.Idempotent | tap_github/streams/commits.py:24-31 | processing an already processed row gives the same row |
| StargazersStream.Headers | tap_github/streams/star_gazers.py:19-28 | the runtime's headers with only `Accept` set to the star media type |
| StargazersStream.HttpHeaders | tap_github/streams/star_gazers.py:26-28 | updates the runtime's headers in place to `Headers` and returns them |
| StargazersStream.DigId | tap_github/streams/star_gazers.py:34 | reading `row["user"]["id"]` succeeds iff `user` is a dict with `id`; otherwise it raises KeyError for the first missing key, or TypeError when `user` is not a dict |
| StargazersStream.Processed | tap_github/streams/star_gazers.py:30-35 | succeeds iff the user id is present. The row then gains only `user_id`, equal to it. Otherwise it raises before writing: KeyError for a missing key, TypeError for a non-dict `user` |
| StargazersStream.PostProcess | tap_github/streams/star_gazers.py:34-35 | updates the row in place to `Processed`, leaves it unchanged on failure, and returns the same row |
| StargazersStream.UserIsKept | tap_github/streams/star_gazers.py:34 | the nested `user` is left intact |
| StargazersStream.Idempotent | tap_github/streams/star_gazers.py:30-35 | processing an already processed row gives the same row |
| Hooks.SkipWhenZero | tap_github/streams.py:161-165 | the shared skip: no rows exactly when the hint fires, and otherwise the fetch |
| Hooks.ZeroHintExactly | tap_github/streams.py:161 | `partition and partition.get(k) == 0` holds exactly when the context has `k` bound to 0 or False |
| Hooks.SkipIsEmptyFetch | tap_github/streams/issue_events.py:29-31 | skip equivalence: when the hint fires, the result equals that of a fetch that finds nothing, whatever the real fetch would return |
| Hooks.Promote | tap_github/streams/commits.py:30 | copying a nested field to a top-level key succeeds iff the nested read does, and sets only that key; on failure it raises the read's exception |
| Hooks.PromoteIdempotent | tap_github/streams/star_gazers.py:34 | promoting twice equals promoting once when the target key is not the path's first step |
| Paths.IssuesSpelling | tap_github/streams.py:98 | the issues path renders to `/repos/{org}/{repo}/issues`, whose placeholders are exactly `org` and `repo` |
| Paths.IssueCommentsSpelling | tap_github/streams.py:149 | the issue comments path renders to its class's string, whose placeholders are exactly `org`, `repo` and `issue_number` |
| Paths.SearchRepositoriesSpelling | tap_github/streams.py:49 | the repository search path has no placeholders |
| Paths.PullsSpelling | tap_github/streams/pull_requests.py:13 | the pull requests path renders to its class's string, with placeholders `org` and `repo` |
| Paths.PullFilesSpelling | tap_github/streams/pull_request_files.py:11 | the pull request files path renders to its class's string, with placeholders `org`, `repo` and `pull_number` |
| Paths.CommitsSpelling | tap_github/streams/commits.py:17 | the commits path renders to its class's string, with placeholders `org` and `repo` |
| Paths.IssueEventsSpelling | tap_github/streams/issue_events.py:17 | the issue events path renders to its class's string, with placeholders `org` and `repo` |
| Paths.StargazersSpelling | tap_github/streams/star_gazers.py:13 | the stargazers path renders to its class's string, with placeholders `org` and `repo` |
| Paths.ReadmeSpelling | tap_github/streams/readme.py:9 | the readme path renders to its class's string, with placeholders `org` and `repo` |
| Paths.CommunityProfileSpelling | tap_github/streams/community_profile.py:11 | the community profile path renders to its class's string, with placeholders `org` and `repo` |
| PathTemplate.PlaceholdersOfRender | tap_github/streams.py:149 | for any well-formed template, the placeholders read back from its rendering are exactly its holes |
| IntText.ParseShow | tap_github/streams/issue_events.py:36 | `int(str(n)) == n` for every integer whose decimal form has at most 4300 digits (beyond that CPython's `str` and `int` both refuse), so an issue number sent as decimal text converts to its value |
| IntText.ParseIgnoresLeadingSpace | tap_github/streams/issue_events.py:36 | `int` reads the same number when whitespace it strips precedes the text |
| IntText.RejectsUnstripped | tap_github/streams/issue_events.py:36 | any character before the digits that `int` neither strips nor reads as a sign (an ASCII separator such as U+001C, a letter, an underscore) makes `int` fail, whatever follows |
| IntText.RejectsLongText | tap_github/streams/issue_events.py:36 | text with more than 4300 digits makes `int` fail, as CPython's default limit does |
| Json.Subscript | tap_github/streams.py:45 | `v[k]` succeeds iff `v` is a dict holding `k`, and then gives that entry |
| Json.Pop | tap_github/streams/issue_events.py:36-37 | `v.pop(k)` succeeds iff `v` is a dict holding `k`, and gives the entry and the dict without `k` |
| Json.IntOf | tap_github/streams/issue_events.py:36 | `int(v)` keeps an int, maps True and False to 1 and 0, gives `IntText.Parse`'s value for a string it accepts and ValueError for one it rejects, and raises TypeError on None, lists and dicts |
| Graph.PartitionKeysArePlaceholders | tap_github/streams/pull_request_files.py:11-15 | for every stream, each declared partitioning key is a placeholder of its path, so the partition can be taken from the context that fills the path |
| Graph.ParentIsShallower | tap_github/streams/pull_request_files.py:13 | the repository stream is the only stream without a parent, and every parent sits exactly one level above its child |
| Graph.Ancestors | tap_github/streams.py:152 | the chain of streams above a stream has the length of its depth |
| Graph.BelowRepository | tap_github/streams.py:44-47 | the context below a repository record is `{org, repo}` |
| Graph.BelowIssue | tap_github/streams.py:114-115 | the context below an issue of a repository is `{org, repo, issue_number, comments}`, with the issue's `comments` |
| Graph.BelowPullRequest | tap_github/streams/pull_requests.py:35-40 | the context below a pull request of a repository is `{org, repo, pull_number}` |
| Graph.ContextCoversPath | tap_github/streams.py:111-116 | for every stream and any ancestor records that carry the fields their hooks read, the propagated context exists and holds every key the stream's path asks for |
| Graph.ContextCompleteness | tap_github/streams/pull_request_files.py:11-15 | for every stream and any ancestor records that carry the fields their hooks read, the propagated context has every placeholder of the stream's path and every partitioning key it declares |
| Graph.CommentsHintDecidesFetch | tap_github/streams.py:161-165 | below an issue with zero comments the comments stream yields no rows, the same as an empty fetch; with any other count it yields exactly the fetch |
| Graph.EventsNeverSkippedBelowRepository | tap_github/streams/issue_events.py:29-33 | below a repository record the context has no `events` key, so the issue events stream always fetches |
| Graph.AcmeWidgetScenario | tap_github/streams.py:44-47 | repository `acme/widget` hands `{org: "acme", repo: "widget"}` down, and an issue of it with `comments` 0 yields no comment rows |

## Left out

- JSON schemas (`schema = th.PropertiesList(...)`): they describe output columns and never affect the hooks.
- The HTTP client, pagination, rate limits, bookmarks and state writes of the SDK runtime. These are not part of this model. Rows come from an abstract `fetch`, and the starting timestamp is an input.
- The page-size constants `MAX_PER_PAGE` and `MAX_RESULTS_LIMIT` are declared as constants only. The client that applies them is not part of this model.
- Tolerating HTTP 404 is recorded in the community profile descriptor. The client code that turns a 404 into zero rows is not part of this model.
- Logging calls in `get_records`: they have no effect on the result.
- Floats in JSON values; `int()` of a float is not modelled.
- IntText.Parse: accepts ASCII digits only. Python's `int` also accepts other Unicode decimal digits.
- IntText.Parse: the 4300-digit limit is CPython's default. A limit changed with `sys.set_int_max_str_digits`, and interpreters older than 3.11 that have no limit, are not modelled.
- Nested dicts are values, so aliasing between a row and its `issue` dict is not captured. `Json.Mutation` records the effect on the row.
- Graph.ContextBelow passes contexts as values. It does not capture that `IssuesStream.get_child_context` (tap_github/streams.py:114-116) writes into the dict the issues stream was synced with, so that every issue's child context is one shared dict. `Streams.SharedContextRewritten` shows that each rewrite replaces the previous one; the order in which the runtime syncs children is not modelled.
- Python's `assert` is taken to be enabled. Under `python -O` the pull request assertion is skipped.
- Hooks.DefaultChildContext: the SDK's own `get_child_context` is not available here. It is modelled on the docstring at tap_github/streams.py:38-40, which says it returns the context when given and the record otherwise.
- tap_github/streams/repository.py is not part of this model. Its `RepositoryStream`, the parent of the streams in `tap_github/streams/`, is taken to behave like the one in tap_github/streams.py.
- `IssueCommentsStream` declares `partition_keys` (tap_github/streams.py:153) where the other streams declare `state_partitioning_keys`. Both are read here as the stream's partitioning keys.
- The issue events `events` hint is never supplied by a parent shown here (`Graph.EventsNeverSkippedBelowRepository`). The skip is modelled as written.
- Name and query of the repository search stream are given at construction. Its descriptor leaves the name unset, and the query is an argument of `RepositoryUrlParams`.
