# github-mcp-assistant in Dafny

A model of the GitHub connector for the Model Context Protocol (MCP): the
`GitHubMCPServer` class, which answers MCP `call_tool` requests for nine tools
(list_repositories, get_repository_info, browse_repository, read_file,
search_files, search_code, clone_repository, list_local_repositories,
create_repository), and the pre-commit security check that blocks a commit
when a forbidden configuration file exists or a file holds a GitHub token.

How the model is laid out:

- Each tool's answer is a function of what GitHub, the local file system and
  Git give back. These are values here: a `Remote.Client` whose fields answer
  get_user, get_repos, get_repo, get_contents, search_code and create_repo, and
  a `Remote.LocalFs`.
- A handler yields an `Outcome`: the text of its one `TextContent` block,
  plus the external calls it made, in order. A contract can therefore say
  what a handler never calls, e.g. `create_repo` for a blank name or
  `clone_from` into an existing directory.
- The answer text is built with `result += "...\n"` in the source. Here it is
  a sequence of lines, and `Text.Unlines` turns the lines back into that text.
- The handlers that loop in the source are methods in module `Handlers`, each
  proved equal to the function that specifies it.
- Their properties are lemmas beside those functions, in modules `Listing`,
  `Info`, `Browse`, `Search`, `Clone`, `LocalRepos` and `Create`.
- `Server.GitHubMCPServer` is a class with the one mutable field
  `githubClient`. `HandleCallTool` binds the keyword arguments the way
  CPython binds `**arguments` to the handler's signature.
- The pre-commit script is modelled in `SecretScan` (the two regular
  expressions and `re.finditer`) and `PreCommit` (the scan of the working
  tree, the forbidden files, the missing examples and the exit code).

The error messages copied from the interpreter (`got an unexpected keyword
argument`, `got multiple values for argument`, `missing N required positional
argument(s)`, `'NoneType' object has no attribute 'get'`) are those of
CPython 3.11 and 3.12.

Library behaviour the model writes out:

| module | what it writes out |
|---|---|
| `Text` | Python's `str.strip`, the ASCII and Latin-1 part of `str.lower`, comparison of strings, `"\n".join`, `str.split` and the `:.1f` format of `size / 1024`. The last is computed exactly: round half to even on the tenth. |
| `Sorting` | `sorted(key=...)`: sorted, a permutation, and stable. |
| `Paths` | `pathlib` on POSIX paths: `parts`, `name`, `suffix`, normalisation. |
| `SecretScan` | `re.IGNORECASE` on `[a-zA-Z0-9]`. The case folding lets U+0130, U+0131, U+017F and U+212A match there, and lets `İ`/`ı` match the letter I and the Kelvin sign match K. |

## Model

| member | source | states |
|---|---|---|
| Server.Signature | github_server.py:36-241 | a signature exists for exactly the nine tool names the dispatcher knows; the parameters, which are required, and their defaults are those of the handler definitions |
| Server.FirstUnexpected | github_server.py:254-271 | no keyword is reported exactly when every given keyword is a parameter the call may name; a reported keyword was given and is either `self` or not a parameter (CPython refuses both for `**arguments`) |
| Server.MissingRequired | github_server.py:254-271 | every name reported missing is a required parameter of the handler (one without a default) that the call did not give |
| Server.Lookup | github_server.py:254-271 | a keyword's value is found exactly when the call gives that keyword |
| Server.Execute | github_server.py:257-270 | running a bound request gives exactly the answer and the calls of the handler it names, with list_local_repositories scanning through the as-written `ProbeAsWritten` |
| Server.GitHubMCPServer.constructor | github_server.py:28-31 | a new server has no GitHub client |
| Server.GitHubMCPServer.InitGithubClient | github_server.py:770-784 | without a truthy token it fails with "GITHUB_TOKEN environment variable is required" and leaves the client as it was; otherwise it stores the client for the token, and fails with "Failed to connect to GitHub: " plus the message exactly when get_user raises |
| Server.GitHubMCPServer.Run | github_server.py:786-794 | the server goes on to serve exactly when the token is truthy and get_user succeeds; it then holds that token's client |
| Server.GitHubMCPServer.HandleCallTool | github_server.py:245-280 | the answer is one text block together with the calls made, as the dispatcher defines them (list_local_repositories as written, through `ProbeAsWritten`); without a client the answer is the "not initialized" message and nothing is called |
| Server.UnknownToolAnswer | github_server.py:271-275 | a name outside the nine tools gets "Unknown tool: name" and makes no call |
| Server.FirstUnexpectedIsFirst | github_server.py:254-271 | the unexpected keyword reported is the first one in the order of the arguments |
| Server.UnexpectedKeywordAnswer | github_server.py:254-280 | a call whose keywords are not all accepted is answered "Error executing name: " plus CPython's message for the first offending keyword k: "GitHubMCPServer._name() got multiple values for argument 'self'" when k is `self`, "…got an unexpected keyword argument 'k'" otherwise; no call is made |
| Server.UnexpectedKeywordRefused | github_server.py:254-270 | binding fails with the keyword message of the first offending keyword (`self` or a non-parameter), before any missing argument is considered |
| Server.DispatchRefused | github_server.py:276-280 | a binding error becomes the answer "Error executing name: " plus that error, with no call made |
| Server.DispatchBound | github_server.py:254-270 | a call that binds runs exactly the handler for the bound request |
| Server.MissingRequiredComplete | github_server.py:254-270 | every required parameter the call leaves out is among those reported missing |
| Server.MissingArgumentAnswer | github_server.py:254-280 | a call without unexpected keywords that leaves out a required parameter is refused with CPython's "missing required positional argument" message and makes no call |
| Server.MissingRequiredNone | github_server.py:254-270 | nothing is reported missing when every required parameter is given |
| Server.ExternalCallsNeedBoundCall | github_server.py:245-280 | any call to GitHub, and any logged makedirs or clone_from, is made only with a client, a known tool name and arguments that bind; the answer is then that handler's answer |
| Server.ListRepositoriesDefaults | github_server.py:282 | list_repositories without arguments lists "all" repositories sorted by "updated", at most 30 |
| Server.CreateRepositoryDefaults | github_server.py:692-694 | create_repository given only a name creates a public repository with a README and no description or templates |
| Listing.QueryFor | github_server.py:287-294 | a query is made exactly for the four recognised repo types; "all" passes no type, the others pass their own; the sort key is passed on unchanged |
| Listing.KeptCount | github_server.py:297-312 | the loop keeps no repository for a limit of 0 or less, otherwise at most `limit`, and stops early only once `limit` are kept |
| Listing.ReceivedCount | github_server.py:297-312 | the loop draws one repository more than it keeps whenever it stops early |
| Listing.ListShowsLeadingRepositories | github_server.py:314-321 | repository i below the limit is shown at lines 2+4i to 2+4i+2, with its full name, language or "Unknown", description or "No description", stars, forks and the first ten characters of its update time |
| Listing.ListTakesOnePastLimit | github_server.py:297-300 | with more repositories than the limit, the lazy listing is read for limit + 1 items |
| Handlers.ListRepositories | github_server.py:282-326 | the loop's answer and calls are those of the list_repositories specification |
| Handlers.ListOutcomeListed | github_server.py:296-321 | for a recognised repo type the answer lists exactly the kept repositories |
| Info.InfoSummary | github_server.py:355-385 | the summary has 30 lines; Created and Updated show the first ten characters of their times, Last Push likewise or "Never" when there is none; the homepage line is empty exactly when there is no homepage; topics are joined by ", " or read "No topics" |
| Info.ReadShowsFileText | github_server.py:440-469 | a single item of type "file" that decodes is shown whole, between ``` fences, at the end of the answer |
| Info.ReadRefusesNonFiles | github_server.py:446-450 | an item of another type is refused with "Error: 'path' is not a file" after get_repo and get_contents |
| Browse.OfKind | github_server.py:413-414 | every item kept has the requested type, and an item is kept exactly when the listing holds it with that type |
| Browse.OfKindCounts | github_server.py:413-414 | an item of the type is kept as often as the listing holds it, an item of another type never |
| Browse.OfKindAppend | github_server.py:413-414 | filtering keeps listing order: the filter of two runs of items is the filter of the first followed by that of the second |
| Browse.OfKindSingle | github_server.py:413-414 | one item is kept exactly when it has the type |
| Browse.ListingSpec | github_server.py:409-426 | each group is sorted by lower-cased name, holds exactly the items of its type, and keeps the listing order among equal keys |
| Browse.SingleItemIsOneElementList | github_server.py:409-410 | a single file is listed as a one-element listing |
| Browse.BrowseLayout | github_server.py:416-431 | after the header, directory i is line 3+i, and every directory line comes before every file line |
| Browse.ListingMembers | github_server.py:413-414 | the sorted groups keep exactly the listing's directories and files |
| Browse.EmptyNoteExactlyWhenNothingListed | github_server.py:430-431 | "*Empty directory*" appears exactly when the listing has no directory and no file |
| Handlers.BrowseRepository | github_server.py:394-438 | the loops' answer and calls are those of the browse_repository specification |
| Handlers.RenderListing | github_server.py:416-431 | the text built by the loops is the specified listing |
| Search.FileQuery | github_server.py:482-484 | the query starts with "repo:R filename:Q" and ends with " extension:" and the file type exactly when file_type is truthy |
| Search.CodeQuery | github_server.py:525-527 | the query starts with "repo:R Q" and ends with " language:" and the language exactly when language is truthy |
| Search.HitsLines | github_server.py:506-509 | four lines per hit |
| Search.HitsLinesAt | github_server.py:506-509 | hit i occupies lines 4i to 4i+3, in result order |
| Search.ReportLayout | github_server.py:504-512 | a report shows the first min(n, cap) hits in order, and a "... and n-cap more results" line exactly when n exceeds the cap |
| Search.ReportTextCases | github_server.py:498-514 | the "nothing found" message is given exactly when there are no hits |
| Search.SearchFilesCases | github_server.py:478-514 | search_files makes one search call with the built query; it answers "No files found" exactly when nothing is found, and otherwise the report capped at 20 hits |
| Search.SearchCodeCases | github_server.py:521-557 | search_code makes one search call with the built query; it answers "No code matches found" exactly when nothing is found, and otherwise the report capped at 15 hits |
| Handlers.SearchFiles | github_server.py:478-519 | the loops' answer and calls are those of the search_files specification |
| Handlers.SearchCodeMatches | github_server.py:521-562 | the loops' answer and calls are those of the search_code specification |
| Clone.OwnerAndName | github_server.py:573 | the two-way unpacking of `split('/')` succeeds exactly when the name holds one slash, and then gives back its two halves |
| Clone.DefaultDestination | github_server.py:570-574 | without local_path the clone goes to `Path.home() / "github" / owner / repo`: the home directory's root is kept ("/" stays "/", so home "/" gives "/github/owner/repo") and the components are home's followed by "github", owner and repo, empty or "." names dropped |
| Clone.GithubFolder | github_server.py:572-574 | for owner and repo names without "/", home/github/owner/repo keeps home's root and appends the non-empty, non-"." names of github, owner and repo to home's components |
| Paths.UnderParts | github_server.py:572-574 | `Path(base) / rel` for a relative rel joins as posixpath.join does (a "/" only when base does not already end in one): the root is base's and the components are base's followed by rel's |
| Paths.RootHomeJoin | github_server.py:623-625 | with home "/", the folder d is "/d", not "//d" |
| Clone.CloneNeverOverwrites | github_server.py:579-594 | clone_from is called only for a destination that did not exist and whose parent was made, with the repository's clone URL, and with a branch exactly when one is given |
| Clone.CloneCalls | github_server.py:566-594 | the calls are get_repo, then makedirs, then clone_from for a new destination, each only if the step before succeeded |
| Clone.ExistingDestinationIsRefused | github_server.py:582-586 | an existing destination is refused with "already exists" and is never cloned into |
| LocalRepos.SearchRoots | github_server.py:620-629 | base_path alone when it is truthy, otherwise four roots ending with the working directory |
| LocalRepos.SearchRootsUnderHome | github_server.py:620-629 | without a truthy base_path, roots 0, 1 and 2 are ~/github, ~/projects and ~/code: each keeps the home directory's root, and its components are home's followed by the folder name |
| LocalRepos.HomeFolder | github_server.py:623-625 | each of "github", "projects" and "code" joined to home keeps home's root and adds exactly that one component |
| LocalRepos.Origin | github_server.py:646-647 | `remotes.origin` is found exactly when some remote is named "origin", and it is that remote's URL |
| LocalRepos.Collect | github_server.py:633-664 | the scan lists at most one repository per `.git` entry |
| LocalRepos.CollectSucceeds | github_server.py:633-664 | the scan succeeds exactly when no entry raises, and then lists the found repositories in entry order |
| LocalRepos.CollectFailsAtFirst | github_server.py:633-690 | a failed scan fails with the exception of the first entry that raises |
| LocalRepos.ProbeFailsOnlyWithoutOrigin | github_server.py:641-664 | with the corrected branch reading, an entry raises only when it has remotes and none is named "origin" |
| LocalRepos.ProbeAgreesWhereAsWrittenSucceeds | github_server.py:650-661 | the correction changes nothing where the code as written does not raise |
| LocalRepos.FoundRepository | github_server.py:655-662 | a found repository is named after its directory, keeps the dirty flag, shows at most 8 characters of the commit, and reads "detached" for a detached HEAD |
| LocalRepos.DetachedHeadAbortsScan | github_server.py:650 | as written, one working copy on a detached HEAD turns the whole answer into an error |
| LocalRepos.UnbornBranchAbortsScan | github_server.py:661 | as written, one working copy without commits turns the whole answer into an error |
| LocalRepos.CollectAppend | github_server.py:633-664 | scanning two runs of entries is scanning the first and, unless it raised, the second |
| LocalRepos.CandidatesAppend | github_server.py:633-638 | the entries of two runs of roots come one after the other |
| LocalRepos.RepoBlockShape | github_server.py:675-683 | each block starts "## name", shows the branch and "dirty" or "clean", has a remote line and a last-commit line only when they are present, and ends with an empty line |
| LocalRepos.ReportShowsEachRepository | github_server.py:672-683 | each listed repository's block appears whole and in order after the header |
| Handlers.ScanEntries | github_server.py:638-664 | for the probe it is given, the loop over `.git` entries gives the scan's result and stops at the first exception |
| Handlers.ScanRoots | github_server.py:633-664 | for the probe it is given, the loop over search paths skips missing roots and gives the scan of all their entries |
| Handlers.ScanStopsAt | github_server.py:633-664 | for any probe, an exception under one root ends the scan with that exception |
| Handlers.RenderLocalRepos | github_server.py:672-683 | the text built by the loop is the specified report |
| Handlers.ListLocalRepositories | github_server.py:617-690 | for the probe it is given, the answer is that of the list_local_repositories specification; the server passes the as-written `ProbeAsWritten` |
| Create.CleanOptional | github_server.py:713-720 | an optional text is passed on exactly when it has a non-blank value, and then stripped |
| Create.CleanOptionalGuard | github_server.py:713-720 | this is the guard `x and x.strip()` followed by `x.strip()` |
| Create.CreatesOnlyNamedRepositories | github_server.py:697-723 | create_repo is called at most once, after a successful get_user, only for a non-blank name, with the cleaned parameters |
| Create.ParamsAreClean | github_server.py:707-720 | the name is stripped; description and templates are present only when non-blank, and stripped |
| Create.CreateCalls | github_server.py:697-723 | the calls are get_user, then create_repo only for a non-blank name |
| Create.BlankNameIsRefused | github_server.py:700-704 | a blank name is refused with "Repository name cannot be empty" and no repository is created |
| Create.ErrorTextByStatus | github_server.py:751-763 | an exception without a status reads "Error creating repository: Type: message"; 422 reads "Repository creation failed: Repository 'name' already exists or invalid parameters", 403 and 401 their fixed texts whatever the name; another status reads "GitHub API Error code: " plus the data's "message" or else the exception text, and a `None` body escapes as "Error executing create_repository: 'NoneType' object has no attribute 'get'" |
| Create.CreatedTextShape | github_server.py:725-748 | the success text has 23 lines, reads "Private" exactly for a private repository, and shows `git clone` with the clone URL and `cd` with the name as given |
| Handlers.BuildParams | github_server.py:707-720 | the dictionary built step by step is the cleaned parameter set |
| Handlers.CreateRepository | github_server.py:692-768 | the answer and the calls are those of the create_repository specification |
| Text.StripSplits | github_server.py:700 | `strip()` yields a window of the text with only whitespace outside it, and is empty exactly for blank text |
| Text.StripIdempotent | github_server.py:708 | stripping twice is stripping once |
| Text.LowerIdempotent | github_server.py:420-426 | lower-casing a sort key twice is lower-casing it once, and leaves no capital A–Z |
| Text.NatToStringRoundTrip | github_server.py:319 | the decimal text of a count reads back as that count |
| Text.TenthsOfKilobyte | github_server.py:427-428 | the shown tenths of a kilobyte are within half a tenth of size / 1024 |
| Text.LexLeTotal | github_server.py:420 | any two keys are ordered |
| Text.LexLeTransitive | github_server.py:420 | the order of keys is transitive |
| Text.LexLeAntisymmetric | github_server.py:420 | keys ordered both ways are equal |
| Text.JoinSplit | github_server.py:573 | joining the pieces of a split gives back the text |
| Text.SplitJoin | github_server.py:573 | splitting a join of separator-free pieces gives back the pieces |
| Sorting.SortBy | github_server.py:420-426 | `sorted` yields a sequence sorted by the key that is a permutation of its input |
| Sorting.InsertSorted | github_server.py:420-426 | inserting into a sorted sequence keeps it sorted |
| Sorting.SortByStable | github_server.py:420-426 | among items of equal key the sort keeps their original order |
| Sorting.SortByMembers | github_server.py:420-426 | the sort keeps exactly the items it was given |
| Paths.NormPathKeepsComponents | github_server.py:574-576 | normalising a path keeps its components and its root: "//" for exactly two leading slashes, "/" for one or three and more, none for a relative path |
| Paths.Name | github_server.py:657 | `Path.name` is empty or one of the path's components |
| Paths.NameSuffix | pre-commit-check.py:83 | `suffix` is empty or a final ".xxx" of the name with no other dot |
| SecretScan.MatchEnd | pre-commit-check.py:13-15 | a match of either pattern ends with a 40-character token: "ghp_" and 36 letters or digits |
| SecretScan.ScanSound | pre-commit-check.py:40 | every match the finditer scan reports is a match at its start |
| SecretScan.ScanOrdered | pre-commit-check.py:40 | the reported matches do not overlap and come in text order |
| SecretScan.ScanComplete | pre-commit-check.py:40 | every position where a match starts lies inside some reported match |
| SecretScan.FindAllSound | pre-commit-check.py:40 | every match reported for a pattern is a match of that pattern |
| SecretScan.FindAllOrdered | pre-commit-check.py:40 | a pattern's matches are disjoint and in order |
| SecretScan.FindAllComplete | pre-commit-check.py:40 | no match of a pattern is missed: each lies inside a reported one |
| SecretScan.TokenScanCoversAssignments | pre-commit-check.py:13-15 | every token assignment also shows up as a token match, so the second pattern only adds issues for text the first already flags |
| SecretScan.LineNumber | pre-commit-check.py:42 | the line number is between 1 and the number of lines |
| SecretScan.LineNumberMonotone | pre-commit-check.py:42 | a later position never has an earlier line number |
| SecretScan.IssuesOf | pre-commit-check.py:41-48 | one issue per match, in match order |
| SecretScan.FileIssuesByPattern | pre-commit-check.py:39-48 | a file's issues are those of the token pattern followed by those of the assignment pattern |
| SecretScan.SatisfiesMatches | pre-commit-check.py:13-15 | the converse: wherever a span of the text is a token, or the "github_token" assignment shape, the pattern's match at its start ends exactly at the span's end |
| SecretScan.MatchTextSatisfies | pre-commit-check.py:13-15 | the text of a match is a token, or a case-insensitive "github_token", blanks, "=", blanks, an optional quote and a token |
| SecretScan.IssuesAreMatches | pre-commit-check.py:41-48 | each issue names its file, the pattern, the matched text and the line where the match starts |
| SecretScan.IssueLinesInOrder | pre-commit-check.py:41-48 | a pattern's issues come in non-decreasing line order |
| SecretScan.ScanIter | pre-commit-check.py:40-41 | the iteration over finditer reports exactly the scan's matches |
| SecretScan.FindIter | pre-commit-check.py:40-41 | iterating finditer for one pattern gives exactly its matches |
| SecretScan.ScanPattern | pre-commit-check.py:40-48 | the inner loop appends exactly the pattern's issues |
| SecretScan.CheckFileForSecrets | pre-commit-check.py:32-53 | the issues of a readable file; none for a file that cannot be read |
| PreCommit.ScannedRefinesAsWritten | pre-commit-check.py:82-84 | the corrected filter scans a subset of what the code as written scans, and drops only paths whose first component is hidden |
| PreCommit.HiddenTopDirectoryIsScanned | pre-commit-check.py:84 | `.venv/a.py` is scanned as written but not by the intended filter |
| PreCommit.HiddenTopDirectoryBlocksCommit | pre-commit-check.py:80-126 | a tree holding only `.venv/a.py` with a token exits 1 as written and 0 under the intended filter |
| PreCommit.CorrectedCheckBlocksLess | pre-commit-check.py:80-126 | whatever the intended filter blocks, main as written blocks too |
| PreCommit.SecretIssuesMonotone | pre-commit-check.py:81-87 | a filter that lets more files through reports every issue a narrower one reports |
| PreCommit.SecretIssuesFromScannedFiles | pre-commit-check.py:81-87 | for any filter, every reported issue comes from a readable file the filter lets through and names that file |
| PreCommit.UnreadableFileHasNoIssues | pre-commit-check.py:51-53 | a file that cannot be read adds no issue |
| PreCommit.ScanTree | pre-commit-check.py:80-87 | for the filter it is given, the loop over the tree collects the issues of the files let through, in traversal order |
| PreCommit.CheckForbiddenFiles | pre-commit-check.py:55-61 | exactly the existing forbidden files, each once |
| PreCommit.MissingExamples | pre-commit-check.py:97-106 | exactly the required example files that do not exist |
| PreCommit.FindMissingExamples | pre-commit-check.py:103-106 | the loop finds the missing examples in their listed order |
| PreCommit.ExitCodeIgnoresExamples | pre-commit-check.py:108-120 | under either filter, missing example files never change the exit code |
| PreCommit.ExitCodeMeaning | pre-commit-check.py:114-126 | under either filter, the exit code is 1 exactly when a forbidden file exists or a secret is found, else 0 |
| PreCommit.RunChecks | pre-commit-check.py:63-126 | main, with its path filter as written, reports the forbidden files, the secret issues and the missing examples, and returns 1 exactly when one of the first two is non-empty |

## Left out

- The MCP transport and `run`'s stdio loop (github_server.py:796-811) are left out: they are the MCP library's I/O. `GitHubMCPServer.Run` models only the early return before them.
- The `handle_list_tools` catalogue (github_server.py:37-241) is not modelled as data. Only the parameter names, the required flags and the defaults that the handlers' own signatures carry are modelled, in `Signature`.
- Server.Values: the source passes a JSON value of the wrong kind straight to the handler, which may accept it, refuse it or fail on it. `limit: true` lists one repository, because a Python bool is an int. `repo_name: 123` is looked up as a repository id. A number in `query` or `file_type` is formatted into the search string. `name: null` reaches `create_repository` and gives "Error: Repository name cannot be empty" after `get_user`. The model refuses every such value with "argument 'k' has the wrong type" (`KindError`). JSON floats, arrays and objects are not representable in `Arg` at all.
- `Paths.NormPath` models POSIX paths only (`PurePosixPath`: repeated slashes and "." components collapse, ".." is kept, exactly two leading slashes are kept as "//"). Whether `~` expands, symlinks and Windows paths are left out.
- The text of an exception is modelled as a message string carried by the failing call. Python's `str(e)` formatting of each library's exceptions is left out.
- Every `print` of the pre-commit script is left out. `RunChecks` returns what it would print as sequences.
- CheckForbiddenFiles: the source iterates a Python set, whose order is unspecified. The model fixes no order and states only membership and distinctness.
- The truthiness test `if not self.github_client` treats a `Github` object as always truthy. The model uses `Option`.
- `repo.updated_at.isoformat()`, `created_at.strftime` and similar are taken as the strings the library returns.
- `decoded_content.decode('utf-8')` is the `Decoded` or `DecodeFailed` answer of the contents call.
- Text.Lower: `str.lower` is modelled for ASCII and Latin-1 letters only. Other letters are kept unchanged.
- `rglob` order, the real file system, Git and GitHub are inputs: `LocalFs`, `GitEntry` and `Client` values chosen by the caller.
- Concurrency: the `async` handlers run one at a time here.
- The arguments are a list of (name, value) pairs with no distinctness demanded: a JSON object has distinct keys, and where a list repeats one, `Lookup` takes the first.

## Findings

| source | as written | input that shows it | evidently intended | confidence | as-written member | corrected member |
|---|---|---|---|---|---|---|
| pre-commit-check.py:84 | `file_path.parts[1:]` skips the first component. `Path('.').rglob('*')` yields paths like `.venv/a.py` with no leading `.`, so files under a hidden top-level directory are scanned. | `.venv/a.py`, or a file with a checkable suffix under `.git/` | skip every hidden directory, as the comment says. The corrected filter tests every component, so it also skips a top-level hidden file such as `.config.py`, which the code as written scans; it treats it as hidden files further down are already treated | high, not executed | PreCommit.ScannedAsWritten, which PreCommit.RunChecks uses (shown by PreCommit.HiddenTopDirectoryBlocksCommit) | PreCommit.Scanned, passed to PreCommit.ExitCode and PreCommit.ScanTree in its place (with PreCommit.ScannedRefinesAsWritten and PreCommit.CorrectedCheckBlocksLess) |
| github_server.py:650 | `git_repo.active_branch` raises TypeError on a detached HEAD. Only InvalidGitRepositoryError is caught, so the whole listing becomes an error. | one working copy whose HEAD is detached | show the branch as "detached" and go on | high, not executed | LocalRepos.ProbeAsWritten, which Server.Execute uses (shown by LocalRepos.DetachedHeadAbortsScan) | LocalRepos.Probe, passed to Handlers.ListLocalRepositories in its place (with LocalRepos.ProbeAgreesWhereAsWrittenSucceeds) |
| github_server.py:661 | `git_repo.head.commit` raises ValueError on a branch without commits, with the same effect | a freshly initialised repository | show no last commit and go on | high, not executed | LocalRepos.ProbeAsWritten, which Server.Execute uses (shown by LocalRepos.UnbornBranchAbortsScan) | LocalRepos.Probe, passed to Handlers.ListLocalRepositories in its place (with LocalRepos.ProbeFailsOnlyWithoutOrigin) |
