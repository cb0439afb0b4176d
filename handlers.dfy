/** The tool handlers of GitHubMCPServer that build their answer step by step: the
    counter loop of list_repositories, the `result +=` loops of browse_repository, the
    search handlers and list_local_repositories, and the parameter dictionary that
    create_repository fills in. Each is proved to compute the answer its specification
    function describes. The text a handler builds with `result += "...\n"` is kept as
    the list of its lines, and the answer is those lines each ended by a newline
    (Unlines). The handlers only run with a client: the dispatcher checks for one first. */
module Handlers {
  import opened Text
  import opened Sorting
  import opened Remote
  import opened Listing
  import opened Browse
  import opened Search
  import opened LocalRepos
  import opened Create

  /** _list_repositories: `for repo in repos: if count >= limit: break`, so the check
      comes after the next repository has been pulled from the lazy listing. */
  method ListRepositories(client: Client, repoType: string, sort: string, limit: int) returns (out: Outcome)
    ensures out == ListOutcome(client, repoType, sort, limit)
  {
    if client.userError.Some? {
      return Outcome("Error listing repositories: " + client.userError.value.message, [GetUser]);
    }
    var query := QueryFor(repoType, sort);
    if query.None? {
      return Outcome("Error listing repositories: " + UnboundReposMessage, [GetUser]);
    }
    var q := query.value;
    var listing := client.repos(q);
    if listing.Err? {
      return Outcome("Error listing repositories: " + listing.error.message, [GetUser, IterateRepos(q, 0)]);
    }
    var repos := listing.value;
    var repoList: seq<RepoRecord> := [];
    var count := 0;
    var received := 0;
    while received < |repos|
      invariant count == received == |repoList| <= |repos|
      invariant repoList == repos[..count]
      invariant count <= KeptCount(limit, |repos|)
    {
      received := received + 1;
      if count >= limit {
        break;
      }
      repoList := repoList + [repos[count]];
      count := count + 1;
    }
    assert count == KeptCount(limit, |repos|) && received == ReceivedCount(limit, |repos|);
    ListOutcomeListed(client, repoType, sort, limit, q, repos);
    out := Outcome(Unlines(ListLines(repoList)), [GetUser, IterateRepos(q, received)]);
  }

  lemma ListOutcomeListed(client: Client, repoType: string, sort: string, limit: int, q: RepoQuery,
                          repos: seq<RepoRecord>)
    requires client.userError.None? && QueryFor(repoType, sort) == Some(q) && client.repos(q) == Ok(repos)
    ensures ListOutcome(client, repoType, sort, limit) ==
            Outcome(Unlines(ListLines(repos[..KeptCount(limit, |repos|)])),
                    [GetUser, IterateRepos(q, ReceivedCount(limit, |repos|))])
  {
  }

  /** `result += "## Directories\n"`, a line per directory of the sorted list, then "\n". */
  method AddDirSection(lines: seq<string>, sorted: seq<ContentItem>) returns (ls: seq<string>)
    requires sorted != []
    ensures ls == lines + DirSection(sorted)
  {
    var n := |lines| + 1;
    ls := lines + ["## Directories"];
    for i := 0 to |sorted|
      invariant |ls| == n + i && ls[..n] == lines + ["## Directories"]
      invariant forall k :: 0 <= k < i ==> ls[n + k] == DirEntry(sorted[k])
    {
      ls := ls + ["**" + sorted[i].name + "/**"];
    }
    ls := ls + [""];
    assert ls == lines + (["## Directories"] + DirEntries(sorted) + [""]);
  }

  /** `result += "## Files\n"` and a line per file of the sorted list. */
  method AddFileSection(lines: seq<string>, sorted: seq<ContentItem>) returns (ls: seq<string>)
    requires sorted != []
    ensures ls == lines + FileSection(sorted)
  {
    var n := |lines| + 1;
    ls := lines + ["## Files"];
    for i := 0 to |sorted|
      invariant |ls| == n + i && ls[..n] == lines + ["## Files"]
      invariant forall k :: 0 <= k < i ==> ls[n + k] == FileEntry(sorted[k])
    {
      ls := ls + ["**" + sorted[i].name + "** (" + KilobytesText(sorted[i].size) + " KB)"];
    }
    assert ls == lines + (["## Files"] + FileEntries(sorted));
  }

  /** The text of _browse_repository for a listing whose groups are already sorted (the
      handler sorts each group where it loops over it). */
  method RenderListing(repoName: string, path: string, l: Browse.Listing) returns (text: string)
    ensures text == Unlines(BrowseLines(repoName, path, l))
  {
    var lines := [Header(repoName, path), ""];
    var head := lines;
    if l.dirs != [] {
      lines := AddDirSection(lines, l.dirs);
    }
    var afterDirs := lines;
    if l.files != [] {
      lines := AddFileSection(lines, l.files);
    }
    var afterFiles := lines;
    if l.dirs == [] && l.files == [] {
      lines := lines + [EmptyNote];
    }
    assert lines == head + DirSection(l.dirs) + FileSection(l.files) +
                    (if l.dirs == [] && l.files == [] then [EmptyNote] else []);
    text := Unlines(lines);
  }

  /** _browse_repository. */
  method BrowseRepository(client: Client, repoName: string, path: string, ref: Option<string>) returns (out: Outcome)
    ensures out == BrowseOutcome(client, repoName, path, ref)
  {
    var repo := client.repo(repoName);
    if repo.Err? {
      return Outcome("Error browsing repository: " + repo.error.message, [GetRepo(repoName)]);
    }
    var calls := [GetRepo(repoName), GetContents(repoName, path, ref)];
    var got := client.contents(repoName, path, ref);
    if got.Err? {
      return Outcome("Error accessing path '" + path + "': " + got.error.message, calls);
    }
    var text := RenderListing(repoName, path, ListingOf(got.value));
    out := Outcome(text, calls);
  }

  /** `for file in files[:cap]`: four lines per hit. */
  method AddHits(lines: seq<string>, shown: seq<SearchHit>)
    returns (ls: seq<string>)
    ensures ls == lines + HitsLines(shown)
  {
    ls := lines;
    for i := 0 to |shown|
      invariant ls == lines + HitsLines(shown[..i])
    {
      var h := shown[i];
      assert shown[..i + 1][..i] == shown[..i];
      var before := ls;
      ls := ls + ["**" + h.name + "**"];
      ls := ls + ["   Path: `" + h.path + "`"];
      ls := ls + ["   [View on GitHub](" + h.htmlUrl + ")"];
      ls := ls + [""];
      assert ls == before + HitLines(h);
    }
    assert shown[..|shown|] == shown;
  }

  /** The rendering shared by _search_files and _search_code: the hits are copied into
      a list, then the header, the first `cap` hits and the note are appended. */
  method RenderHits(none: string, title: string, query: string, repoName: string,
                    results: seq<SearchHit>, cap: nat) returns (text: string)
    ensures text == ReportText(none, title, query, repoName, results, cap)
  {
    var found: seq<SearchHit> := [];
    for i := 0 to |results|
      invariant found == results[..i]
    {
      found := found + [results[i]];
    }
    assert found == results;
    if found == [] {
      return none;
    }
    var lines := [title, "", "**Query:** " + query, "**Repository:** " + repoName, ""];
    lines := AddHits(lines, found[..Shown(|found|, cap)]);
    var body := lines;
    if |found| > cap {
      lines := lines + [MoreNote(|found| - cap)];
    }
    assert lines == body + (if |results| > cap then [MoreNote(|results| - cap)] else []);
    assert lines == Search.ReportLines(title, query, repoName, results, cap);
    text := Unlines(lines);
  }

  method SearchFiles(client: Client, repoName: string, query: string, fileType: Option<string>) returns (out: Outcome)
    ensures out == SearchFilesOutcome(client, repoName, query, fileType)
  {
    var q := FileQuery(repoName, query, fileType);
    var results := client.search(q);
    if results.Err? {
      return Outcome("Error searching files: " + results.error.message, [SearchCode(q)]);
    }
    var text := RenderHits(NoFilesMessage(query, repoName), "# File Search Results", query, repoName,
                           results.value, FileCap);
    out := Outcome(text, [SearchCode(q)]);
  }

  method SearchCodeMatches(client: Client, repoName: string, query: string, language: Option<string>) returns (out: Outcome)
    ensures out == SearchCodeOutcome(client, repoName, query, language)
  {
    var q := CodeQuery(repoName, query, language);
    var results := client.search(q);
    if results.Err? {
      return Outcome("Error searching code: " + results.error.message, [SearchCode(q)]);
    }
    var text := RenderHits(NoCodeMessage(query, repoName), "# Code Search Results", query, repoName,
                           results.value, CodeCap);
    out := Outcome(text, [SearchCode(q)]);
  }

  /** The inner loop of _list_local_repositories over the `.git` entries of one root:
      the repositories found so far grow, or the first exception ends the scan. */
  method ScanEntries(ghost done: seq<GitEntry>, items: seq<GitEntry>, found: seq<LocalRepo>,
                     probe: GitEntry -> ProbeResult)
    returns (r: Result<seq<LocalRepo>, string>)
    requires Collect(done, probe) == Ok(found)
    ensures r == Collect(done + items, probe)
  {
    var localRepos := found;
    assert done + items[..0] == done;
    for j := 0 to |items|
      invariant Collect(done + items[..j], probe) == Ok(localRepos)
    {
      CollectSnoc(done + items[..j], items[j], probe);
      PrefixSnoc(done, items, j);
      var probed := probe(items[j]);
      match probed
      case Skip =>
      case Found(x) =>
        localRepos := localRepos + [x];
      case Failed(m) =>
        CollectStops(done, items, j + 1, probe);
        return Err(m);
    }
    assert items[..|items|] == items;
    r := Ok(localRepos);
  }

  lemma PrefixSnoc<T>(done: seq<T>, items: seq<T>, j: nat)
    requires j < |items|
    ensures done + items[..j] + [items[j]] == done + items[..j + 1]
  {
    assert items[..j + 1] == items[..j] + [items[j]];
  }

  lemma CollectStops(done: seq<GitEntry>, items: seq<GitEntry>, j: nat, probe: GitEntry -> ProbeResult)
    requires j <= |items| && Collect(done + items[..j], probe).Err?
    ensures Collect(done + items, probe) == Collect(done + items[..j], probe)
  {
    assert done + items == (done + items[..j]) + items[j..];
    CollectAppend(done + items[..j], items[j..], probe);
  }

  /** The outer loop of _list_local_repositories over the search roots, skipping those
      that do not exist. */
  method ScanRoots(fs: LocalFs, searchPaths: seq<string>, probe: GitEntry -> ProbeResult)
    returns (r: Result<seq<LocalRepo>, string>)
    ensures r == Collect(Candidates(fs, searchPaths), probe)
  {
    var localRepos: seq<LocalRepo> := [];
    for k := 0 to |searchPaths|
      invariant Collect(Candidates(fs, searchPaths[..k]), probe) == Ok(localRepos)
    {
      var root := searchPaths[k];
      var done := Candidates(fs, searchPaths[..k]);
      CandidatesAppend(fs, searchPaths[..k], [root]);
      assert searchPaths[..k + 1] == searchPaths[..k] + [root];
      assert Candidates(fs, [root]) == (if fs.pathExists(root) then fs.gitEntries(root) else []) by {
        assert [root][1..] == [];
      }
      if !fs.pathExists(root) {
        assert done + [] == done;
        continue;
      }
      var scanned := ScanEntries(done, fs.gitEntries(root), localRepos, probe);
      if scanned.Err? {
        ScanStopsAt(fs, searchPaths, k, scanned.error, probe);
        return scanned;
      }
      localRepos := scanned.value;
    }
    assert searchPaths[..|searchPaths|] == searchPaths;
    r := Ok(localRepos);
  }

  /** The lines of one repository: name, path, branch and status, remote and last commit
      when present, and an empty line. */
  method AddRepoBlock(lines: seq<string>, repo: LocalRepo)
    returns (ls: seq<string>)
    ensures ls == lines + RepoBlock(repo)
  {
    var status := if repo.dirty then "dirty" else "clean";
    ls := lines + ["## " + repo.name];
    ls := ls + ["**Path:** `" + repo.path + "`"];
    ls := ls + ["**Branch:** " + repo.branch + " | **Status:** " + status];
    var base := ls;
    if Truthy(repo.remoteUrl) {
      ls := ls + ["**Remote:** " + repo.remoteUrl.value];
    }
    var withRemote := ls;
    assert withRemote == base + (if Truthy(repo.remoteUrl) then ["**Remote:** " + repo.remoteUrl.value] else []);
    if Truthy(repo.lastCommit) {
      ls := ls + ["**Last Commit:** " + repo.lastCommit.value];
    }
    assert ls == withRemote + (if Truthy(repo.lastCommit) then ["**Last Commit:** " + repo.lastCommit.value] else []);
    ls := ls + [""];
  }

  /** The report of _list_local_repositories for a non-empty scan. */
  method RenderLocalRepos(localRepos: seq<LocalRepo>) returns (text: string)
    ensures text == Unlines(LocalRepos.ReportLines(localRepos))
  {
    var lines := ["# Local Git Repositories", "", "**Found " + NatToString(|localRepos|) + " repositories:**", ""];
    var head := lines;
    for i := 0 to |localRepos|
      invariant lines == head + Blocks(localRepos[..i])
    {
      var repo := localRepos[i];
      lines := AddRepoBlock(lines, repo);
      BlocksAppend(localRepos[..i], [repo]);
      assert localRepos[..i + 1] == localRepos[..i] + [repo];
      assert Blocks([repo]) == RepoBlock(repo) by { assert [repo][1..] == []; }
    }
    assert localRepos[..|localRepos|] == localRepos;
    text := Unlines(lines);
  }

  /** _list_local_repositories, with the reading of each `.git` entry as a parameter:
      the server runs it with ProbeAsWritten, the code as it stands. */
  method ListLocalRepositories(fs: LocalFs, basePath: Option<string>, probe: GitEntry -> ProbeResult)
    returns (out: Outcome)
    ensures out == LocalReposOutcome(fs, basePath, probe)
  {
    var searchPaths := SearchRoots(fs, basePath);
    var scanned := ScanRoots(fs, searchPaths, probe);
    if scanned.Err? {
      return Outcome(ErrorPrefix + scanned.error, []);
    }
    if scanned.value == [] {
      return Outcome(NothingFound, []);
    }
    var text := RenderLocalRepos(scanned.value);
    out := Outcome(text, []);
  }

  /** A root whose entries raise ends the scan of all roots with that message. */
  lemma ScanStopsAt(fs: LocalFs, roots: seq<string>, k: nat, m: string, probe: GitEntry -> ProbeResult)
    requires k < |roots| && fs.pathExists(roots[k])
    requires Collect(Candidates(fs, roots[..k]) + fs.gitEntries(roots[k]), probe) == Err(m)
    ensures Collect(Candidates(fs, roots), probe) == Err(m)
  {
    var done := Candidates(fs, roots[..k]) + fs.gitEntries(roots[k]);
    CandidatesSplit(fs, roots, k);
    CollectAppend(done, Candidates(fs, roots[k + 1..]), probe);
  }

  lemma CandidatesSplit(fs: LocalFs, roots: seq<string>, k: nat)
    requires k < |roots| && fs.pathExists(roots[k])
    ensures Candidates(fs, roots) ==
            (Candidates(fs, roots[..k]) + fs.gitEntries(roots[k])) + Candidates(fs, roots[k + 1..])
  {
    assert roots == roots[..k] + ([roots[k]] + roots[k + 1..]);
    CandidatesAppend(fs, roots[..k], [roots[k]] + roots[k + 1..]);
    assert Candidates(fs, [roots[k]] + roots[k + 1..]) == fs.gitEntries(roots[k]) + Candidates(fs, roots[k + 1..]);
  }

  /** The dictionary create_params: name, private and auto_init, then each optional
      text, stripped, when it holds more than whitespace. */
  method BuildParams(name: string, description: Option<string>, isPrivate: bool, initReadme: bool,
                     gitignore: Option<string>, license: Option<string>) returns (params: CreateParams)
    ensures params == ParamsFor(name, description, isPrivate, initReadme, gitignore, license)
  {
    CleanOptionalGuard(description);
    CleanOptionalGuard(gitignore);
    CleanOptionalGuard(license);
    params := CreateParams(Strip(name), isPrivate, initReadme, None, None, None);
    if Truthy(description) && Strip(description.value) != "" {
      params := params.(description := Some(Strip(description.value)));
    }
    if Truthy(gitignore) && Strip(gitignore.value) != "" {
      params := params.(gitignoreTemplate := Some(Strip(gitignore.value)));
    }
    if Truthy(license) && Strip(license.value) != "" {
      params := params.(licenseTemplate := Some(Strip(license.value)));
    }
  }

  /** _create_repository: get_user, the name check, then create_repo. */
  method CreateRepository(client: Client, name: string, description: Option<string>, isPrivate: bool,
                          initReadme: bool, gitignore: Option<string>, license: Option<string>)
    returns (out: Outcome)
    ensures out == CreateOutcome(client, name, description, isPrivate, initReadme, gitignore, license)
  {
    if client.userError.Some? {
      return Outcome(ErrorText(client.userError.value, name), [GetUser]);
    }
    if name == "" || Strip(name) == "" {
      return Outcome(EmptyNameMessage, [GetUser]);
    }
    var params := BuildParams(name, description, isPrivate, initReadme, gitignore, license);
    var created := client.create(params);
    if created.Err? {
      return Outcome(ErrorText(created.error, name), [GetUser, CreateRepo(params)]);
    }
    out := Outcome(Unlines(CreatedLines(created.value, name)), [GetUser, CreateRepo(params)]);
  }
}
