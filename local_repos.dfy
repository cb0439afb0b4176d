/** list_local_repositories: the directories searched, what GitPython makes of each `.git`
    entry found under them, and the report. The handler as written lets the exceptions
    GitPython raises for a detached HEAD and for a branch without commits escape the
    per-repository `except InvalidGitRepositoryError`, so one such working copy turns the
    whole answer into an error. ProbeAsWritten models that, and it is the probe the
    server runs; Probe is the corrected version ("detached" as the branch, no last
    commit). The scan takes the probe as a parameter. */
module LocalRepos {
  import opened Text
  import opened Paths
  import opened Remote

  const ErrorPrefix := "Error listing local repositories: "
  const NothingFound := "No local Git repositories found in the searched paths."

  datatype LocalRepo = LocalRepo(
    path: string, name: string, remoteUrl: Option<string>, branch: string,
    dirty: bool, lastCommit: Option<string>)

  /** What one `.git` entry contributes: nothing, a repository, or an exception that
      ends the whole scan. */
  datatype ProbeResult = Skip | Found(repo: LocalRepo) | Failed(message: string)

  /** base_path when it is truthy, else ~/github, ~/projects, ~/code and the working
      directory, in that order. */
  function SearchRoots(fs: LocalFs, basePath: Option<string>): (roots: seq<string>)
    ensures Truthy(basePath) ==> roots == [NormPath(basePath.value)]
    ensures !Truthy(basePath) ==> |roots| == 4 && roots[3] == NormPath(fs.cwd)
  {
    if Truthy(basePath) then [NormPath(basePath.value)]
    else [Under(fs.home, "github"), Under(fs.home, "projects"), Under(fs.home, "code"), NormPath(fs.cwd)]
  }

  /** The folders of the home directory searched without a truthy base_path. */
  const HomeFolders: seq<string> := ["github", "projects", "code"]

  /** Without a truthy base_path, root i < 3 is ~/HomeFolders[i]: it keeps the home
      directory's root and adds that folder to its components. */
  lemma SearchRootsUnderHome(fs: LocalFs, basePath: Option<string>, i: nat)
    requires !Truthy(basePath) && i < 3
    ensures Root(SearchRoots(fs, basePath)[i]) == Root(fs.home)
    ensures Components(SearchRoots(fs, basePath)[i]) == Components(fs.home) + [HomeFolders[i]]
  {
    var d := HomeFolders[i];
    assert SearchRoots(fs, basePath)[i] == Under(fs.home, d);
    HomeFolder(fs.home, d);
  }

  /** A plain folder name under the home directory: home's root, and home's components
      then the name. */
  lemma HomeFolder(home: string, d: string)
    requires d in HomeFolders
    ensures Root(Under(home, d)) == Root(home)
    ensures Components(Under(home, d)) == Components(home) + [d]
  {
    assert d != "" && d[0] != '/' && '/' !in d && d != "." by {
      if d == "github" {
      } else if d == "projects" {
      } else {
      }
    }
    UnderParts(home, d);
    WordComponents(d);
    assert Keep([d]) == [d] by { assert [d][1..] == []; }
  }

  /** The `.git` entries rglob finds under each existing root, root by root. */
  function Candidates(fs: LocalFs, roots: seq<string>): seq<GitEntry> {
    if roots == [] then []
    else (if fs.pathExists(roots[0]) then fs.gitEntries(roots[0]) else []) + Candidates(fs, roots[1..])
  }

  /** remotes.origin: the first remote named "origin". */
  function Origin(remotes: seq<GitRemote>): (r: Option<string>)
    ensures r.Some? <==> exists k :: 0 <= k < |remotes| && remotes[k].name == "origin"
    ensures r.Some? ==> exists k :: 0 <= k < |remotes| && remotes[k] == GitRemote("origin", r.value)
  {
    if remotes == [] then None
    else if remotes[0].name == "origin" then Some(remotes[0].url)
    else
      var r := Origin(remotes[1..]);
      assert forall k :: 1 <= k < |remotes| ==> remotes[k] == remotes[1..][k - 1];
      r
  }

  /** `remote_url = git_repo.remotes.origin.url if git_repo.remotes else None`, with the
      AttributeError raised when there are remotes but no "origin". */
  function RemoteOf(remotes: seq<GitRemote>): Result<Option<string>, string> {
    if remotes == [] then Ok(None)
    else if Origin(remotes).Some? then Ok(Origin(remotes))
    else Err("'IterableList' object has no attribute 'origin'")
  }

  function DetachedMessage(sha: string): string {
    "HEAD is a detached symbolic reference as it points to '" + sha + "'"
  }

  function UnbornMessage(branch: string): string {
    "Reference at 'refs/heads/" + branch + "' does not exist"
  }

  /** The body of the per-entry try block as written: `active_branch` raises TypeError on
      a detached HEAD and `head.commit` raises ValueError on a branch without commits;
      neither is an InvalidGitRepositoryError, so both end the scan. */
  function ProbeAsWritten(e: GitEntry): ProbeResult {
    if !e.isDir then Skip
    else
      match e.probe
      case NotARepository => Skip
      case WorkingCopy(remotes, head, dirty) =>
        match RemoteOf(remotes)
        case Err(m) => Failed(m)
        case Ok(url) =>
          match head
          case Detached(sha) => Failed(DetachedMessage(sha))
          case OnBranch(b, None) => Failed(UnbornMessage(b))
          case OnBranch(b, Some(sha)) =>
            Found(LocalRepo(e.repoPath, Name(e.repoPath), url, b, dirty, Some(Prefix(sha, 8))))
  }

  /** The same, with the branch "detached" for a detached HEAD and no last commit for a
      branch without commits, as the conditional expressions of the handler intend. */
  function Probe(e: GitEntry): ProbeResult {
    if !e.isDir then Skip
    else
      match e.probe
      case NotARepository => Skip
      case WorkingCopy(remotes, head, dirty) =>
        match RemoteOf(remotes)
        case Err(m) => Failed(m)
        case Ok(url) =>
          match head
          case Detached(sha) =>
            Found(LocalRepo(e.repoPath, Name(e.repoPath), url, "detached", dirty, Some(Prefix(sha, 8))))
          case OnBranch(b, None) =>
            Found(LocalRepo(e.repoPath, Name(e.repoPath), url, b, dirty, None))
          case OnBranch(b, Some(sha)) =>
            Found(LocalRepo(e.repoPath, Name(e.repoPath), url, b, dirty, Some(Prefix(sha, 8))))
  }

  /** The scan: the repositories found in entry order, or the first exception. */
  function Collect(entries: seq<GitEntry>, probe: GitEntry -> ProbeResult): (r: Result<seq<LocalRepo>, string>)
    ensures r.Ok? ==> |r.value| <= |entries|
  {
    if entries == [] then Ok([])
    else
      match probe(entries[0])
      case Failed(m) => Err(m)
      case Skip => Collect(entries[1..], probe)
      case Found(x) =>
        match Collect(entries[1..], probe)
        case Err(m) => Err(m)
        case Ok(rest) => Ok([x] + rest)
  }

  function RepoBlock(x: LocalRepo): seq<string> {
    ["## " + x.name, "**Path:** `" + x.path + "`",
     "**Branch:** " + x.branch + " | **Status:** " + (if x.dirty then "dirty" else "clean")] +
    (if Truthy(x.remoteUrl) then ["**Remote:** " + x.remoteUrl.value] else []) +
    (if Truthy(x.lastCommit) then ["**Last Commit:** " + x.lastCommit.value] else []) +
    [""]
  }

  function Blocks(xs: seq<LocalRepo>): seq<string> {
    if xs == [] then [] else RepoBlock(xs[0]) + Blocks(xs[1..])
  }

  function ReportLines(xs: seq<LocalRepo>): seq<string> {
    ["# Local Git Repositories", "", "**Found " + NatToString(|xs|) + " repositories:**", ""] + Blocks(xs)
  }

  function ScanText(r: Result<seq<LocalRepo>, string>): string {
    match r
    case Err(m) => ErrorPrefix + m
    case Ok(xs) => if xs == [] then NothingFound else Unlines(ReportLines(xs))
  }

  /** The answer of list_local_repositories with a given reading of each `.git` entry
      (it calls no remote API): the handler as written uses ProbeAsWritten. */
  function LocalReposOutcome(fs: LocalFs, basePath: Option<string>, probe: GitEntry -> ProbeResult): Outcome {
    Outcome(ScanText(Collect(Candidates(fs, SearchRoots(fs, basePath)), probe)), [])
  }

  /** The scan succeeds exactly when no entry raises; it then lists exactly the
      repositories the entries yield, in entry order. */
  lemma {:induction false} CollectSucceeds(entries: seq<GitEntry>, probe: GitEntry -> ProbeResult)
    ensures Collect(entries, probe).Ok? <==> forall k :: 0 <= k < |entries| ==> !probe(entries[k]).Failed?
    ensures Collect(entries, probe).Ok? ==>
      forall x :: x in Collect(entries, probe).value <==>
        exists k :: 0 <= k < |entries| && probe(entries[k]) == Found(x)
  {
    if entries != [] {
      CollectSucceeds(entries[1..], probe);
      assert forall k :: 1 <= k < |entries| ==> entries[1..][k - 1] == entries[k];
      if Collect(entries, probe).Ok? {
        forall x ensures x in Collect(entries, probe).value <==>
                         exists k :: 0 <= k < |entries| && probe(entries[k]) == Found(x) {
          if exists k :: 0 <= k < |entries| && probe(entries[k]) == Found(x) {
            var k :| 0 <= k < |entries| && probe(entries[k]) == Found(x);
            if k > 0 { assert entries[1..][k - 1] == entries[k]; }
          }
          if x in Collect(entries[1..], probe).value {
            var k :| 0 <= k < |entries[1..]| && probe(entries[1..][k]) == Found(x);
            assert probe(entries[k + 1]) == Found(x);
          }
        }
      }
    }
  }

  /** When the scan fails, it fails with the first entry that raises. */
  lemma {:induction false} CollectFailsAtFirst(entries: seq<GitEntry>, probe: GitEntry -> ProbeResult)
    requires Collect(entries, probe).Err?
    ensures exists i :: 0 <= i < |entries| && probe(entries[i]) == Failed(Collect(entries, probe).error) &&
                        forall j :: 0 <= j < i ==> !probe(entries[j]).Failed?
  {
    if !probe(entries[0]).Failed? {
      CollectFailsAtFirst(entries[1..], probe);
      var i :| 0 <= i < |entries[1..]| && probe(entries[1..][i]) == Failed(Collect(entries[1..], probe).error) &&
               forall j :: 0 <= j < i ==> !probe(entries[1..][j]).Failed?;
      assert probe(entries[i + 1]) == Failed(Collect(entries, probe).error);
      forall j | 0 <= j < i + 1 ensures !probe(entries[j]).Failed? {
        if j > 0 { assert entries[j] == entries[1..][j - 1]; }
      }
    }
  }

  /** With the corrected probe only a working copy that has remotes but none named
      "origin" ends the scan; the state of HEAD never does. */
  lemma ProbeFailsOnlyWithoutOrigin(e: GitEntry)
    ensures Probe(e).Failed? <==>
      e.isDir && e.probe.WorkingCopy? && e.probe.remotes != [] &&
      forall k :: 0 <= k < |e.probe.remotes| ==> e.probe.remotes[k].name != "origin"
  {
  }

  /** The corrected probe differs from the one as written only where that one raises. */
  lemma ProbeAgreesWhereAsWrittenSucceeds(e: GitEntry)
    ensures !ProbeAsWritten(e).Failed? ==> Probe(e) == ProbeAsWritten(e)
    ensures ProbeAsWritten(e).Failed? && !Probe(e).Failed? ==>
      e.probe.WorkingCopy? && (e.probe.head.Detached? || e.probe.head.commit.None?)
  {
  }

  /** A found repository is named after the last component of its path and shows at
      most the first eight characters of its commit. */
  lemma FoundRepository(e: GitEntry)
    requires Probe(e).Found?
    ensures Probe(e).repo.path == e.repoPath && Probe(e).repo.name == Name(e.repoPath)
    ensures Probe(e).repo.dirty == e.probe.dirty
    ensures Probe(e).repo.lastCommit.Some? ==> |Probe(e).repo.lastCommit.value| <= 8
    ensures (Probe(e).repo.branch == "detached") <== e.probe.head.Detached?
  {
  }

  const DetachedCopy := GitEntry(true, "/w/tool", WorkingCopy([], Detached("0123456789abcdef"), false))
  const UnbornCopy := GitEntry(true, "/w/new", WorkingCopy([], OnBranch("main", None), true))

  lemma OneRootCandidates(fs: LocalFs, p: string)
    requires fs.pathExists(p)
    ensures Candidates(fs, [p]) == fs.gitEntries(p)
  {
    assert [p][1..] == [];
    assert Candidates(fs, [p]) == fs.gitEntries(p) + Candidates(fs, []);
  }

  lemma CollectOne(e: GitEntry, probe: GitEntry -> ProbeResult)
    ensures Collect([e], probe) == match probe(e)
      case Failed(m) => Err(m)
      case Skip => Ok([])
      case Found(x) => Ok([x])
  {
    assert [e][1..] == [];
    assert Collect([], probe) == Ok([]);
    if probe(e).Found? {
      assert [probe(e).repo] + [] == [probe(e).repo];
    }
  }

  lemma SingleRootCandidates(fs: LocalFs, root: string)
    requires root != "" && fs.pathExists(NormPath(root))
    ensures Candidates(fs, SearchRoots(fs, Some(root))) == fs.gitEntries(NormPath(root))
  {
    assert SearchRoots(fs, Some(root)) == [NormPath(root)];
    OneRootCandidates(fs, NormPath(root));
  }

  /** One working copy on a detached HEAD makes the answer as written an error, while
      the corrected scan lists it on the branch "detached". */
  lemma DetachedHeadAbortsScan(fs: LocalFs, root: string)
    requires root != "" && fs.pathExists(NormPath(root)) && fs.gitEntries(NormPath(root)) == [DetachedCopy]
    ensures LocalReposOutcome(fs, Some(root), ProbeAsWritten).text ==
            ErrorPrefix + DetachedMessage("0123456789abcdef")
    ensures Collect(Candidates(fs, SearchRoots(fs, Some(root))), Probe) ==
            Ok([LocalRepo("/w/tool", Name("/w/tool"), None, "detached", false, Some("01234567"))])
  {
    SingleRootCandidates(fs, root);
    DetachedProbes();
    CollectOne(DetachedCopy, ProbeAsWritten);
    CollectOne(DetachedCopy, Probe);
  }

  lemma DetachedProbes()
    ensures ProbeAsWritten(DetachedCopy) == Failed(DetachedMessage("0123456789abcdef"))
    ensures Probe(DetachedCopy) ==
            Found(LocalRepo("/w/tool", Name("/w/tool"), None, "detached", false, Some("01234567")))
  {
    assert Prefix("0123456789abcdef", 8) == "01234567";
  }

  /** A branch without commits (a fresh `git init`) does the same to the answer as written. */
  lemma UnbornBranchAbortsScan(fs: LocalFs, root: string)
    requires root != "" && fs.pathExists(NormPath(root)) && fs.gitEntries(NormPath(root)) == [UnbornCopy]
    ensures LocalReposOutcome(fs, Some(root), ProbeAsWritten).text == ErrorPrefix + UnbornMessage("main")
    ensures Collect(Candidates(fs, SearchRoots(fs, Some(root))), Probe) ==
            Ok([LocalRepo("/w/new", Name("/w/new"), None, "main", true, None)])
  {
    SingleRootCandidates(fs, root);
    assert ProbeAsWritten(UnbornCopy) == Failed(UnbornMessage("main"));
    assert Probe(UnbornCopy) == Found(LocalRepo("/w/new", Name("/w/new"), None, "main", true, None));
    CollectOne(UnbornCopy, ProbeAsWritten);
    CollectOne(UnbornCopy, Probe);
  }

  /** The report says how many repositories it lists and starts each one's block with
      its name; the block shows the remote and the last commit only when present, and
      the status word reflects uncommitted changes. */
  lemma RepoBlockShape(x: LocalRepo)
    ensures var b := RepoBlock(x);
      |b| == 4 + (if Truthy(x.remoteUrl) then 1 else 0) + (if Truthy(x.lastCommit) then 1 else 0) &&
      b[0] == "## " + x.name && b[|b| - 1] == "" &&
      (("**Remote:** " + x.remoteUrl.value) in b <== Truthy(x.remoteUrl)) &&
      b[2] == "**Branch:** " + x.branch + " | **Status:** " + (if x.dirty then "dirty" else "clean")
  {
    var b := RepoBlock(x);
    if Truthy(x.remoteUrl) { assert b[3] == "**Remote:** " + x.remoteUrl.value; }
  }

  /** Scanning two runs of entries is scanning the first and, unless it raised, the second. */
  lemma {:induction false} CollectAppend(a: seq<GitEntry>, b: seq<GitEntry>, probe: GitEntry -> ProbeResult)
    ensures Collect(a + b, probe) ==
      match Collect(a, probe)
      case Err(m) => Err(m)
      case Ok(xs) =>
        match Collect(b, probe)
        case Err(m) => Err(m)
        case Ok(ys) => Ok(xs + ys)
  {
    if a == [] {
      assert a + b == b;
      match Collect(b, probe)
      case Err(m) =>
      case Ok(ys) => assert [] + ys == ys;
    } else {
      assert (a + b)[0] == a[0];
      assert (a + b)[1..] == a[1..] + b;
      CollectAppend(a[1..], b, probe);
      match probe(a[0])
      case Failed(m) =>
      case Skip =>
      case Found(x) =>
        match Collect(a[1..], probe)
        case Err(m) =>
        case Ok(rest) =>
          match Collect(b, probe)
          case Err(m) =>
          case Ok(ys) => assert [x] + (rest + ys) == ([x] + rest) + ys;
    }
  }

  /** Scanning one more entry. */
  lemma CollectSnoc(a: seq<GitEntry>, e: GitEntry, probe: GitEntry -> ProbeResult)
    requires Collect(a, probe).Ok?
    ensures Collect(a + [e], probe) ==
      match probe(e)
      case Failed(m) => Err(m)
      case Skip => Collect(a, probe)
      case Found(x) => Ok(Collect(a, probe).value + [x])
  {
    CollectAppend(a, [e], probe);
    assert [e][1..] == [];
    var xs := Collect(a, probe).value;
    match probe(e)
    case Failed(m) =>
    case Skip =>
      assert Collect([e], probe) == Ok([]);
      assert xs + [] == xs;
    case Found(x) =>
      assert Collect([e], probe) == Ok([x] + []);
      assert [x] + [] == [x];
  }

  /** The candidates of two runs of roots, one after the other. */
  lemma {:induction false} CandidatesAppend(fs: LocalFs, a: seq<string>, b: seq<string>)
    ensures Candidates(fs, a + b) == Candidates(fs, a) + Candidates(fs, b)
  {
    if a == [] {
      assert a + b == b;
    } else {
      assert (a + b)[0] == a[0];
      assert (a + b)[1..] == a[1..] + b;
      CandidatesAppend(fs, a[1..], b);
    }
  }

  lemma {:induction false} BlocksAppend(a: seq<LocalRepo>, b: seq<LocalRepo>)
    ensures Blocks(a + b) == Blocks(a) + Blocks(b)
  {
    if a != [] {
      assert (a + b)[1..] == a[1..] + b;
      BlocksAppend(a[1..], b);
    } else {
      assert a + b == b;
    }
  }

  /** Each listed repository's block appears, whole and in order, after those of the
      repositories before it. */
  lemma ReportShowsEachRepository(xs: seq<LocalRepo>, i: nat)
    requires i < |xs|
    ensures var lines := ReportLines(xs); var at := 4 + |Blocks(xs[..i])|;
      at + |RepoBlock(xs[i])| <= |lines| && lines[at .. at + |RepoBlock(xs[i])|] == RepoBlock(xs[i])
  {
    assert xs == xs[..i] + ([xs[i]] + xs[i + 1..]);
    BlocksAppend(xs[..i], [xs[i]] + xs[i + 1..]);
    BlocksAppend([xs[i]], xs[i + 1..]);
    assert Blocks([xs[i]]) == RepoBlock(xs[i]) + Blocks([]);
  }
}
