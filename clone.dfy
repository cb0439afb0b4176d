/** clone_repository: where the clone goes, and the rule that it never clones into a
    path that already exists. */
module Clone {
  import opened Text
  import opened Paths
  import opened Remote

  const ErrorPrefix := "Error cloning repository: "

  /** `owner, repo_name_only = repo_name.split('/')`: the two halves, or the ValueError
      message of the unpacking (CPython 3.12 wording). */
  function OwnerAndName(repoName: string): (r: Result<(string, string), string>)
    ensures r.Ok? <==> Count('/', repoName) == 1
    ensures r.Ok? ==> r.value.0 + "/" + r.value.1 == repoName && '/' !in r.value.0 && '/' !in r.value.1
  {
    var parts := Split(repoName, '/');
    SplitCount(repoName);
    if |parts| == 1 then Err("not enough values to unpack (expected 2, got 1)")
    else if |parts| == 2 then
      JoinSplit(repoName, '/');
      assert Join("/", parts) == parts[0] + "/" + parts[1] by { assert parts[1..] == [parts[1]]; }
      Ok((parts[0], parts[1]))
    else Err("too many values to unpack (expected 2)")
  }

  /** s.split(c) has one more piece than s has separators. */
  lemma {:induction false} SplitCount(s: string)
    ensures |Split(s, '/')| == Count('/', s) + 1
  {
    if s != [] {
      SplitCount(s[1..]);
      CountFront('/', s);
    }
  }

  lemma {:induction false} CountFront(c: char, s: string)
    requires s != []
    ensures Count(c, s) == (if s[0] == c then 1 else 0) + Count(c, s[1..])
  {
    if |s| > 1 {
      var init := s[..|s| - 1];
      CountFront(c, init);
      assert init[1..] == s[1..][..|s[1..]| - 1];
      assert init[0] == s[0];
    } else {
      assert s[1..] == [];
      assert s[..0] == [];
    }
  }

  /** The path the clone goes to: local_path when it is truthy, else ~/github/owner/repo. */
  function Destination(fs: LocalFs, repoName: string, localPath: Option<string>): Result<string, string> {
    if Truthy(localPath) then Ok(NormPath(localPath.value))
    else
      match OwnerAndName(repoName)
      case Err(m) => Err(m)
      case Ok(on) => Ok(Under(fs.home, "github/" + on.0 + "/" + on.1))
  }

  function ExistsMessage(dest: string): string {
    "Error: Directory '" + dest + "' already exists. Choose a different path or remove the existing directory."
  }

  function ClonedLines(repoName: string, dest: string, branch: string, commits: nat): seq<string> {
    [ "# Repository Cloned Successfully", "",
      "**Repository:** " + repoName,
      "**Local Path:** " + dest,
      "**Branch:** " + branch,
      "**Commits:** " + NatToString(commits), "",
      "The repository has been cloned to your local filesystem and is ready for development!" ]
  }

  /** What Repo.clone_from is asked for: the repository's clone URL, the destination,
      and branch= only when the branch argument is truthy. */
  function RequestFor(r: RepoDetail, dest: string, branch: Option<string>): CloneRequest {
    CloneRequest(r.cloneUrl, dest, if Truthy(branch) then branch else None)
  }

  /** The answer of clone_repository and the calls it makes. */
  function CloneOutcome(client: Client, fs: LocalFs, repoName: string, localPath: Option<string>,
                        branch: Option<string>): Outcome {
    match client.repo(repoName)
    case Err(e) => Outcome(ErrorPrefix + e.message, [GetRepo(repoName)])
    case Ok(r) =>
      match Destination(fs, repoName, localPath)
      case Err(m) => Outcome(ErrorPrefix + m, [GetRepo(repoName)])
      case Ok(dest) =>
        var calls := [GetRepo(repoName), MakeParentDirs(dest)];
        if fs.mkdirError(dest).Some? then Outcome(ErrorPrefix + fs.mkdirError(dest).value, calls)
        else if fs.pathExists(dest) then Outcome(ExistsMessage(dest), calls)
        else
          var req := RequestFor(r, dest, branch);
          match fs.clone(req)
          case Err(m) => Outcome(ErrorPrefix + m, calls + [CloneFrom(req)])
          case Ok(c) =>
            match c.activeBranch
            case Err(m) => Outcome(ErrorPrefix + m, calls + [CloneFrom(req)])
            case Ok(b) => Outcome(Unlines(ClonedLines(repoName, dest, b, c.commitCount)), calls + [CloneFrom(req)])
  }

  /** Without local_path the destination is home/github/owner/repo, joined as pathlib
      joins: it keeps the home directory's root ("/" for a home of "/", with no doubled
      slash) and its components, followed by "github" and the two halves of the name
      (an empty or "." half is dropped, as pathlib drops it). */
  lemma DefaultDestination(fs: LocalFs, repoName: string, owner: string, name: string)
    requires OwnerAndName(repoName) == Ok((owner, name))
    ensures Destination(fs, repoName, None) == Ok(Under(fs.home, "github/" + owner + "/" + name))
    ensures Root(Destination(fs, repoName, None).value) == Root(fs.home)
    ensures Components(Destination(fs, repoName, None).value) ==
            Components(fs.home) + Keep(["github", owner, name])
  {
    GithubFolder(fs.home, owner, name);
  }

  lemma GithubFolder(home: string, owner: string, name: string)
    requires '/' !in owner && '/' !in name
    ensures Root(Under(home, "github/" + owner + "/" + name)) == Root(home)
    ensures Components(Under(home, "github/" + owner + "/" + name)) == Components(home) + Keep(["github", owner, name])
  {
    var rel := "github/" + owner + "/" + name;
    UnderParts(home, rel);
    JoinThree(owner, name);
    assert rel == Join("/", ["github", owner, name]);
    SplitJoin(["github", owner, name], '/');
  }

  lemma JoinThree(owner: string, name: string)
    ensures Join("/", ["github", owner, name]) == "github" + "/" + owner + "/" + name
  {
    assert ["github", owner, name][1..] == [owner, name];
    assert [owner, name][1..] == [name];
    assert Join("/", [name]) == name;
    assert Join("/", [owner, name]) == owner + "/" + name;
  }


  /** clone_from is called only for a destination that did not exist, with the
      repository's clone URL; when the destination exists the answer says so and
      nothing is cloned. */
  lemma CloneNeverOverwrites(client: Client, fs: LocalFs, repoName: string, localPath: Option<string>,
                             branch: Option<string>, req: CloneRequest)
    requires CloneFrom(req) in CloneOutcome(client, fs, repoName, localPath, branch).calls
    ensures client.repo(repoName).Ok? && req.url == client.repo(repoName).value.cloneUrl
    ensures Destination(fs, repoName, localPath) == Ok(req.dest)
    ensures !fs.pathExists(req.dest) && fs.mkdirError(req.dest).None?
    ensures req.branch.Some? <==> Truthy(branch)
  {
    CloneCalls(client, fs, repoName, localPath, branch);
  }

  /** The calls clone_repository makes: get_repo, then makedirs for a destination,
      then clone_from when nothing is in the way. */
  lemma CloneCalls(client: Client, fs: LocalFs, repoName: string, localPath: Option<string>, branch: Option<string>)
    ensures client.repo(repoName).Err? || Destination(fs, repoName, localPath).Err? ==>
            CloneOutcome(client, fs, repoName, localPath, branch).calls == [GetRepo(repoName)]
    ensures client.repo(repoName).Ok? && Destination(fs, repoName, localPath).Ok? ==>
            CloneOutcome(client, fs, repoName, localPath, branch).calls ==
            [GetRepo(repoName), MakeParentDirs(Destination(fs, repoName, localPath).value)] +
            (if fs.mkdirError(Destination(fs, repoName, localPath).value).Some? ||
                fs.pathExists(Destination(fs, repoName, localPath).value) then []
             else [CloneFrom(RequestFor(client.repo(repoName).value, Destination(fs, repoName, localPath).value, branch))])
  {
  }

  lemma ExistingDestinationIsRefused(client: Client, fs: LocalFs, repoName: string, localPath: Option<string>,
                                     branch: Option<string>, dest: string)
    requires client.repo(repoName).Ok? && Destination(fs, repoName, localPath) == Ok(dest)
    requires fs.mkdirError(dest).None? && fs.pathExists(dest)
    ensures CloneOutcome(client, fs, repoName, localPath, branch) ==
            Outcome(ExistsMessage(dest), [GetRepo(repoName), MakeParentDirs(dest)])
  {
  }
}
