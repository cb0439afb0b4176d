/** What the server sees of the outside world. The GitHub API (PyGithub) and the
    local machine (pathlib, GitPython) are not called: their answers are values here,
    and every handler reports, as a sequence of Call values, which external calls it
    made and in what order. */
module Remote {
  import opened Text

  /** An exception raised by PyGithub: its class name, str(e), and, for a
      GithubException, the HTTP status and the decoded JSON body. */
  datatype ApiError = ApiError(typeName: string, message: string, status: Option<StatusData>)

  /** A GithubException's status and its `data`: the decoded JSON body, or None when the
      response had no body. */
  datatype StatusData = StatusData(code: int, data: Option<map<string, string>>)

  /** One repository as yielded by user.get_repos(...). */
  datatype RepoRecord = RepoRecord(
    name: string, fullName: string, description: Option<string>, isPrivate: bool,
    language: Option<string>, stars: nat, forks: nat, updatedIso: string, htmlUrl: string)

  /** The attributes of a Repository object that get_repository_info reads. */
  datatype RepoDetail = RepoDetail(
    fullName: string, description: Option<string>, isPrivate: bool, language: Option<string>,
    stars: nat, forks: nat, watchers: nat, size: nat, defaultBranch: string,
    createdIso: string, updatedIso: string, pushedIso: Option<string>,
    cloneUrl: string, sshUrl: string, htmlUrl: string, homepage: Option<string>,
    license: Option<string>, topics: Result<seq<string>, ApiError>, openIssues: nat)

  /** decoded_content.decode('utf-8'): the text, or the UnicodeDecodeError message. */
  datatype Decoded = Decoded(text: string) | DecodeFailed(message: string)

  /** A ContentFile: `kind` is its `type` attribute ("file", "dir", "symlink", "submodule"). */
  datatype ContentItem = ContentItem(
    name: string, path: string, kind: string, size: nat,
    lastModified: Option<string>, decoded: Decoded)

  /** get_contents returns one ContentFile for a file and a list for a directory. */
  datatype Contents = SingleItem(item: ContentItem) | ItemList(items: seq<ContentItem>)

  datatype SearchHit = SearchHit(name: string, path: string, htmlUrl: string, repoFullName: string)

  /** The type= and sort= arguments of user.get_repos; type None when it is omitted. */
  datatype RepoQuery = RepoQuery(repoType: Option<string>, sort: string)

  /** The keyword arguments passed to user.create_repo; None means the key is absent. */
  datatype CreateParams = CreateParams(
    name: string, isPrivate: bool, autoInit: bool, description: Option<string>,
    gitignoreTemplate: Option<string>, licenseTemplate: Option<string>)

  datatype CreatedRepo = CreatedRepo(
    fullName: string, description: Option<string>, isPrivate: bool, defaultBranch: string,
    createdText: string, cloneUrl: string, sshUrl: string, htmlUrl: string)

  /** An authenticated PyGithub client, given by the answers it would return. */
  datatype Client = Client(
    token: string,
    userError: Option<ApiError>,
    repos: RepoQuery -> Result<seq<RepoRecord>, ApiError>,
    repo: string -> Result<RepoDetail, ApiError>,
    contents: (string, string, Option<string>) -> Result<Contents, ApiError>,
    search: string -> Result<seq<SearchHit>, ApiError>,
    create: CreateParams -> Result<CreatedRepo, ApiError>)

  datatype GitRemote = GitRemote(name: string, url: string)

  /** HEAD of a working copy: on a branch (whose tip may not exist yet), or detached. */
  datatype HeadState = OnBranch(branch: string, commit: Option<string>) | Detached(sha: string)

  /** What git.Repo(path) finds at a directory holding a `.git` entry. */
  datatype GitProbe = NotARepository | WorkingCopy(remotes: seq<GitRemote>, head: HeadState, dirty: bool)

  /** One `.git` entry found by rglob under a search root: whether it is a directory,
      the path of its parent (the working copy) and what GitPython makes of that parent. */
  datatype GitEntry = GitEntry(isDir: bool, repoPath: string, probe: GitProbe)

  datatype CloneRequest = CloneRequest(url: string, dest: string, branch: Option<string>)

  /** A fresh clone: its active branch (or the TypeError message) and its commit count. */
  datatype ClonedRepo = ClonedRepo(activeBranch: Result<string, string>, commitCount: nat)

  /** The local machine: home and working directories, which paths exist, the `.git`
      entries under each directory, the outcome of creating a path's parents, of cloning. */
  datatype LocalFs = LocalFs(
    home: string, cwd: string,
    pathExists: string -> bool,
    gitEntries: string -> seq<GitEntry>,
    mkdirError: string -> Option<string>,
    clone: CloneRequest -> Result<ClonedRepo, string>)

  /** An external call a handler made. */
  datatype Call =
    | GetUser
    | IterateRepos(query: RepoQuery, received: nat)
    | GetRepo(name: string)
    | GetTopics(name: string)
    | GetContents(repo: string, path: string, ref: Option<string>)
    | SearchCode(searchQuery: string)
    | CreateRepo(params: CreateParams)
    | MakeParentDirs(path: string)
    | CloneFrom(request: CloneRequest)

  /** The text of the one block a handler returns, and the calls it made. */
  datatype Outcome = Outcome(text: string, calls: seq<Call>)
}
