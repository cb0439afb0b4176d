/** GitHubMCPServer: the one piece of state (the PyGithub client, absent until
    init_github_client succeeds), the binding of a tool call's `arguments` dictionary to
    the handler's keyword parameters, and handle_call_tool, which answers every call
    with exactly one text block. */
module Server {
  import opened Text
  import opened Remote
  import Listing
  import Browse
  import Search
  import Clone
  import LocalRepos
  import Create
  import Info
  import Handlers

  const NotInitialized := "Error: GitHub client not initialized. Please set GITHUB_TOKEN environment variable."
  const TokenRequired := "GITHUB_TOKEN environment variable is required"

  /** A JSON value given as a tool argument. */
  datatype Arg = StrArg(s: string) | IntArg(i: int) | BoolArg(b: bool) | NullArg

  /** The `arguments` dictionary as its items in insertion order. */
  type Arguments = seq<(string, Arg)>

  /** A keyword parameter of a handler; `required` when it has no default. */
  datatype Param = Param(name: string, required: bool)

  const ToolNames: set<string> := {
    "list_repositories", "get_repository_info", "browse_repository", "read_file", "search_files",
    "search_code", "clone_repository", "list_local_repositories", "create_repository"}

  /** The keyword parameters of the handler each tool name is dispatched to. */
  function Signature(tool: string): (r: Option<seq<Param>>)
    ensures r.Some? <==> tool in ToolNames
  {
    if tool == "list_repositories" then
      Some([Param("repo_type", false), Param("sort", false), Param("limit", false)])
    else if tool == "get_repository_info" then Some([Param("repo_name", true)])
    else if tool == "browse_repository" then
      Some([Param("repo_name", true), Param("path", false), Param("ref", false)])
    else if tool == "read_file" then
      Some([Param("repo_name", true), Param("file_path", true), Param("ref", false)])
    else if tool == "search_files" then
      Some([Param("repo_name", true), Param("query", true), Param("file_type", false)])
    else if tool == "search_code" then
      Some([Param("repo_name", true), Param("query", true), Param("language", false)])
    else if tool == "clone_repository" then
      Some([Param("repo_name", true), Param("local_path", false), Param("branch", false)])
    else if tool == "list_local_repositories" then Some([Param("base_path", false)])
    else if tool == "create_repository" then
      Some([Param("name", true), Param("description", false), Param("private", false),
            Param("init_readme", false), Param("gitignore_template", false), Param("license_template", false)])
    else None
  }

  /** The handler's __qualname__, which CPython puts at the head of its binding errors. */
  function Qualname(tool: string): string {
    "GitHubMCPServer._" + tool
  }

  predicate IsParam(params: seq<Param>, k: string) {
    exists i :: 0 <= i < |params| && params[i].name == k
  }

  predicate IsRequired(params: seq<Param>, k: string) {
    exists i :: 0 <= i < |params| && params[i].name == k && params[i].required
  }

  predicate Given(args: Arguments, k: string) {
    exists i :: 0 <= i < |args| && args[i].0 == k
  }

  /** The first key, in dictionary order, that names no keyword parameter. The handlers
      are bound methods, so `self` is already filled and is never one of these. */
  function FirstUnexpected(args: Arguments, params: seq<Param>): (r: Option<string>)
    ensures r.None? <==> forall i :: 0 <= i < |args| ==> IsParam(params, args[i].0)
    ensures r.Some? ==> Given(args, r.value) && !IsParam(params, r.value)
  {
    if args == [] then None
    else if !IsParam(params, args[0].0) then Some(args[0].0)
    else
      var r := FirstUnexpected(args[1..], params);
      assert forall i :: 1 <= i < |args| ==> args[i] == args[1..][i - 1];
      r
  }

  /** The required parameters that no key names, in declaration order. */
  function MissingRequired(params: seq<Param>, args: Arguments): (r: seq<string>)
    ensures forall i :: 0 <= i < |r| ==> !Given(args, r[i]) && IsRequired(params, r[i])
  {
    if params == [] then []
    else
      var rest := MissingRequired(params[1..], args);
      assert forall k :: IsRequired(params[1..], k) ==> IsRequired(params, k) by {
        forall k | IsRequired(params[1..], k) ensures IsRequired(params, k) {
          var i :| 0 <= i < |params[1..]| && params[1..][i].name == k && params[1..][i].required;
          assert params[i + 1].name == k && params[i + 1].required;
        }
      }
      (if params[0].required && !Given(args, params[0].name) then [params[0].name] else []) + rest
  }

  function Quote(name: string): string {
    "'" + name + "'"
  }

  /** CPython's list of missing names: 'a'; 'a' and 'b'; 'a', 'b', and 'c'. */
  function QuotedNames(names: seq<string>): string {
    if names == [] then ""
    else if |names| == 1 then Quote(names[0])
    else if |names| == 2 then Quote(names[0]) + " and " + Quote(names[1])
    else Join(", ", seq(|names| - 1, i requires 0 <= i < |names| - 1 => Quote(names[i]))) +
         ", and " + Quote(names[|names| - 1])
  }

  /** CPython's TypeError for a keyword the handler does not take. */
  function UnexpectedMessage(tool: string, k: string): string {
    Qualname(tool) + "() got an unexpected keyword argument '" + k + "'"
  }

  /** CPython's TypeError for a keyword that names the parameter the bound method
      already filled with the server object. */
  function MultipleValuesMessage(tool: string, k: string): string {
    Qualname(tool) + "() got multiple values for argument '" + k + "'"
  }

  /** The TypeError for the first key that does not fit: `self` is a parameter given
      twice, any other such key is unexpected. */
  function KeywordMessage(tool: string, k: string): string {
    if k == "self" then MultipleValuesMessage(tool, k) else UnexpectedMessage(tool, k)
  }

  /** CPython's TypeError for required parameters that were not given. */
  function MissingMessage(tool: string, missing: seq<string>): string {
    Qualname(tool) + "() missing " + NatToString(|missing|) + " required positional argument" +
    (if |missing| == 1 then "" else "s") + ": " + QuotedNames(missing)
  }

  /** The TypeError CPython raises when the keyword arguments do not fit the handler:
      an unknown keyword is reported before missing required ones. */
  function BindError(tool: string, params: seq<Param>, args: Arguments): Option<string> {
    match FirstUnexpected(args, params)
    case Some(k) => Some(KeywordMessage(tool, k))
    case None =>
      var missing := MissingRequired(params, args);
      if missing == [] then None else Some(MissingMessage(tool, missing))
  }

  /** The value under a key. */
  function Lookup(args: Arguments, k: string): (r: Option<Arg>)
    ensures r.Some? <==> Given(args, k)
  {
    if args == [] then None
    else if args[0].0 == k then Some(args[0].1)
    else
      var r := Lookup(args[1..], k);
      assert forall i :: 1 <= i < |args| ==> args[i] == args[1..][i - 1];
      r
  }

  function KindError(k: string): string {
    "argument '" + k + "' has the wrong type"
  }

  function Str(args: Arguments, k: string, default: string): Result<string, string> {
    match Lookup(args, k)
    case None => Ok(default)
    case Some(StrArg(s)) => Ok(s)
    case Some(_) => Err(KindError(k))
  }

  /** A text parameter whose default is None; JSON null is None as well. */
  function OptStr(args: Arguments, k: string): Result<Option<string>, string> {
    match Lookup(args, k)
    case None => Ok(None)
    case Some(NullArg) => Ok(None)
    case Some(StrArg(s)) => Ok(Some(s))
    case Some(_) => Err(KindError(k))
  }

  function Int(args: Arguments, k: string, default: int): Result<int, string> {
    match Lookup(args, k)
    case None => Ok(default)
    case Some(IntArg(n)) => Ok(n)
    case Some(_) => Err(KindError(k))
  }

  function Bool(args: Arguments, k: string, default: bool): Result<bool, string> {
    match Lookup(args, k)
    case None => Ok(default)
    case Some(BoolArg(b)) => Ok(b)
    case Some(_) => Err(KindError(k))
  }

  /** A call bound to its handler: the handler and its argument values, defaults filled in. */
  datatype Request =
    | ListRepositoriesArgs(repoType: string, sort: string, limit: int)
    | GetRepositoryInfoArgs(repoName: string)
    | BrowseRepositoryArgs(repoName: string, path: string, ref: Option<string>)
    | ReadFileArgs(repoName: string, filePath: string, ref: Option<string>)
    | SearchFilesArgs(repoName: string, query: string, fileType: Option<string>)
    | SearchCodeArgs(repoName: string, query: string, language: Option<string>)
    | CloneRepositoryArgs(repoName: string, localPath: Option<string>, branch: Option<string>)
    | ListLocalRepositoriesArgs(basePath: Option<string>)
    | CreateRepositoryArgs(name: string, description: Option<string>, isPrivate: bool, initReadme: bool,
                           gitignore: Option<string>, license: Option<string>)

  /** The argument values with the handler's defaults: repo_type "all", sort "updated",
      limit 30, path "", private False, init_readme True, every other optional None. */
  function Values(tool: string, args: Arguments): Result<Request, string> {
    if tool == "list_repositories" then
      var repoType :- Str(args, "repo_type", "all");
      var sort :- Str(args, "sort", "updated");
      var limit :- Int(args, "limit", 30);
      Ok(ListRepositoriesArgs(repoType, sort, limit))
    else if tool == "get_repository_info" then
      var repoName :- Str(args, "repo_name", "");
      Ok(GetRepositoryInfoArgs(repoName))
    else if tool == "browse_repository" then
      var repoName :- Str(args, "repo_name", "");
      var path :- Str(args, "path", "");
      var ref :- OptStr(args, "ref");
      Ok(BrowseRepositoryArgs(repoName, path, ref))
    else if tool == "read_file" then
      var repoName :- Str(args, "repo_name", "");
      var filePath :- Str(args, "file_path", "");
      var ref :- OptStr(args, "ref");
      Ok(ReadFileArgs(repoName, filePath, ref))
    else if tool == "search_files" then
      var repoName :- Str(args, "repo_name", "");
      var query :- Str(args, "query", "");
      var fileType :- OptStr(args, "file_type");
      Ok(SearchFilesArgs(repoName, query, fileType))
    else if tool == "search_code" then
      var repoName :- Str(args, "repo_name", "");
      var query :- Str(args, "query", "");
      var language :- OptStr(args, "language");
      Ok(SearchCodeArgs(repoName, query, language))
    else if tool == "clone_repository" then
      var repoName :- Str(args, "repo_name", "");
      var localPath :- OptStr(args, "local_path");
      var branch :- OptStr(args, "branch");
      Ok(CloneRepositoryArgs(repoName, localPath, branch))
    else if tool == "list_local_repositories" then
      var basePath :- OptStr(args, "base_path");
      Ok(ListLocalRepositoriesArgs(basePath))
    else
      var name :- Str(args, "name", "");
      var description :- OptStr(args, "description");
      var isPrivate :- Bool(args, "private", false);
      var initReadme :- Bool(args, "init_readme", true);
      var gitignore :- OptStr(args, "gitignore_template");
      var license :- OptStr(args, "license_template");
      Ok(CreateRepositoryArgs(name, description, isPrivate, initReadme, gitignore, license))
  }

  /** `await self._{tool}(**arguments)` up to the handler's first statement. */
  function Bind(tool: string, params: seq<Param>, args: Arguments): Result<Request, string> {
    match BindError(tool, params, args)
    case Some(m) => Err(m)
    case None => Values(tool, args)
  }

  /** The answer of the handler a request is bound to. */
  function Run(client: Client, fs: LocalFs, req: Request): Outcome {
    match req
    case ListRepositoriesArgs(t, s, l) => Listing.ListOutcome(client, t, s, l)
    case GetRepositoryInfoArgs(r) => Info.InfoOutcome(client, r)
    case BrowseRepositoryArgs(r, p, ref) => Browse.BrowseOutcome(client, r, p, ref)
    case ReadFileArgs(r, p, ref) => Info.ReadOutcome(client, r, p, ref)
    case SearchFilesArgs(r, q, t) => Search.SearchFilesOutcome(client, r, q, t)
    case SearchCodeArgs(r, q, l) => Search.SearchCodeOutcome(client, r, q, l)
    case CloneRepositoryArgs(r, p, b) => Clone.CloneOutcome(client, fs, r, p, b)
    case ListLocalRepositoriesArgs(b) => LocalRepos.LocalReposOutcome(fs, b, LocalRepos.ProbeAsWritten)
    case CreateRepositoryArgs(n, d, p, i, g, l) => Create.CreateOutcome(client, n, d, p, i, g, l)
  }

  /** handle_call_tool: the answer to a call of tool `name`, and the external calls made. */
  function Dispatch(client: Option<Client>, fs: LocalFs, name: string, args: Arguments): Outcome {
    if client.None? then Outcome(NotInitialized, [])
    else
      match Signature(name)
      case None => Outcome("Unknown tool: " + name, [])
      case Some(params) =>
        match Bind(name, params, args)
        case Err(m) => Outcome("Error executing " + name + ": " + m, [])
        case Ok(req) => Run(client.value, fs, req)
  }

  /** The awaited handler call of handle_call_tool: the handlers that loop run as methods. */
  method Execute(client: Client, fs: LocalFs, req: Request) returns (out: Outcome)
    ensures out == Run(client, fs, req)
  {
    match req
    case ListRepositoriesArgs(t, s, l) => out := Handlers.ListRepositories(client, t, s, l);
    case GetRepositoryInfoArgs(r) => out := Info.InfoOutcome(client, r);
    case BrowseRepositoryArgs(r, p, ref) => out := Handlers.BrowseRepository(client, r, p, ref);
    case ReadFileArgs(r, p, ref) => out := Info.ReadOutcome(client, r, p, ref);
    case SearchFilesArgs(r, q, t) => out := Handlers.SearchFiles(client, r, q, t);
    case SearchCodeArgs(r, q, l) => out := Handlers.SearchCodeMatches(client, r, q, l);
    case CloneRepositoryArgs(r, p, b) => out := Clone.CloneOutcome(client, fs, r, p, b);
    case ListLocalRepositoriesArgs(b) => out := Handlers.ListLocalRepositories(fs, b, LocalRepos.ProbeAsWritten);
    case CreateRepositoryArgs(n, d, p, i, g, l) => out := Handlers.CreateRepository(client, n, d, p, i, g, l);
  }

  class GitHubMCPServer {
    var githubClient: Option<Client>

    constructor()
      ensures githubClient == None
    {
      githubClient := None;
    }

    /** init_github_client: without a token nothing changes and ValueError is raised;
        otherwise the client is stored first and then tried with get_user, so a failed
        connection still leaves it set. `connect` stands for Github(token). */
    method InitGithubClient(token: Option<string>, connect: string -> Client) returns (error: Option<string>)
      modifies this
      ensures !Truthy(token) ==> error == Some(TokenRequired) && githubClient == old(githubClient)
      ensures Truthy(token) ==> githubClient == Some(connect(token.value))
      ensures Truthy(token) ==> (error.None? <==> connect(token.value).userError.None?)
      ensures Truthy(token) && error.Some? ==>
              error.value == "Failed to connect to GitHub: " + connect(token.value).userError.value.message
    {
      if !Truthy(token) {
        return Some(TokenRequired);
      }
      githubClient := Some(connect(token.value));
      var user := connect(token.value).userError;
      if user.Some? {
        return Some("Failed to connect to GitHub: " + user.value.message);
      }
      error := None;
    }

    /** run: the server starts serving only when the client was set up. */
    method Run(token: Option<string>, connect: string -> Client) returns (serving: bool)
      modifies this
      ensures serving <==> Truthy(token) && connect(token.value).userError.None?
      ensures serving ==> githubClient == Some(connect(token.value))
    {
      var error := InitGithubClient(token, connect);
      serving := error.None?;
    }

    /** handle_call_tool: exactly one text block, fixed when there is no client, and
        otherwise the dispatched handler's answer. */
    method HandleCallTool(name: string, args: Arguments, fs: LocalFs) returns (blocks: seq<string>, calls: seq<Call>)
      ensures |blocks| == 1
      ensures Outcome(blocks[0], calls) == Dispatch(githubClient, fs, name, args)
      ensures githubClient.None? ==> blocks == [NotInitialized] && calls == []
    {
      if githubClient.None? {
        return [NotInitialized], [];
      }
      var client := githubClient.value;
      var params := Signature(name);
      if params.None? {
        return ["Unknown tool: " + name], [];
      }
      var bound := Bind(name, params.value, args);
      if bound.Err? {
        return ["Error executing " + name + ": " + bound.error], [];
      }
      var out := Execute(client, fs, bound.value);
      blocks, calls := [out.text], out.calls;
    }
  }

  /** A name that is not one of the nine tools is answered "Unknown tool: {name}". */
  lemma UnknownToolAnswer(client: Client, fs: LocalFs, name: string, args: Arguments)
    requires name !in ToolNames
    ensures Dispatch(Some(client), fs, name, args) == Outcome("Unknown tool: " + name, [])
  {
  }

  /** The key CPython complains about is the first, in dictionary order, that names no
      parameter. */
  lemma {:induction false} FirstUnexpectedIsFirst(args: Arguments, params: seq<Param>, i: nat)
    requires i < |args| && !IsParam(params, args[i].0)
    requires forall j :: 0 <= j < i ==> IsParam(params, args[j].0)
    ensures FirstUnexpected(args, params) == Some(args[i].0)
  {
    if i > 0 {
      assert IsParam(params, args[0].0);
      forall j | 0 <= j < i - 1 ensures IsParam(params, args[1..][j].0) {
        assert args[1..][j] == args[j + 1];
      }
      FirstUnexpectedIsFirst(args[1..], params, i - 1);
    }
  }

  /** A keyword the handler does not take is answered with CPython's TypeError, naming
      the first such keyword: "got multiple values" for `self`, "got an unexpected
      keyword argument" for any other; no handler runs. */
  lemma UnexpectedKeywordAnswer(client: Client, fs: LocalFs, name: string, params: seq<Param>, args: Arguments, i: nat)
    requires Signature(name) == Some(params)
    requires i < |args| && !IsParam(params, args[i].0)
    requires forall j :: 0 <= j < i ==> IsParam(params, args[j].0)
    ensures Dispatch(Some(client), fs, name, args) ==
            Outcome("Error executing " + name + ": " + KeywordMessage(name, args[i].0), [])
    ensures args[i].0 == "self" ==> KeywordMessage(name, args[i].0) == MultipleValuesMessage(name, "self")
    ensures args[i].0 != "self" ==> KeywordMessage(name, args[i].0) == UnexpectedMessage(name, args[i].0)
  {
    UnexpectedKeywordRefused(name, params, args, i);
    DispatchRefused(client, fs, name, params, args, KeywordMessage(name, args[i].0));
  }

  lemma UnexpectedKeywordRefused(name: string, params: seq<Param>, args: Arguments, i: nat)
    requires i < |args| && !IsParam(params, args[i].0)
    requires forall j :: 0 <= j < i ==> IsParam(params, args[j].0)
    ensures Bind(name, params, args) == Err(KeywordMessage(name, args[i].0))
  {
    FirstUnexpectedIsFirst(args, params, i);
  }

  /** A call whose arguments do not bind is answered with the binding error. */
  lemma DispatchRefused(client: Client, fs: LocalFs, name: string, params: seq<Param>, args: Arguments, m: string)
    requires Signature(name) == Some(params) && Bind(name, params, args) == Err(m)
    ensures Dispatch(Some(client), fs, name, args) == Outcome("Error executing " + name + ": " + m, [])
  {
  }

  /** A call whose arguments bind is answered by the handler they bind to. */
  lemma DispatchBound(client: Client, fs: LocalFs, name: string, params: seq<Param>, args: Arguments, req: Request)
    requires Signature(name) == Some(params) && Bind(name, params, args) == Ok(req)
    ensures Dispatch(Some(client), fs, name, args) == Run(client, fs, req)
  {
  }

  /** Every required parameter without a key is reported, in declaration order. */
  lemma {:induction false} MissingRequiredComplete(params: seq<Param>, args: Arguments, k: nat)
    requires k < |params| && params[k].required && !Given(args, params[k].name)
    ensures params[k].name in MissingRequired(params, args)
  {
    if k > 0 {
      assert params[1..][k - 1] == params[k];
      MissingRequiredComplete(params[1..], args, k - 1);
    }
  }

  /** When every keyword is known but a required one is absent, the answer is CPython's
      "missing ... required positional argument" TypeError listing it, and no handler runs. */
  lemma MissingArgumentAnswer(client: Client, fs: LocalFs, name: string, params: seq<Param>, args: Arguments, k: nat)
    requires Signature(name) == Some(params)
    requires forall i :: 0 <= i < |args| ==> IsParam(params, args[i].0)
    requires k < |params| && params[k].required && !Given(args, params[k].name)
    ensures params[k].name in MissingRequired(params, args)
    ensures Dispatch(Some(client), fs, name, args) ==
            Outcome("Error executing " + name + ": " + MissingMessage(name, MissingRequired(params, args)), [])
  {
    MissingRequiredComplete(params, args, k);
    DispatchRefused(client, fs, name, params, args, MissingMessage(name, MissingRequired(params, args)));
  }

  /** Nothing is reported missing when every required parameter has a key. */
  lemma {:induction false} MissingRequiredNone(params: seq<Param>, args: Arguments)
    requires forall i :: 0 <= i < |params| && params[i].required ==> Given(args, params[i].name)
    ensures MissingRequired(params, args) == []
  {
    if params != [] {
      assert forall i :: 0 <= i < |params[1..]| ==> params[1..][i] == params[i + 1];
      MissingRequiredNone(params[1..], args);
    }
  }

  /** GitHub and the local machine are reached only with a client, a known tool and
      arguments that bind; binding errors and unknown tools call nothing. */
  lemma ExternalCallsNeedBoundCall(client: Option<Client>, fs: LocalFs, name: string, args: Arguments)
    requires Dispatch(client, fs, name, args).calls != []
    ensures client.Some? && name in ToolNames
    ensures Bind(name, Signature(name).value, args).Ok?
    ensures Dispatch(client, fs, name, args) == Run(client.value, fs, Bind(name, Signature(name).value, args).value)
  {
  }

  /** Called with no arguments, list_repositories uses its defaults: every type, sorted
      by update time, at most 30. */
  lemma ListRepositoriesDefaults()
    ensures Bind("list_repositories", Signature("list_repositories").value, []) ==
            Ok(ListRepositoriesArgs("all", "updated", 30))
  {
    var params := Signature("list_repositories").value;
    assert FirstUnexpected([], params) == None;
    MissingRequiredNone(params, []);
  }

  /** Called with a name only, create_repository makes a public repository with a README
      and no description or templates. */
  lemma CreateRepositoryDefaults(name: string)
    ensures Bind("create_repository", Signature("create_repository").value, [("name", StrArg(name))]) ==
            Ok(CreateRepositoryArgs(name, None, false, true, None, None))
  {
    var args := [("name", StrArg(name))];
    var params := Signature("create_repository").value;
    assert IsParam(params, "name") by { assert params[0].name == "name"; }
    assert FirstUnexpected(args, params) == None by {
      assert args[1..] == [];
    }
    assert Given(args, "name") by { assert args[0].0 == "name"; }
    MissingRequiredNone(params, args);
    assert BindError("create_repository", params, args) == None;
    assert Str(args, "name", "") == Ok(name);
    assert OptStr(args, "description") == Ok(None);
    assert Bool(args, "private", false) == Ok(false);
    assert Bool(args, "init_readme", true) == Ok(true);
    assert OptStr(args, "gitignore_template") == Ok(None);
    assert OptStr(args, "license_template") == Ok(None);
  }
}
