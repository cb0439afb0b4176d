/** create_repository: the name check, the keyword arguments passed to create_repo, the
    success text and the classification of GitHub errors. */
module Create {
  import opened Text
  import opened Remote

  const EmptyNameMessage := "Error: Repository name cannot be empty"

  /** An optional text argument after `if x and x.strip(): params[k] = x.strip()`:
      present, and stripped, only when it holds something besides whitespace. */
  function CleanOptional(o: Option<string>): (r: Option<string>)
    ensures r.None? <==> o.None? || AllSpace(o.value)
    ensures r.Some? ==> r.value != "" && r.value == Strip(o.value)
  {
    if o.None? then None
    else
      StripSplits(o.value);
      if Strip(o.value) != "" then Some(Strip(o.value)) else None
  }

  /** CleanOptional is the guard `x and x.strip()` of the handler. */
  lemma CleanOptionalGuard(o: Option<string>)
    ensures CleanOptional(o) == if Truthy(o) && Strip(o.value) != "" then Some(Strip(o.value)) else None
  {
    if o.Some? && o.value == "" {
      assert StripStart(o.value) == "";
    }
  }

  function ParamsFor(name: string, description: Option<string>, isPrivate: bool, initReadme: bool,
                     gitignore: Option<string>, license: Option<string>): CreateParams {
    CreateParams(Strip(name), isPrivate, initReadme, CleanOptional(description),
                 CleanOptional(gitignore), CleanOptional(license))
  }

  /** The message for an exception raised by get_user or create_repo: a GithubException
      (one with a status) by its status code, any other by its class name and text. */
  function ErrorText(e: ApiError, name: string): string {
    match e.status
    case None => "Error creating repository: " + e.typeName + ": " + e.message
    case Some(st) =>
      if st.code == 422 then "Repository creation failed: Repository '" + name + "' already exists or invalid parameters"
      else if st.code == 403 then "Repository creation failed: Insufficient permissions or rate limit exceeded"
      else if st.code == 401 then "Repository creation failed: Authentication failed - check your GitHub token"
      else
        match st.data
        case None => NoBodyMessage
        case Some(data) =>
          "GitHub API Error " + IntToString(st.code) + ": " + (if "message" in data then data["message"] else e.message)
  }

  /** `e.data.get(...)` on a None body raises AttributeError inside the except clause; it
      escapes the handler and handle_call_tool answers with it. */
  const NoBodyMessage := "Error executing create_repository: 'NoneType' object has no attribute 'get'"

  function CreatedLines(r: CreatedRepo, name: string): seq<string> {
    [ "# Repository Created Successfully!", "",
      "**Repository:** " + r.fullName,
      "**Description:** " + OrElse(r.description, "No description"),
      "**Visibility:** " + (if r.isPrivate then "Private" else "Public"),
      "**Default Branch:** " + r.defaultBranch, "",
      "## Repository Details",
      "- **Created:** " + r.createdText,
      "- **Clone URL (HTTPS):** " + r.cloneUrl,
      "- **Clone URL (SSH):** " + r.sshUrl,
      "- **Repository URL:** " + r.htmlUrl, "",
      "## Quick Start",
      "```bash",
      "# Clone your new repository",
      "git clone " + r.cloneUrl,
      "cd " + name, "",
      "# Start developing!",
      "```", "",
      "Your new repository is ready for development!" ]
  }

  /** The answer of create_repository and the calls it makes. */
  function CreateOutcome(client: Client, name: string, description: Option<string>, isPrivate: bool,
                         initReadme: bool, gitignore: Option<string>, license: Option<string>): Outcome {
    if client.userError.Some? then Outcome(ErrorText(client.userError.value, name), [GetUser])
    else if Strip(name) == "" then Outcome(EmptyNameMessage, [GetUser])
    else
      var p := ParamsFor(name, description, isPrivate, initReadme, gitignore, license);
      match client.create(p)
      case Err(e) => Outcome(ErrorText(e, name), [GetUser, CreateRepo(p)])
      case Ok(r) => Outcome(Unlines(CreatedLines(r, name)), [GetUser, CreateRepo(p)])
  }

  /** create_repo is called at most once, after get_user, only for a name with something
      besides whitespace, and with the parameters ParamsFor builds. */
  lemma CreatesOnlyNamedRepositories(client: Client, name: string, description: Option<string>, isPrivate: bool,
                                     initReadme: bool, gitignore: Option<string>, license: Option<string>,
                                     p: CreateParams)
    requires CreateRepo(p) in CreateOutcome(client, name, description, isPrivate, initReadme, gitignore, license).calls
    ensures client.userError.None? && !AllSpace(name)
    ensures p == ParamsFor(name, description, isPrivate, initReadme, gitignore, license)
    ensures CreateOutcome(client, name, description, isPrivate, initReadme, gitignore, license).calls ==
            [GetUser, CreateRepo(p)]
  {
    CreateCalls(client, name, description, isPrivate, initReadme, gitignore, license);
    StripSplits(name);
  }

  /** The parameters passed to create_repo: the name stripped of surrounding whitespace,
      private and auto_init as given, and each optional text either left out (absent or
      blank) or stripped and non-empty. */
  lemma ParamsAreClean(name: string, description: Option<string>, isPrivate: bool, initReadme: bool,
                       gitignore: Option<string>, license: Option<string>)
    requires !AllSpace(name)
    ensures var p := ParamsFor(name, description, isPrivate, initReadme, gitignore, license);
      p.name != "" && !IsSpace(p.name[0]) && !IsSpace(p.name[|p.name| - 1]) &&
      p.isPrivate == isPrivate && p.autoInit == initReadme &&
      (p.description.None? <==> description.None? || AllSpace(description.value)) &&
      (p.gitignoreTemplate.None? <==> gitignore.None? || AllSpace(gitignore.value)) &&
      (p.licenseTemplate.None? <==> license.None? || AllSpace(license.value))
  {
    StripSplits(name);
  }

  lemma CreateCalls(client: Client, name: string, description: Option<string>, isPrivate: bool,
                    initReadme: bool, gitignore: Option<string>, license: Option<string>)
    ensures CreateOutcome(client, name, description, isPrivate, initReadme, gitignore, license).calls ==
            if client.userError.Some? || Strip(name) == "" then [GetUser]
            else [GetUser, CreateRepo(ParamsFor(name, description, isPrivate, initReadme, gitignore, license))]
  {
  }

  /** A name of only whitespace is refused after get_user and before create_repo. */
  lemma BlankNameIsRefused(client: Client, name: string, description: Option<string>, isPrivate: bool,
                           initReadme: bool, gitignore: Option<string>, license: Option<string>)
    requires client.userError.None? && AllSpace(name)
    ensures CreateOutcome(client, name, description, isPrivate, initReadme, gitignore, license) ==
            Outcome(EmptyNameMessage, [GetUser])
  {
    StripSplits(name);
  }

  /** 422 names the repository as the caller gave it, 403 and 401 get fixed
      explanations, any other status shows the code and the body's "message" (or str(e)
      when the body has none), and a status without a body ends in the AttributeError of
      `None.get`; an exception without a status shows its class name and text. */
  lemma ErrorTextByStatus(e: ApiError, name: string)
    ensures e.status.None? ==> ErrorText(e, name) == "Error creating repository: " + e.typeName + ": " + e.message
    ensures e.status.Some? && e.status.value.code == 422 ==>
            ErrorText(e, name) == "Repository creation failed: Repository '" + name + "' already exists or invalid parameters"
    ensures e.status.Some? && e.status.value.code == 403 ==>
            ErrorText(e, name) == "Repository creation failed: Insufficient permissions or rate limit exceeded"
    ensures e.status.Some? && e.status.value.code == 401 ==>
            ErrorText(e, name) == "Repository creation failed: Authentication failed - check your GitHub token"
    ensures e.status.Some? && e.status.value.code in {403, 401} ==> ErrorText(e, name) == ErrorText(e, "")
    ensures e.status.Some? && e.status.value.code !in {422, 403, 401} && e.status.value.data.None? ==>
            ErrorText(e, name) == NoBodyMessage
    ensures e.status.Some? && e.status.value.code !in {422, 403, 401} && e.status.value.data.Some? ==>
            ErrorText(e, name) == "GitHub API Error " + IntToString(e.status.value.code) + ": " +
                                  (if "message" in e.status.value.data.value then e.status.value.data.value["message"]
                                   else e.message)
  {
    match e.status
    case None =>
    case Some(st) =>
      if st.code in {422, 403, 401} {
        assert ErrorText(e, "") == ErrorText(e, name) <== st.code != 422;
      } else {
        assert ErrorText(e, name) == if st.data.None? then NoBodyMessage else
          "GitHub API Error " + IntToString(st.code) + ": " +
          (if "message" in st.data.value then st.data.value["message"] else e.message);
      }
  }

  /** The success text has 23 lines; its quick-start shows `git clone` with the new
      repository's clone URL and `cd` with the name as the caller gave it. */
  lemma CreatedTextShape(r: CreatedRepo, name: string)
    ensures var lines := CreatedLines(r, name);
      |lines| == 23 && lines[16] == "git clone " + r.cloneUrl && lines[17] == "cd " + name &&
      (lines[4] == "**Visibility:** Private" <==> r.isPrivate)
  {
    var lines := CreatedLines(r, name);
    assert "**Visibility:** Public"[17] == 'u';
    assert "**Visibility:** Private"[17] == 'r';
  }
}
