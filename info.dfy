/** get_repository_info and read_file: the repository summary and the text of one file. */
module Info {
  import opened Text
  import opened Remote

  /** ', '.join(topics) if topics else 'No topics' */
  function TopicsText(topics: seq<string>): string {
    if topics == [] then "No topics" else Join(", ", topics)
  }

  /** The 30 lines of the summary; the homepage line is empty when there is none. */
  function InfoLines(r: RepoDetail, topics: seq<string>): seq<string> {
    [ "# " + r.fullName, "",
      "**Description:** " + OrElse(r.description, "No description"), "",
      "## Repository Details",
      "- **Language:** " + OrElse(r.language, "Not specified"),
      "- **Private:** " + (if r.isPrivate then "Yes" else "No"),
      "- **Default Branch:** " + r.defaultBranch,
      "- **Size:** " + NatToString(r.size) + " KB",
      "- **License:** " + OrElse(r.license, "Not specified"), "",
      "## Statistics",
      "- **Stars:** " + NatToString(r.stars),
      "- **Forks:** " + NatToString(r.forks),
      "- **Watchers:** " + NatToString(r.watchers),
      "- **Open Issues:** " + NatToString(r.openIssues), "",
      "## Dates",
      "- **Created:** " + Prefix(r.createdIso, 10),
      "- **Updated:** " + Prefix(r.updatedIso, 10),
      "- **Last Push:** " + (if Truthy(r.pushedIso) then Prefix(r.pushedIso.value, 10) else "Never"), "",
      "## URLs",
      "- **Repository:** " + r.htmlUrl,
      "- **Clone (HTTPS):** " + r.cloneUrl,
      "- **Clone (SSH):** " + r.sshUrl,
      (if Truthy(r.homepage) then "- **Homepage:** " + r.homepage.value else ""), "",
      "## Topics",
      TopicsText(topics) ]
  }

  /** The answer of get_repository_info and the calls it makes. */
  function InfoOutcome(client: Client, repoName: string): Outcome {
    match client.repo(repoName)
    case Err(e) => Outcome("Error getting repository info: " + e.message, [GetRepo(repoName)])
    case Ok(r) =>
      match r.topics
      case Err(e) => Outcome("Error getting repository info: " + e.message, [GetRepo(repoName), GetTopics(repoName)])
      case Ok(ts) => Outcome(Unlines(InfoLines(r, ts)), [GetRepo(repoName), GetTopics(repoName)])
  }

  /** The summary shows each date cut to its first ten characters (the calendar date of
      an ISO timestamp), a homepage line only for a truthy homepage, and the topics
      joined by ", " or "No topics". */
  lemma InfoSummary(r: RepoDetail, topics: seq<string>)
    ensures var lines := InfoLines(r, topics);
      |lines| == 30 &&
      lines[18] == "- **Created:** " + r.createdIso[..if |r.createdIso| < 10 then |r.createdIso| else 10] &&
      lines[19] == "- **Updated:** " + r.updatedIso[..if |r.updatedIso| < 10 then |r.updatedIso| else 10] &&
      (!Truthy(r.pushedIso) ==> lines[20] == "- **Last Push:** Never") &&
      (Truthy(r.pushedIso) ==>
         lines[20] == "- **Last Push:** " + r.pushedIso.value[..if |r.pushedIso.value| < 10 then |r.pushedIso.value| else 10]) &&
      (lines[26] == "" <==> !Truthy(r.homepage)) &&
      (lines[29] == "No topics" <== topics == []) &&
      (topics != [] ==> lines[29] == Join(", ", topics))
  {
    var lines := InfoLines(r, topics);
    if Truthy(r.homepage) {
      assert |lines[26]| > 0;
    }
  }

  /** The eleven lines of read_file's answer; the size is shown as size / 1024 to one decimal. */
  function ReadLines(repoName: string, filePath: string, x: ContentItem, text: string): seq<string> {
    [ "# " + filePath, "",
      "**Repository:** " + repoName,
      "**Size:** " + KilobytesText(x.size) + " KB",
      "**Last Modified:** " + OrElse(x.lastModified, "Unknown"), "",
      "## Content", "",
      "```",
      text,
      "```" ]
  }

  const ListHasNoType := "'list' object has no attribute 'type'"

  function NotAFileMessage(filePath: string): string {
    "Error: '" + filePath + "' is not a file"
  }

  /** The answer of read_file and the calls it makes. A directory path makes get_contents
      return a list, on which reading `.type` raises AttributeError. */
  function ReadOutcome(client: Client, repoName: string, filePath: string, ref: Option<string>): Outcome {
    match client.repo(repoName)
    case Err(e) => Outcome("Error reading file: " + e.message, [GetRepo(repoName)])
    case Ok(_) =>
      var calls := [GetRepo(repoName), GetContents(repoName, filePath, ref)];
      match client.contents(repoName, filePath, ref)
      case Err(e) => Outcome("Error reading file: " + e.message, calls)
      case Ok(ItemList(_)) => Outcome("Error reading file: " + ListHasNoType, calls)
      case Ok(SingleItem(x)) =>
        if x.kind != "file" then Outcome(NotAFileMessage(filePath), calls)
        else
          match x.decoded
          case DecodeFailed(m) => Outcome("Error reading file: " + m, calls)
          case Decoded(text) => Outcome(Unlines(ReadLines(repoName, filePath, x, text)), calls)
  }

  /** read_file shows content only for a single item of type "file" whose bytes decode,
      and then the answer ends with exactly that text between fences. */
  lemma ReadShowsFileText(client: Client, repoName: string, filePath: string, ref: Option<string>,
                          x: ContentItem, text: string)
    requires client.repo(repoName).Ok?
    requires client.contents(repoName, filePath, ref) == Ok(SingleItem(x))
    requires x.kind == "file" && x.decoded == Decoded(text)
    ensures var out := ReadOutcome(client, repoName, filePath, ref).text;
      var head := Unlines(ReadLines(repoName, filePath, x, text)[..9]);
      out == head + text + "\n```\n" && head[|head| - 4..] == "```\n"
  {
    var lines := ReadLines(repoName, filePath, x, text);
    assert lines == lines[..9] + [text, "```"];
    UnlinesAppend(lines[..9], [text, "```"]);
    assert Unlines([text, "```"]) == text + "\n" + "```" + "\n" by {
      assert [text, "```"][..1] == [text];
      assert Unlines([text]) == Unlines([]) + text + "\n";
    }
    assert lines[..9] == lines[..8] + ["```"];
    assert Unlines(lines[..9]) == Unlines(lines[..8]) + "```" + "\n";
  }

  /** Anything other than one item of type "file" is refused without its content. */
  lemma ReadRefusesNonFiles(client: Client, repoName: string, filePath: string, ref: Option<string>, x: ContentItem)
    requires client.repo(repoName).Ok?
    requires client.contents(repoName, filePath, ref) == Ok(SingleItem(x)) && x.kind != "file"
    ensures ReadOutcome(client, repoName, filePath, ref) ==
            Outcome(NotAFileMessage(filePath), [GetRepo(repoName), GetContents(repoName, filePath, ref)])
  {
  }
}
