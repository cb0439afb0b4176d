/** search_files and search_code: the query string each builds, and the report that
    shows at most 20 (files) or 15 (code) hits with a note counting the rest. */
module Search {
  import opened Text
  import opened Remote

  const FileCap := 20
  const CodeCap := 15

  /** f"repo:{repo_name} filename:{query}", plus " extension:{file_type}" when file_type
      is truthy. */
  function FileQuery(repoName: string, query: string, fileType: Option<string>): (q: string)
    ensures StartsWith(q, "repo:" + repoName + " filename:" + query)
    ensures |q| == |"repo:" + repoName + " filename:" + query| +
                   (if Truthy(fileType) then |" extension:" + fileType.value| else 0)
    ensures Truthy(fileType) ==> q[|q| - |" extension:" + fileType.value|..] == " extension:" + fileType.value
  {
    var base := "repo:" + repoName + " filename:" + query;
    if Truthy(fileType) then base + " extension:" + fileType.value else base
  }

  /** f"repo:{repo_name} {query}", plus " language:{language}" when language is truthy. */
  function CodeQuery(repoName: string, query: string, language: Option<string>): (q: string)
    ensures StartsWith(q, "repo:" + repoName + " " + query)
    ensures |q| == |"repo:" + repoName + " " + query| +
                   (if Truthy(language) then |" language:" + language.value| else 0)
    ensures Truthy(language) ==> q[|q| - |" language:" + language.value|..] == " language:" + language.value
  {
    var base := "repo:" + repoName + " " + query;
    if Truthy(language) then base + " language:" + language.value else base
  }

  function HitLines(h: SearchHit): seq<string> {
    ["**" + h.name + "**", "   Path: `" + h.path + "`", "   [View on GitHub](" + h.htmlUrl + ")", ""]
  }

  /** The four lines of each hit, in order. */
  function HitsLines(hs: seq<SearchHit>): (r: seq<string>)
    ensures |r| == 4 * |hs|
  {
    if hs == [] then [] else HitsLines(hs[..|hs| - 1]) + HitLines(hs[|hs| - 1])
  }

  function MoreNote(extra: nat): string {
    "*... and " + NatToString(extra) + " more results*"
  }

  function Shown(n: nat, cap: nat): nat {
    if n < cap then n else cap
  }

  /** The report for a non-empty result: a five-line header, the first `cap` hits, and
      the "more results" note when hits were left out. */
  function ReportLines(title: string, query: string, repoName: string, hits: seq<SearchHit>, cap: nat): seq<string> {
    [title, "", "**Query:** " + query, "**Repository:** " + repoName, ""] +
    HitsLines(hits[..Shown(|hits|, cap)]) +
    (if |hits| > cap then [MoreNote(|hits| - cap)] else [])
  }

  function ReportText(none: string, title: string, query: string, repoName: string,
                      hits: seq<SearchHit>, cap: nat): string {
    if hits == [] then none else Unlines(ReportLines(title, query, repoName, hits, cap))
  }

  function NoFilesMessage(query: string, repoName: string): string {
    "No files found matching '" + query + "' in " + repoName
  }

  function NoCodeMessage(query: string, repoName: string): string {
    "No code matches found for '" + query + "' in " + repoName
  }

  function SearchFilesOutcome(client: Client, repoName: string, query: string, fileType: Option<string>): Outcome {
    var q := FileQuery(repoName, query, fileType);
    match client.search(q)
    case Err(e) => Outcome("Error searching files: " + e.message, [SearchCode(q)])
    case Ok(hits) =>
      Outcome(ReportText(NoFilesMessage(query, repoName), "# File Search Results", query, repoName, hits, FileCap),
              [SearchCode(q)])
  }

  function SearchCodeOutcome(client: Client, repoName: string, query: string, language: Option<string>): Outcome {
    var q := CodeQuery(repoName, query, language);
    match client.search(q)
    case Err(e) => Outcome("Error searching code: " + e.message, [SearchCode(q)])
    case Ok(hits) =>
      Outcome(ReportText(NoCodeMessage(query, repoName), "# Code Search Results", query, repoName, hits, CodeCap),
              [SearchCode(q)])
  }

  lemma {:induction false} HitsLinesAt(hs: seq<SearchHit>, i: nat)
    requires i < |hs|
    ensures HitsLines(hs)[4 * i .. 4 * i + 4] == HitLines(hs[i])
  {
    if i < |hs| - 1 {
      HitsLinesAt(hs[..|hs| - 1], i);
      assert hs[..|hs| - 1][i] == hs[i];
      assert HitsLines(hs)[..4 * (|hs| - 1)] == HitsLines(hs[..|hs| - 1]);
    }
  }

  /** A report holds exactly min(n, cap) hits, the first ones in result order, four
      lines each after the five-line header; it ends with "*... and {n - cap} more
      results*" when n > cap and with the last hit's blank line otherwise. */
  lemma ReportLayout(title: string, query: string, repoName: string, hits: seq<SearchHit>, cap: nat)
    requires hits != []
    ensures var lines := ReportLines(title, query, repoName, hits, cap);
      |lines| == 5 + 4 * Shown(|hits|, cap) + (if |hits| > cap then 1 else 0) &&
      (forall i :: 0 <= i < Shown(|hits|, cap) ==> lines[5 + 4 * i .. 9 + 4 * i] == HitLines(hits[i])) &&
      (|hits| > cap ==> lines[|lines| - 1] == MoreNote(|hits| - cap)) &&
      (|hits| <= cap ==> lines[|lines| - 1] == "")
  {
    var shown := hits[..Shown(|hits|, cap)];
    var lines := ReportLines(title, query, repoName, hits, cap);
    var body := HitsLines(shown);
    assert lines[5..5 + |body|] == body;
    forall i | 0 <= i < Shown(|hits|, cap) ensures lines[5 + 4 * i .. 9 + 4 * i] == HitLines(hits[i]) {
      HitsLinesAt(shown, i);
      assert shown[i] == hits[i];
      assert lines[5 + 4 * i .. 9 + 4 * i] == body[4 * i .. 4 * i + 4];
    }
    if |hits| <= cap {
      HitsLinesAt(shown, |shown| - 1);
      assert lines[|lines| - 1] == body[4 * (|shown| - 1) + 3];
    }
  }

  /** The report of a non-empty result is never the "nothing found" message: one
      starts with '#', the other with 'N'. */
  lemma ReportTextCases(none: string, title: string, query: string, repoName: string,
                        hits: seq<SearchHit>, cap: nat)
    requires none != [] && title != [] && none[0] != title[0]
    ensures ReportText(none, title, query, repoName, hits, cap) == none <==> hits == []
  {
    if hits != [] {
      var lines := ReportLines(title, query, repoName, hits, cap);
      UnlinesStartsWith(lines);
      assert Unlines(lines)[0] == title[0];
    }
  }

  /** search_files makes one search call with the built query; it answers "No files
      found ..." exactly when the search found nothing, and otherwise the report. */
  lemma SearchFilesCases(client: Client, repoName: string, query: string, fileType: Option<string>,
                         hits: seq<SearchHit>)
    requires client.search(FileQuery(repoName, query, fileType)) == Ok(hits)
    ensures var o := SearchFilesOutcome(client, repoName, query, fileType);
      o.calls == [SearchCode(FileQuery(repoName, query, fileType))] &&
      (o.text == NoFilesMessage(query, repoName) <==> hits == []) &&
      (hits != [] ==> o.text == Unlines(ReportLines("# File Search Results", query, repoName, hits, 20)))
  {
    ReportTextCases(NoFilesMessage(query, repoName), "# File Search Results", query, repoName, hits, FileCap);
  }

  /** search_code makes one search call with the built query; it answers "No code
      matches ..." exactly when the search found nothing, and otherwise the report. */
  lemma SearchCodeCases(client: Client, repoName: string, query: string, language: Option<string>,
                        hits: seq<SearchHit>)
    requires client.search(CodeQuery(repoName, query, language)) == Ok(hits)
    ensures var o := SearchCodeOutcome(client, repoName, query, language);
      o.calls == [SearchCode(CodeQuery(repoName, query, language))] &&
      (o.text == NoCodeMessage(query, repoName) <==> hits == []) &&
      (hits != [] ==> o.text == Unlines(ReportLines("# Code Search Results", query, repoName, hits, 15)))
  {
    ReportTextCases(NoCodeMessage(query, repoName), "# Code Search Results", query, repoName, hits, CodeCap);
  }
}
