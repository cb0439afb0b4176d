/** list_repositories: which get_repos query the repo_type selects, how many of the
    yielded repositories the counter loop keeps, and the text it renders. */
module Listing {
  import opened Text
  import opened Remote

  /** CPython's message when a local variable is read before any assignment. */
  const UnboundReposMessage := "cannot access local variable 'repos' where it is not associated with a value"

  /** The if/elif chain on repo_type: "all" omits type=, the three others pass it on;
      any other value selects no branch and leaves `repos` unbound (None). */
  function QueryFor(repoType: string, sort: string): (q: Option<RepoQuery>)
    ensures q.Some? <==> repoType in {"all", "public", "private", "owner"}
    ensures q.Some? ==> q.value.sort == sort
    ensures q.Some? ==> (q.value.repoType == None <==> repoType == "all")
    ensures q.Some? && repoType != "all" ==> q.value.repoType == Some(repoType)
  {
    if repoType == "all" then Some(RepoQuery(None, sort))
    else if repoType == "public" then Some(RepoQuery(Some("public"), sort))
    else if repoType == "private" then Some(RepoQuery(Some("private"), sort))
    else if repoType == "owner" then Some(RepoQuery(Some("owner"), sort))
    else None
  }

  /** How many repositories the loop keeps out of n: it stops once count >= limit. */
  function KeptCount(limit: int, n: nat): (k: nat)
    ensures k <= n
    ensures limit >= 0 ==> k <= limit
    ensures k < n ==> limit <= k
    ensures limit <= 0 ==> k == 0
  {
    if limit <= 0 then 0 else if limit < n then limit else n
  }

  /** How many repositories the loop takes from the listing: the check `count >= limit`
      comes after the next item has been taken, so one more than it keeps while any remain. */
  function ReceivedCount(limit: int, n: nat): (k: nat)
    ensures k <= n
    ensures KeptCount(limit, n) < n ==> k == KeptCount(limit, n) + 1
    ensures KeptCount(limit, n) == n ==> k == n
  {
    if KeptCount(limit, n) < n then KeptCount(limit, n) + 1 else n
  }

  function RepoEntry(r: RepoRecord): seq<string> {
    [ "\U{2022} **" + r.fullName + "** (" + OrElse(r.language, "Unknown") + ")",
      "  " + OrElse(r.description, "No description"),
      "  Stars: " + NatToString(r.stars) + " | Forks: " + NatToString(r.forks) +
      " | Updated: " + Prefix(r.updatedIso, 10) ]
  }

  /** "\n".join of the entries, as lines: an empty line between two entries. */
  function RepoEntries(rs: seq<RepoRecord>): seq<string> {
    JoinBlocks(seq(|rs|, k requires 0 <= k < |rs| => RepoEntry(rs[k])))
  }

  function ListLines(rs: seq<RepoRecord>): seq<string> {
    ["Found " + NatToString(|rs|) + " repositories:", ""] + RepoEntries(rs)
  }

  /** The whole answer of list_repositories, and the calls it makes. */
  function ListOutcome(client: Client, repoType: string, sort: string, limit: int): Outcome {
    if client.userError.Some? then
      Outcome("Error listing repositories: " + client.userError.value.message, [GetUser])
    else
      match QueryFor(repoType, sort)
      case None => Outcome("Error listing repositories: " + UnboundReposMessage, [GetUser])
      case Some(q) =>
        match client.repos(q)
        case Err(e) => Outcome("Error listing repositories: " + e.message, [GetUser, IterateRepos(q, 0)])
        case Ok(items) =>
          var kept := items[..KeptCount(limit, |items|)];
          Outcome(Unlines(ListLines(kept)), [GetUser, IterateRepos(q, ReceivedCount(limit, |items|))])
  }

  /** With a recognised repo_type the answer shows the first min(limit, n) repositories
      of the listing in listing order (none for limit <= 0), one three-line entry each. */
  lemma ListShowsLeadingRepositories(client: Client, repoType: string, sort: string, limit: int,
                                     items: seq<RepoRecord>, i: nat)
    requires client.userError.None? && QueryFor(repoType, sort).Some?
    requires client.repos(QueryFor(repoType, sort).value) == Ok(items)
    requires i < |items| && i < limit
    ensures |ListLines(items[..KeptCount(limit, |items|)])| >= 2 + 4 * i + 3
    ensures var lines := ListLines(items[..KeptCount(limit, |items|)]);
            ListOutcome(client, repoType, sort, limit).text == Unlines(lines) &&
            lines[2 + 4 * i .. 2 + 4 * i + 3] == RepoEntry(items[i])
  {
    var kept := items[..KeptCount(limit, |items|)];
    var blocks := seq(|kept|, k requires 0 <= k < |kept| => RepoEntry(kept[k]));
    JoinBlocksLayout(blocks, i);
    assert kept[i] == items[i];
    assert ListLines(kept)[2 + 4 * i .. 2 + 4 * i + 3] == RepoEntries(kept)[4 * i .. 4 * i + 3];
  }

  /** The loop takes one repository beyond the limit from the lazy listing before it
      stops, whenever the listing has one. */
  lemma ListTakesOnePastLimit(client: Client, repoType: string, sort: string, limit: int,
                              items: seq<RepoRecord>)
    requires client.userError.None? && QueryFor(repoType, sort).Some?
    requires client.repos(QueryFor(repoType, sort).value) == Ok(items)
    requires 0 <= limit < |items|
    ensures ListOutcome(client, repoType, sort, limit).calls ==
            [GetUser, IterateRepos(QueryFor(repoType, sort).value, limit + 1)]
  {
  }
}
