/** The two DANGEROUS_PATTERNS of the pre-commit check as hand-written matchers with
    Python's re.IGNORECASE semantics, re.finditer's leftmost non-overlapping scan, the
    line number of a match, and check_file_for_secrets. */
module SecretScan {
  import opened Text

  /** ghp_[a-zA-Z0-9]{36} and GITHUB_TOKEN\s*=\s*["\']?ghp_[a-zA-Z0-9]{36} */
  datatype Pattern = Token | Assignment

  const Patterns: seq<Pattern> := [Token, Assignment]

  /** A token is "ghp_" and 36 more characters. */
  const TokenLength := 40

  /** The pattern as written in DANGEROUS_PATTERNS; an issue records it. */
  function PatternText(p: Pattern): string {
    match p
    case Token => "ghp_[a-zA-Z0-9]{36}"
    case Assignment => "GITHUB_TOKEN\\s*=\\s*[\"\\']?ghp_[a-zA-Z0-9]{36}"
  }

  /** [a-zA-Z0-9] under IGNORECASE: a character whose simple lower case is in the class
      or is a case variant of one of its letters, which adds U+0130 and U+0131 (for i),
      U+017F (for s) and U+212A, the Kelvin sign (for k). */
  predicate TokenChar(c: char) {
    ('a' <= c <= 'z') || ('A' <= c <= 'Z') || ('0' <= c <= '9') ||
    c == '\U{130}' || c == '\U{131}' || c == '\U{17F}' || c == '\U{212A}'
  }

  /** c matches the pattern character lit (a lower-case ASCII letter or a symbol) under
      IGNORECASE: lit itself, its upper case, and for i and k the same extra variants. */
  predicate FoldsTo(c: char, lit: char) {
    if 'a' <= lit <= 'z' then
      c == lit || c as int == lit as int - 32 ||
      (lit == 'i' && (c == '\U{130}' || c == '\U{131}')) || (lit == 'k' && c == '\U{212A}')
    else c == lit
  }

  predicate LiteralAt(s: string, i: nat, lit: string) {
    i + |lit| <= |s| && forall k :: 0 <= k < |lit| ==> FoldsTo(s[i + k], lit[k])
  }

  /** ghp_[a-zA-Z0-9]{36} matches at i. */
  predicate TokenAt(s: string, i: nat) {
    i + TokenLength <= |s| && LiteralAt(s, i, "ghp_") &&
    forall k :: i + 4 <= k < i + TokenLength ==> TokenChar(s[k])
  }

  predicate IsQuote(c: char) {
    c == '"' || c == '\''
  }

  /** Where the match of p starting at i ends, if p matches there. Both patterns match
      in one way only: the greedy \s* runs are followed by characters \s does not
      match, and giving up the optional quote leaves a quote where "g" is needed. */
  function MatchEnd(p: Pattern, s: string, i: nat): (e: Option<nat>)
    ensures e.Some? ==> i + TokenLength <= e.value <= |s| && TokenAt(s, e.value - TokenLength)
  {
    match p
    case Token => if TokenAt(s, i) then Some(i + TokenLength) else None
    case Assignment =>
      if !LiteralAt(s, i, "github_token") then None
      else
        var j := SkipSpaces(s, i + 12);
        if j == |s| || s[j] != '=' then None
        else
          var k := SkipSpaces(s, j + 1);
          var q := if k < |s| && IsQuote(s[k]) then k + 1 else k;
          if TokenAt(s, q) then Some(q + TokenLength) else None
  }

  datatype Match = Match(start: nat, end: nat)

  /** A matcher over a text of length n: where a match starting at a position ends, if
      the pattern matches there. Matches are never empty and end within the text. */
  ghost predicate Advances(m: nat -> Option<nat>, n: nat) {
    forall i: nat :: m(i).Some? ==> i < m(i).value <= n
  }

  /** re.finditer's scan with matcher m from position `from`: try each position in turn,
      and after a match go on from its end. */
  function Scan(m: nat -> Option<nat>, n: nat, from: nat): (r: seq<Match>)
    requires Advances(m, n)
    ensures forall k :: 0 <= k < |r| ==> from <= r[k].start < r[k].end <= n
    decreases n - from
  {
    if from >= n then []
    else
      match m(from)
      case Some(e) => [Match(from, e)] + Scan(m, n, e)
      case None => Scan(m, n, from + 1)
  }

  /** Every reported match is a match of m at or after `from`. */
  lemma {:induction false} ScanSound(m: nat -> Option<nat>, n: nat, from: nat)
    requires Advances(m, n)
    ensures forall x :: x in Scan(m, n, from) ==> from <= x.start && m(x.start) == Some(x.end)
    decreases n - from
  {
    if from < n {
      match m(from)
      case Some(e) => ScanSound(m, n, e);
      case None => ScanSound(m, n, from + 1);
    }
  }

  /** The matches come in order and do not overlap. */
  lemma {:induction false} ScanOrdered(m: nat -> Option<nat>, n: nat, from: nat)
    requires Advances(m, n)
    ensures forall i, j :: 0 <= i < j < |Scan(m, n, from)| ==> Scan(m, n, from)[i].end <= Scan(m, n, from)[j].start
    decreases n - from
  {
    if from < n {
      match m(from)
      case Some(e) =>
        ScanOrdered(m, n, e);
        var rest := Scan(m, n, e);
        var ms := [Match(from, e)] + rest;
        forall i, j | 0 <= i < j < |ms| ensures ms[i].end <= ms[j].start {
          assert ms[j] == rest[j - 1];
          if i > 0 {
            assert ms[i] == rest[i - 1];
          }
        }
      case None =>
        ScanOrdered(m, n, from + 1);
    }
  }

  /** The scan is leftmost: every position at or after `from` where m matches is the
      start of a reported match or lies inside one. */
  lemma {:induction false} ScanComplete(m: nat -> Option<nat>, n: nat, from: nat, j: nat)
    requires Advances(m, n)
    requires from <= j && m(j).Some?
    ensures exists x :: x in Scan(m, n, from) && x.start <= j < x.end
    decreases n - from
  {
    assert j < n;
    match m(from)
    case Some(e) =>
      if j >= e {
        ScanComplete(m, n, e, j);
        var x :| x in Scan(m, n, e) && x.start <= j < x.end;
        assert x in Scan(m, n, from);
      } else {
        assert Match(from, e) in Scan(m, n, from);
      }
    case None =>
      if j == from {
        assert false;
      }
      ScanComplete(m, n, from + 1, j);
  }

  /** The matcher of pattern p over s. */
  function Matcher(p: Pattern, s: string): (m: nat -> Option<nat>)
    ensures Advances(m, |s|)
  {
    var m := (i: nat) => MatchEnd(p, s, i);
    assert forall i: nat :: m(i) == MatchEnd(p, s, i);
    m
  }

  /** re.finditer(p, s) from position `from`. */
  function FindAll(p: Pattern, s: string, from: nat): (r: seq<Match>)
    ensures forall k :: 0 <= k < |r| ==> from <= r[k].start && r[k].start + TokenLength <= r[k].end <= |s|
  {
    ScanSound(Matcher(p, s), |s|, from);
    var r := Scan(Matcher(p, s), |s|, from);
    assert forall k :: 0 <= k < |r| ==> r[k] in r;
    r
  }

  /** Every reported match is a match of the pattern at or after `from`. */
  lemma FindAllSound(p: Pattern, s: string, from: nat)
    ensures forall x :: x in FindAll(p, s, from) ==> from <= x.start && MatchEnd(p, s, x.start) == Some(x.end)
  {
    ScanSound(Matcher(p, s), |s|, from);
  }

  /** The matches come in order and do not overlap. */
  lemma FindAllOrdered(p: Pattern, s: string, from: nat)
    ensures forall i, j :: 0 <= i < j < |FindAll(p, s, from)| ==>
              FindAll(p, s, from)[i].end <= FindAll(p, s, from)[j].start
  {
    ScanOrdered(Matcher(p, s), |s|, from);
  }

  /** Every position at or after `from` where the pattern matches is covered by a match. */
  lemma FindAllComplete(p: Pattern, s: string, from: nat, j: nat)
    requires from <= j && MatchEnd(p, s, j).Some?
    ensures exists x :: x in FindAll(p, s, from) && x.start <= j < x.end
  {
    ScanComplete(Matcher(p, s), |s|, from, j);
  }

  /** A token written as GITHUB_TOKEN=ghp_... is flagged by the token pattern too: the
      token scan reports a match at the token's first character or one covering it. */
  lemma TokenScanCoversAssignments(s: string, a: Match)
    requires a in FindAll(Assignment, s, 0)
    ensures exists m :: m in FindAll(Token, s, 0) && m.start <= a.end - TokenLength < m.end
  {
    FindAllSound(Assignment, s, 0);
    FindAllComplete(Token, s, 0, a.end - TokenLength);
  }

  /** The 1-based line of an offset: the newlines before it, plus one. */
  function LineNumber(content: string, start: nat): (n: nat)
    requires start <= |content|
    ensures 1 <= n <= Count('\n', content) + 1
  {
    CountMonotone('\n', content, start, |content|);
    assert content[..|content|] == content;
    Count('\n', content[..start]) + 1
  }

  /** Later offsets are on the same line or a later one. */
  lemma LineNumberMonotone(content: string, i: nat, j: nat)
    requires i <= j <= |content|
    ensures LineNumber(content, i) <= LineNumber(content, j)
  {
    CountMonotone('\n', content, i, j);
  }

  /** One reported issue: file, line, pattern and the matched text. */
  datatype Issue = Issue(file: string, line: nat, pattern: string, text: string)

  function IssueFor(path: string, p: Pattern, content: string, m: Match): Issue
    requires m.start <= m.end <= |content|
  {
    Issue(path, LineNumber(content, m.start), PatternText(p), content[m.start..m.end])
  }

  function IssuesOf(path: string, p: Pattern, content: string, ms: seq<Match>): (r: seq<Issue>)
    requires forall k :: 0 <= k < |ms| ==> ms[k].start <= ms[k].end <= |content|
    ensures |r| == |ms|
    ensures forall k :: 0 <= k < |ms| ==> r[k] == IssueFor(path, p, content, ms[k])
  {
    if ms == [] then []
    else
      var tail := ms[1..];
      assert forall k :: 0 <= k < |tail| ==> tail[k] == ms[k + 1];
      var rest := IssuesOf(path, p, content, tail);
      [IssueFor(path, p, content, ms[0])] + rest
  }

  function PatternIssues(path: string, p: Pattern, content: string): seq<Issue> {
    IssuesOf(path, p, content, FindAll(p, content, 0))
  }

  /** The issues of the patterns ps, pattern by pattern. */
  function IssuesFrom(path: string, content: string, ps: seq<Pattern>): seq<Issue> {
    if ps == [] then [] else IssuesFrom(path, content, ps[..|ps| - 1]) + PatternIssues(path, ps[|ps| - 1], content)
  }

  /** check_file_for_secrets: the token pattern's issues, then the assignment pattern's;
      a file that cannot be read (None) gives no issues. */
  function FileIssues(path: string, content: Option<string>): seq<Issue> {
    match content
    case None => []
    case Some(c) => IssuesFrom(path, c, Patterns)
  }

  lemma FileIssuesByPattern(path: string, c: string)
    ensures FileIssues(path, Some(c)) == PatternIssues(path, Token, c) + PatternIssues(path, Assignment, c)
  {
    IssuesFromLast(path, c);
    IssuesFromFirst(path, c);
  }

  lemma IssuesFromLast(path: string, c: string)
    ensures IssuesFrom(path, c, Patterns) == IssuesFrom(path, c, [Token]) + PatternIssues(path, Assignment, c)
  {
    IssuesFromSnoc(path, c, [Token], Assignment);
    assert [Token] + [Assignment] == Patterns;
  }

  lemma IssuesFromFirst(path: string, c: string)
    ensures IssuesFrom(path, c, [Token]) == PatternIssues(path, Token, c)
  {
    IssuesFromSnoc(path, c, [], Token);
    assert [] + [Token] == [Token];
  }

  lemma IssuesFromSnoc(path: string, c: string, ps: seq<Pattern>, p: Pattern)
    ensures IssuesFrom(path, c, ps + [p]) == IssuesFrom(path, c, ps) + PatternIssues(path, p, c)
  {
    assert (ps + [p])[..|ps|] == ps;
  }

  /** The matched text of an assignment issue has the assignment's shape. */
  predicate AssignmentText(t: string) {
    |t| >= 13 + TokenLength && LiteralAt(t, 0, "github_token") && TokenAt(t, |t| - TokenLength) &&
    exists a :: 12 <= a < |t| - TokenLength && EqualsAt(t, a)
  }

  /** Blanks after the name up to an "=" at a, then blanks, an optional quote, and the
      token that ends the text. */
  predicate EqualsAt(t: string, a: int) {
    12 <= a < |t| - TokenLength && AllSpace(t[12..a]) && t[a] == '=' &&
    (AllSpace(t[a + 1..|t| - TokenLength]) ||
     (a + 1 < |t| - TokenLength && IsQuote(t[|t| - TokenLength - 1]) &&
      AllSpace(t[a + 1..|t| - TokenLength - 1])))
  }

  /** What a matched text looks like for each pattern. */
  predicate Satisfies(p: Pattern, t: string) {
    match p
    case Token => |t| == TokenLength && TokenAt(t, 0)
    case Assignment => AssignmentText(t)
  }

  lemma MatchTextSatisfies(p: Pattern, s: string, i: nat, e: nat)
    requires MatchEnd(p, s, i) == Some(e)
    ensures Satisfies(p, s[i..e])
  {
    TokenAtSlice(s, i, e);
    if p.Assignment? {
      AssignmentMatchText(s, i, e);
    }
  }

  /** The converse: every text of the pattern's shape is what the matcher matches, so a
      scan complete for MatchEnd misses no text the regular expression matches. The
      greedy \s* runs stop exactly at the "=", the quote or the "g" the shape puts there,
      since \s matches none of them. */
  lemma SatisfiesMatches(p: Pattern, s: string, i: nat, e: nat)
    requires i <= e <= |s| && Satisfies(p, s[i..e])
    ensures MatchEnd(p, s, i) == Some(e)
  {
    TokenAtUnslice(s, i, e);
    if p.Assignment? {
      AssignmentMatches(s, i, e);
    }
  }

  /** A token at the end of a slice is a token of the text, and its first character is
      neither whitespace nor a quote. */
  lemma TokenAtUnslice(s: string, i: nat, e: nat)
    requires i + TokenLength <= e <= |s| && TokenAt(s[i..e], e - i - TokenLength)
    ensures TokenAt(s, e - TokenLength)
    ensures !IsSpace(s[e - TokenLength]) && !IsQuote(s[e - TokenLength])
  {
    var t, x := s[i..e], e - i - TokenLength;
    assert forall n :: 0 <= n < |t| ==> t[n] == s[i + n];
    assert LiteralAt(t, x, "ghp_");
    assert FoldsTo(t[x + 0], "ghp_"[0]);
  }

  lemma AssignmentMatches(s: string, i: nat, e: nat)
    requires i <= e <= |s| && AssignmentText(s[i..e])
    requires TokenAt(s, e - TokenLength) && !IsSpace(s[e - TokenLength]) && !IsQuote(s[e - TokenLength])
    ensures MatchEnd(Assignment, s, i) == Some(e)
  {
    LiteralUnslice(s, i, e);
    var a :| EqualsAt(s[i..e], a);
    var k := EqualsUnslice(s, i, e, a);
    AssignmentMatchesAt(s, i, i + a, k, e);
  }

  /** The pieces of EqualsAt read in the whole text: the blanks end at k, just before the
      token or before its quote. */
  lemma EqualsUnslice(s: string, i: nat, e: nat, a: int) returns (k: nat)
    requires i <= e <= |s| && EqualsAt(s[i..e], a)
    ensures i + 12 <= i + a < k <= |s| && AllSpace(s[i + 12..i + a]) && s[i + a] == '=' && AllSpace(s[i + a + 1..k])
    ensures k == e - TokenLength || (k == e - TokenLength - 1 && IsQuote(s[k]))
  {
    var t := s[i..e];
    SliceOfSlice(s, i, e, 12, a);
    assert s[i + a] == t[a];
    if AllSpace(t[a + 1..|t| - TokenLength]) {
      SliceOfSlice(s, i, e, a + 1, |t| - TokenLength);
      k := e - TokenLength;
    } else {
      SliceOfSlice(s, i, e, a + 1, |t| - TokenLength - 1);
      assert s[e - TokenLength - 1] == t[|t| - TokenLength - 1];
      k := e - TokenLength - 1;
    }
  }

  lemma LiteralUnslice(s: string, i: nat, e: nat)
    requires i <= e <= |s| && LiteralAt(s[i..e], 0, "github_token")
    ensures LiteralAt(s, i, "github_token")
  {
    assert forall n :: 0 <= n < 12 ==> s[i..e][n] == s[i + n];
  }

  /** The assignment matcher on a text whose pieces are known: name, blanks up to j, "=",
      blanks up to k, an optional quote, and the token ending at e. */
  lemma AssignmentMatchesAt(s: string, i: nat, j: nat, k: nat, e: nat)
    requires LiteralAt(s, i, "github_token")
    requires i + 12 <= j < k <= |s| && AllSpace(s[i + 12..j]) && s[j] == '=' && AllSpace(s[j + 1..k])
    requires TokenLength <= e <= |s| && TokenAt(s, e - TokenLength)
    requires !IsSpace(s[e - TokenLength]) && !IsQuote(s[e - TokenLength])
    requires k == e - TokenLength || (k == e - TokenLength - 1 && IsQuote(s[k]))
    ensures MatchEnd(Assignment, s, i) == Some(e)
  {
    SkipSpacesAt(s, i + 12, j);
    SkipSpacesAt(s, j + 1, k);
    MatchEndFrom(s, i, j, k, e);
  }

  /** The assignment matcher, once its two whitespace runs are known to end at j and k. */
  lemma MatchEndFrom(s: string, i: nat, j: nat, k: nat, e: nat)
    requires LiteralAt(s, i, "github_token")
    requires SkipSpaces(s, i + 12) == j && j < |s| && s[j] == '='
    requires SkipSpaces(s, j + 1) == k
    requires TokenLength <= e <= |s| && TokenAt(s, e - TokenLength) && !IsQuote(s[e - TokenLength])
    requires k == e - TokenLength || (k == e - TokenLength - 1 && IsQuote(s[k]))
    ensures MatchEnd(Assignment, s, i) == Some(e)
  {
  }

  /** The whitespace run from i ends at the first character that is not whitespace. */
  lemma SkipSpacesAt(s: string, i: nat, j: nat)
    requires i <= j < |s| && AllSpace(s[i..j]) && !IsSpace(s[j])
    ensures SkipSpaces(s, i) == j
  {
  }

  /** The token a match ends with is still a token in the matched text. */
  lemma TokenAtSlice(s: string, i: nat, e: nat)
    requires i + TokenLength <= e <= |s| && TokenAt(s, e - TokenLength)
    ensures TokenAt(s[i..e], e - i - TokenLength)
  {
    var t := s[i..e];
    assert forall k :: 0 <= k < |t| ==> t[k] == s[i + k];
  }

  lemma AssignmentMatchText(s: string, i: nat, e: nat)
    requires MatchEnd(Assignment, s, i) == Some(e)
    ensures AssignmentText(s[i..e])
  {
    var j := SkipSpaces(s, i + 12);
    var k := SkipSpaces(s, j + 1);
    var q := if k < |s| && IsQuote(s[k]) then k + 1 else k;
    AssignmentShape(s, i, j, k, q, e);
  }

  /** The pieces an assignment match is made of, read back from the matched text. */
  lemma AssignmentShape(s: string, i: nat, j: nat, k: nat, q: nat, e: nat)
    requires LiteralAt(s, i, "github_token")
    requires i + 12 <= j < |s| && AllSpace(s[i + 12..j]) && s[j] == '='
    requires j + 1 <= k <= |s| && AllSpace(s[j + 1..k])
    requires (q == k + 1 && k < |s| && IsQuote(s[k])) || q == k
    requires e == q + TokenLength <= |s| && TokenAt(s, q)
    ensures AssignmentText(s[i..e])
  {
    var t := s[i..e];
    TokenAtSlice(s, i, e);
    assert LiteralAt(t, 0, "github_token") by {
      assert forall n :: 0 <= n < 12 ==> t[n] == s[i + n];
    }
    var a := j - i;
    SliceOfSlice(s, i, e, 12, a);
    assert t[a] == '=';
    SliceOfSlice(s, i, e, a + 1, k - i);
    if q == k + 1 {
      assert IsQuote(t[|t| - TokenLength - 1]);
    }
    assert EqualsAt(t, a);
  }

  lemma SliceOfSlice(s: string, i: nat, e: nat, a: nat, b: nat)
    requires i + b <= e <= |s| && a <= b
    ensures s[i..e][a..b] == s[i + a..i + b]
  {
    assert forall n :: 0 <= n < b - a ==> s[i..e][a..b][n] == s[i + a + n];
  }

  /** Every issue of a readable file: its line is within the file, its text satisfies the
      pattern it names, and it lies at the offset its line number was computed from. */
  lemma IssuesAreMatches(path: string, content: string, p: Pattern, k: nat)
    requires k < |PatternIssues(path, p, content)|
    ensures var iss := PatternIssues(path, p, content)[k];
      var m := FindAll(p, content, 0)[k];
      iss.file == path && iss.pattern == PatternText(p) &&
      1 <= iss.line <= Count('\n', content) + 1 &&
      m.end <= |content| && iss.text == content[m.start..m.end] && Satisfies(p, iss.text) &&
      iss.line == Count('\n', content[..m.start]) + 1
  {
    FindAllSound(p, content, 0);
    var m := FindAll(p, content, 0)[k];
    assert m in FindAll(p, content, 0);
    MatchTextSatisfies(p, content, m.start, m.end);
  }

  /** Within a pattern, issues are in increasing order of position, so their line
      numbers never decrease. */
  lemma IssueLinesInOrder(path: string, content: string, p: Pattern, k: nat)
    requires k + 1 < |PatternIssues(path, p, content)|
    ensures PatternIssues(path, p, content)[k].line <= PatternIssues(path, p, content)[k + 1].line
  {
    var ms := FindAll(p, content, 0);
    FindAllOrdered(p, content, 0);
    LineNumberMonotone(content, ms[k].start, ms[k + 1].start);
  }

  /** re.finditer's scan with matcher m, one position at a time. */
  method ScanIter(m: nat -> Option<nat>, n: nat) returns (ms: seq<Match>)
    requires Advances(m, n)
    ensures ms == Scan(m, n, 0)
  {
    ms := [];
    var pos := 0;
    while pos < n
      invariant ms + Scan(m, n, pos) == Scan(m, n, 0)
      decreases n - pos
    {
      match m(pos)
      case Some(e) =>
        assert ms + Scan(m, n, pos) == (ms + [Match(pos, e)]) + Scan(m, n, e);
        ms := ms + [Match(pos, e)];
        pos := e;
      case None =>
        pos := pos + 1;
    }
  }

  /** re.finditer(p, s). */
  method FindIter(p: Pattern, s: string) returns (ms: seq<Match>)
    ensures ms == FindAll(p, s, 0)
  {
    ms := ScanIter(Matcher(p, s), |s|);
  }

  /** The issues of one pattern: one per match, in match order. */
  method ScanPattern(path: string, p: Pattern, c: string) returns (found: seq<Issue>)
    ensures found == PatternIssues(path, p, c)
  {
    var ms := FindIter(p, c);
    found := [];
    for k := 0 to |ms|
      invariant |found| == k
      invariant forall i :: 0 <= i < k ==> found[i] == IssueFor(path, p, c, ms[i])
    {
      found := found + [IssueFor(path, p, c, ms[k])];
    }
  }

  /** check_file_for_secrets: for each pattern, for each match, append an issue. */
  method CheckFileForSecrets(path: string, content: Option<string>) returns (issues: seq<Issue>)
    ensures issues == FileIssues(path, content)
  {
    if content.None? {
      return [];
    }
    var c := content.value;
    issues := [];
    for i := 0 to |Patterns|
      invariant issues == IssuesFrom(path, c, Patterns[..i])
    {
      var found := ScanPattern(path, Patterns[i], c);
      assert Patterns[..i + 1][..i] == Patterns[..i];
      issues := issues + found;
    }
    assert Patterns[..|Patterns|] == Patterns;
  }
}
