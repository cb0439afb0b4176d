/** Character and string operations with the exact meaning Python gives them
    (str.isspace, str.strip, str.lower, `<` on str, str(n), s[:n]). */
module Text {

  datatype Option<+T> = None | Some(value: T)

  datatype Result<+R, +E> = Ok(value: R) | Err(error: E) {
    predicate IsFailure() {
      Err?
    }

    function PropagateFailure<U>(): Result<U, E>
      requires Err?
    {
      Err(error)
    }

    function Extract(): R
      requires Ok?
    {
      value
    }
  }

  /** Python's str.isspace for one code point: the characters whose bidirectional
      class is WS, B or S, or whose general category is Zs. */
  predicate IsSpace(c: char) {
    ('\t' <= c <= '\r') || ('\U{1C}' <= c <= '\U{1F}') || c == ' ' ||
    c == '\U{85}' || c == '\U{A0}' || c == '\U{1680}' ||
    ('\U{2000}' <= c <= '\U{200A}') || c == '\U{2028}' || c == '\U{2029}' ||
    c == '\U{202F}' || c == '\U{205F}' || c == '\U{3000}'
  }

  predicate AllSpace(s: string) {
    forall i :: 0 <= i < |s| ==> IsSpace(s[i])
  }

  /** The end of the run of whitespace (str.isspace) starting at i. */
  function SkipSpaces(s: string, i: nat): (j: nat)
    requires i <= |s|
    ensures i <= j <= |s| && AllSpace(s[i..j]) && (j == |s| || !IsSpace(s[j]))
    decreases |s| - i
  {
    if i == |s| || !IsSpace(s[i]) then i
    else
      var j := SkipSpaces(s, i + 1);
      assert s[i..j] == [s[i]] + s[i + 1..j];
      j
  }

  /** The start of the run of whitespace ending at j. */
  function SkipSpacesBack(s: string, j: nat): (i: nat)
    requires j <= |s|
    ensures i <= j && AllSpace(s[i..j]) && (i == 0 || !IsSpace(s[i - 1]))
  {
    if j == 0 || !IsSpace(s[j - 1]) then j
    else
      var i := SkipSpacesBack(s, j - 1);
      assert s[i..j] == s[i..j - 1] + [s[j - 1]];
      i
  }

  /** s.lstrip() */
  function StripStart(s: string): (r: string)
    ensures |r| <= |s| && r == s[|s| - |r|..]
    ensures AllSpace(s[..|s| - |r|])
    ensures r == [] || !IsSpace(r[0])
  {
    var j := SkipSpaces(s, 0);
    assert s[..j] == s[0..j];
    s[j..]
  }

  /** s.rstrip() */
  function StripEnd(s: string): (r: string)
    ensures |r| <= |s| && r == s[..|r|]
    ensures AllSpace(s[|r|..])
    ensures r == [] || !IsSpace(r[|r| - 1])
  {
    var i := SkipSpacesBack(s, |s|);
    assert s[i..] == s[i..|s|];
    s[..i]
  }

  /** s.strip(): s with its leading and trailing whitespace removed. */
  function Strip(s: string): (r: string)
    ensures r == [] || (!IsSpace(r[0]) && !IsSpace(r[|r| - 1]))
  {
    StripEnd(StripStart(s))
  }

  /** Stripping cuts s into whitespace, the result, whitespace; it yields "" exactly
      when s holds nothing but whitespace (Python's `not s.strip()`). */
  lemma StripSplits(s: string)
    ensures exists k :: 0 <= k && k + |Strip(s)| <= |s| && s[k..k + |Strip(s)|] == Strip(s) &&
                        AllSpace(s[..k]) && AllSpace(s[k + |Strip(s)|..])
    ensures Strip(s) == [] <==> AllSpace(s)
  {
    StripWindow(s);
    StripEmpty(s);
    var k := |s| - |StripStart(s)|;
    assert 0 <= k && k + |Strip(s)| <= |s| && s[k..k + |Strip(s)|] == Strip(s) &&
           AllSpace(s[..k]) && AllSpace(s[k + |Strip(s)|..]);
  }

  /** Where the stripped text sits in s: after the leading whitespace. */
  lemma StripWindow(s: string)
    ensures |s| - |StripStart(s)| + |Strip(s)| <= |s|
    ensures s[|s| - |StripStart(s)|..|s| - |StripStart(s)| + |Strip(s)|] == Strip(s)
    ensures AllSpace(s[..|s| - |StripStart(s)|]) && AllSpace(s[|s| - |StripStart(s)| + |Strip(s)|..])
  {
    var t := StripStart(s);
    var r := StripEnd(t);
    Window(s, t, r);
  }

  /** t is a suffix of s after whitespace, and r a prefix of t before whitespace. */
  lemma Window(s: string, t: string, r: string)
    requires |t| <= |s| && t == s[|s| - |t|..] && AllSpace(s[..|s| - |t|])
    requires |r| <= |t| && r == t[..|r|] && AllSpace(t[|r|..])
    ensures s[|s| - |t|..|s| - |t| + |r|] == r && AllSpace(s[|s| - |t| + |r|..])
  {
    var k := |s| - |t|;
    assert s[k..k + |r|] == r;
    assert s[k + |r|..] == t[|r|..];
  }

  lemma StripEmpty(s: string)
    ensures Strip(s) == [] <==> AllSpace(s)
  {
    StripWindow(s);
    var k := |s| - |StripStart(s)|;
    if Strip(s) == [] {
      forall i | 0 <= i < |s| ensures IsSpace(s[i]) {
        assert s[..k][i] == s[i];
      }
    }
  }

  /** Stripping twice is stripping once. */
  lemma StripIdempotent(s: string)
    ensures Strip(Strip(s)) == Strip(s)
  {
  }

  /** Python truthiness of an optional string: neither None nor "". */
  predicate Truthy(o: Option<string>) {
    o.Some? && o.value != ""
  }

  /** `x or default` for an optional string. */
  function OrElse(o: Option<string>, default: string): (r: string)
    ensures Truthy(o) ==> r == o.value
    ensures !Truthy(o) ==> r == default
  {
    if Truthy(o) then o.value else default
  }

  /** str.lower on one code point, for the ASCII and Latin-1 capitals. */
  function LowerChar(c: char): (d: char)
    ensures ('A' <= c <= 'Z') ==> d as int == c as int + 32
    ensures !('A' <= c <= 'Z') && !('\U{C0}' <= c <= '\U{DE}') ==> d == c
  {
    if 'A' <= c <= 'Z' || ('\U{C0}' <= c <= '\U{DE}' && c != '\U{D7}') then (c as int + 32) as char else c
  }

  function Lower(s: string): (r: string)
    ensures |r| == |s|
    ensures forall i :: 0 <= i < |s| ==> r[i] == LowerChar(s[i])
  {
    seq(|s|, i requires 0 <= i < |s| => LowerChar(s[i]))
  }

  /** Lower-casing a key a second time changes nothing: no character it produces is a
      capital, so name.lower() is a normal form of the name. */
  lemma LowerIdempotent(s: string)
    ensures Lower(Lower(s)) == Lower(s)
    ensures forall i :: 0 <= i < |s| ==> !('A' <= Lower(s)[i] <= 'Z')
  {
    forall i | 0 <= i < |s| ensures LowerChar(LowerChar(s[i])) == LowerChar(s[i]) && !('A' <= LowerChar(s[i]) <= 'Z') {
      var c := s[i];
      if 'A' <= c <= 'Z' || ('\U{C0}' <= c <= '\U{DE}' && c != '\U{D7}') {
        assert '\U{E0}' <= LowerChar(c) <= '\U{FE}' || 'a' <= LowerChar(c) <= 'z';
      }
    }
  }

  /** Python's `a <= b` on str: lexicographic order of code points. */
  predicate LexLe(a: string, b: string) {
    a == [] || (b != [] && (a[0] < b[0] || (a[0] == b[0] && LexLe(a[1..], b[1..]))))
  }

  lemma {:induction false} LexLeReflexive(a: string)
    ensures LexLe(a, a)
  {
    if a != [] {
      LexLeReflexive(a[1..]);
    }
  }

  lemma {:induction false} LexLeTotal(a: string, b: string)
    ensures LexLe(a, b) || LexLe(b, a)
  {
    if a != [] && b != [] && a[0] == b[0] {
      LexLeTotal(a[1..], b[1..]);
    }
  }

  lemma {:induction false} LexLeTransitive(a: string, b: string, c: string)
    requires LexLe(a, b) && LexLe(b, c)
    ensures LexLe(a, c)
  {
    if a != [] && b != [] && c != [] && a[0] == b[0] == c[0] {
      LexLeTransitive(a[1..], b[1..], c[1..]);
    }
  }

  lemma {:induction false} LexLeAntisymmetric(a: string, b: string)
    requires LexLe(a, b) && LexLe(b, a)
    ensures a == b
  {
    if a != [] && b != [] {
      LexLeAntisymmetric(a[1..], b[1..]);
    }
  }

  function Digit(d: nat): (c: char)
    requires d < 10
    ensures '0' <= c <= '9' && DigitValue(c) == d
  {
    ('0' as int + d) as char
  }

  function DigitValue(c: char): int {
    c as int - '0' as int
  }

  /** str(n) for a natural number: its decimal digits, no leading zero. */
  function NatToString(n: nat): (s: string)
    ensures |s| >= 1
    ensures forall i :: 0 <= i < |s| ==> '0' <= s[i] <= '9'
    ensures |s| > 1 ==> s[0] != '0'
  {
    if n < 10 then [Digit(n)] else NatToString(n / 10) + [Digit(n % 10)]
  }

  /** The value of a string of decimal digits. */
  function DecimalValue(s: string): int {
    if s == [] then 0 else 10 * DecimalValue(s[..|s| - 1]) + DigitValue(s[|s| - 1])
  }

  /** The decimal rendering reads back as the number it renders, so two different
      counts are never rendered alike. */
  lemma {:induction false} NatToStringRoundTrip(n: nat)
    ensures DecimalValue(NatToString(n)) == n
  {
    var s := NatToString(n);
    if n >= 10 {
      NatToStringRoundTrip(n / 10);
      assert s == NatToString(n / 10) + [Digit(n % 10)];
      assert s[..|s| - 1] == NatToString(n / 10);
      assert DigitValue(s[|s| - 1]) == n % 10;
    }
  }

  /** str(n) for any integer. */
  function IntToString(n: int): (s: string)
    ensures |s| >= 1
    ensures (s[0] == '-') <==> n < 0
  {
    if n < 0 then "-" + NatToString(-n) else NatToString(n)
  }

  /** s[:n] */
  function Prefix(s: string, n: nat): (r: string)
    ensures |r| == if |s| <= n then |s| else n
    ensures r == s[..|r|]
  {
    if |s| <= n then s else s[..n]
  }

  /** f"{size / 1024:.1f}" times ten: size / 1024 is exact in binary floating point,
      so formatting rounds size * 10 / 1024 to the nearest integer, ties to even. */
  function TenthsOfKilobyte(size: nat): (t: nat)
    ensures -512 <= t * 1024 - size * 10 <= 512
  {
    var q, r := (size * 10) / 1024, (size * 10) % 1024;
    if r > 512 || (r == 512 && q % 2 == 1) then q + 1 else q
  }

  function KilobytesText(size: nat): string {
    var t := TenthsOfKilobyte(size);
    NatToString(t / 10) + "." + [Digit(t % 10)]
  }

  /** The text of a sequence of lines, each followed by "\n". */
  function Unlines(lines: seq<string>): string {
    if lines == [] then "" else Unlines(lines[..|lines| - 1]) + lines[|lines| - 1] + "\n"
  }

  lemma {:induction false} UnlinesAppend(a: seq<string>, b: seq<string>)
    ensures Unlines(a + b) == Unlines(a) + Unlines(b)
  {
    if b != [] {
      assert (a + b)[..|a + b| - 1] == a + b[..|b| - 1];
      UnlinesAppend(a, b[..|b| - 1]);
    } else {
      assert a + b == a;
    }
  }

  /** Appending one line adds it and its newline at the end. */
  lemma UnlinesSnoc(lines: seq<string>, line: string)
    ensures Unlines(lines + [line]) == Unlines(lines) + line + "\n"
  {
    assert (lines + [line])[..|lines|] == lines;
  }

  lemma UnlinesStartsWith(lines: seq<string>)
    requires lines != []
    ensures StartsWith(Unlines(lines), lines[0])
  {
    assert lines == [lines[0]] + lines[1..];
    UnlinesAppend([lines[0]], lines[1..]);
    assert Unlines([lines[0]]) == Unlines([]) + lines[0] + "\n";
  }

  /** Three-line blocks joined by one empty line, as "\n".join does with texts that
      each end in "\n". */
  function JoinBlocks(blocks: seq<seq<string>>): seq<string> {
    if blocks == [] then []
    else if |blocks| == 1 then blocks[0]
    else blocks[0] + [""] + JoinBlocks(blocks[1..])
  }

  /** Block i occupies lines 4i..4i+2, followed by an empty line unless it is last. */
  lemma {:induction false} JoinBlocksLayout(blocks: seq<seq<string>>, i: nat)
    requires forall k :: 0 <= k < |blocks| ==> |blocks[k]| == 3
    requires i < |blocks|
    ensures |JoinBlocks(blocks)| == 4 * |blocks| - 1
    ensures JoinBlocks(blocks)[4 * i .. 4 * i + 3] == blocks[i]
    ensures i + 1 < |blocks| ==> JoinBlocks(blocks)[4 * i + 3] == ""
  {
    if |blocks| > 1 {
      var tail := JoinBlocks(blocks[1..]);
      var j := if i == 0 then 0 else i - 1;
      JoinBlocksLayout(blocks[1..], j);
      if i > 0 {
        assert blocks[1..][j] == blocks[i];
        assert JoinBlocks(blocks)[4 * i .. 4 * i + 3] == tail[4 * j .. 4 * j + 3];
      }
    }
  }

  /** sep.join(parts) */
  function Join(sep: string, parts: seq<string>): string {
    if parts == [] then "" else if |parts| == 1 then parts[0] else parts[0] + sep + Join(sep, parts[1..])
  }

  /** s.split(c) for a one-character separator: the pieces between the separators. */
  function Split(s: string, c: char): (parts: seq<string>)
    ensures |parts| >= 1
    ensures forall k :: 0 <= k < |parts| ==> c !in parts[k]
  {
    if s == [] then [""]
    else if s[0] == c then [""] + Split(s[1..], c)
    else
      var r := Split(s[1..], c);
      [[s[0]] + r[0]] + r[1..]
  }

  /** c.join(s.split(c)) == s */
  lemma {:induction false} JoinSplit(s: string, c: char)
    ensures Join([c], Split(s, c)) == s
  {
    if s != [] {
      var r := Split(s[1..], c);
      JoinSplit(s[1..], c);
      if s[0] == c {
        assert ([""] + r)[1..] == r;
      } else {
        var parts := [[s[0]] + r[0]] + r[1..];
        if |r| > 1 {
          assert parts[1..] == r[1..];
          assert Join([c], r) == r[0] + [c] + Join([c], r[1..]);
        }
      }
    }
  }

  lemma {:induction false} SplitPrefix(p: string, t: string, c: char)
    requires c !in p
    ensures Split(p + t, c) == [p + Split(t, c)[0]] + Split(t, c)[1..]
  {
    if p != [] {
      assert (p + t)[1..] == p[1..] + t;
      assert p[0] != c by { assert p[0] in p; }
      SplitPrefix(p[1..], t, c);
      assert [p[0]] + (p[1..] + Split(t, c)[0]) == p + Split(t, c)[0];
    } else {
      assert p + t == t;
      assert p + Split(t, c)[0] == Split(t, c)[0];
      assert Split(t, c) == [Split(t, c)[0]] + Split(t, c)[1..];
    }
  }

  /** (c.join(parts)).split(c) == parts when no part holds the separator. */
  lemma {:induction false} SplitJoin(parts: seq<string>, c: char)
    requires |parts| >= 1
    requires forall k :: 0 <= k < |parts| ==> c !in parts[k]
    ensures Split(Join([c], parts), c) == parts
  {
    if |parts| == 1 {
      SplitPrefix(parts[0], "", c);
      assert parts[0] + "" == parts[0];
    } else {
      var rest := Join([c], parts[1..]);
      SplitJoin(parts[1..], c);
      assert ([c] + rest)[1..] == rest;
      assert Split([c] + rest, c) == [""] + parts[1..];
      SplitPrefix(parts[0], [c] + rest, c);
      assert parts[0] + [c] + rest == parts[0] + ([c] + rest);
      assert parts[0] + "" == parts[0];
    }
  }

  /** s.count(c) for a single character c. */
  function Count(c: char, s: string): (n: nat)
    ensures n <= |s|
  {
    if s == [] then 0 else Count(c, s[..|s| - 1]) + (if s[|s| - 1] == c then 1 else 0)
  }

  lemma {:induction false} CountMonotone(c: char, s: string, i: nat, j: nat)
    requires i <= j <= |s|
    ensures Count(c, s[..i]) <= Count(c, s[..j])
  {
    if i < j {
      assert s[..j][..j - 1] == s[..j - 1];
      CountMonotone(c, s, i, j - 1);
    }
  }

  predicate StartsWith(s: string, p: string) {
    |p| <= |s| && s[..|p|] == p
  }
}
