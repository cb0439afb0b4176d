/** POSIX pathlib paths as their strings: the components of a path, the string
    str(PurePosixPath(s)) gives, joining with `/`, and the name and suffix of a path. */
module Paths {
  import opened Text

  predicate IsAbsolute(s: string) {
    s != [] && s[0] == '/'
  }

  /** The pieces between slashes, without the empty ones and the "." ones. */
  function Keep(pieces: seq<string>): (r: seq<string>)
    ensures forall k :: 0 <= k < |r| ==> r[k] != "" && r[k] != "." && r[k] in pieces
  {
    if pieces == [] then []
    else (if pieces[0] == "" || pieces[0] == "." then [] else [pieces[0]]) + Keep(pieces[1..])
  }

  lemma {:induction false} KeepKeepsClean(pieces: seq<string>)
    requires forall k :: 0 <= k < |pieces| ==> pieces[k] != "" && pieces[k] != "."
    ensures Keep(pieces) == pieces
  {
    if pieces != [] {
      KeepKeepsClean(pieces[1..]);
    }
  }

  /** PurePosixPath(s).parts, leaving out the leading "/" of an absolute path. */
  function Components(s: string): (r: seq<string>)
    ensures forall k :: 0 <= k < |r| ==> r[k] != "" && r[k] != "." && '/' !in r[k]
  {
    Keep(Split(s, '/'))
  }

  /** The root pathlib keeps: "//" for exactly two leading slashes (POSIX leaves its
      meaning to the implementation), "/" for one or three and more, "" otherwise. */
  function Root(s: string): (r: string)
    ensures r == "" <==> !IsAbsolute(s)
    ensures r == "//" ==> |s| >= 2 && s[..2] == "//" && (|s| == 2 || s[2] != '/')
  {
    if |s| >= 2 && s[0] == '/' && s[1] == '/' && (|s| == 2 || s[2] != '/') then "//"
    else if IsAbsolute(s) then "/"
    else ""
  }

  /** str(PurePosixPath(s)): the root, then the components joined by "/", or "." for
      nothing at all. */
  function NormPath(s: string): (r: string)
    ensures r != []
  {
    var body := Join("/", Components(s));
    if Root(s) == "" && body == "" then "." else Root(s) + body
  }

  /** Normalising keeps the components and the root, so it is idempotent on everything
      pathlib would distinguish. */
  lemma NormPathKeepsComponents(s: string)
    ensures Components(NormPath(s)) == Components(s)
    ensures IsAbsolute(NormPath(s)) == IsAbsolute(s)
    ensures Root(NormPath(s)) == Root(s)
  {
    var comps := Components(s);
    var body := Join("/", comps);
    var root := Root(s);
    assert root == "" || root == "/" || root == "//";
    if comps == [] {
      BareRoots();
      assert NormPath(s) == (if root == "" then "." else root);
    } else {
      SplitJoin(comps, '/');
      KeepKeepsClean(comps);
      JoinHead(comps);
      RootedBody(body);
      assert NormPath(s) == root + body;
      assert root + body == (if root == "" then body else if root == "/" then "/" + body else "//" + body);
    }
  }

  /** The roots alone, and ".", have no components. */
  lemma BareRoots()
    ensures Components("/") == [] && Root("/") == "/"
    ensures Components("//") == [] && Root("//") == "//"
    ensures Components(".") == [] && Root(".") == ""
  {
    assert Split("/", '/') == ["", ""] by { assert "/"[1..] == ""; }
    assert Keep(["", ""]) == [] by { assert ["", ""][1..] == [""]; }
    assert Split("//", '/') == ["", "", ""] by {
      assert "//"[1..] == "/";
      assert "/"[1..] == "";
    }
    assert Keep(["", "", ""]) == [] by {
      assert ["", "", ""][1..] == ["", ""];
      assert ["", ""][1..] == [""];
    }
    assert Split(".", '/') == ["."] by {
      assert "."[1..] == "";
      assert Split("", '/') == [""];
      assert ['.'] + "" == ".";
    }
    assert Keep(["."]) == [] by { assert ["."][1..] == []; }
  }

  /** A relative body keeps its components under either root. */
  lemma RootedBody(body: string)
    requires body != "" && body[0] != '/'
    ensures Root(body) == "" && Root("/" + body) == "/" && Root("//" + body) == "//"
    ensures Components("/" + body) == Components(body)
    ensures Components("//" + body) == Components(body)
  {
    assert ("/" + body)[1..] == body;
    assert ("//" + body)[1..] == "/" + body;
    assert ("//" + body)[2] == body[0];
    var parts := Split(body, '/');
    assert Split("/" + body, '/') == [""] + parts;
    assert Split("//" + body, '/') == [""] + ([""] + parts);
    assert Keep([""] + parts) == Keep(parts) by { assert ([""] + parts)[1..] == parts; }
    assert Keep([""] + ([""] + parts)) == Keep([""] + parts) by {
      assert ([""] + ([""] + parts))[1..] == [""] + parts;
    }
  }

  /** A join of clean components starts with the first component's first character. */
  lemma JoinHead(comps: seq<string>)
    requires comps != [] && comps[0] != "" && '/' !in comps[0]
    ensures Join("/", comps) != "" && Join("/", comps)[0] == comps[0][0] && Join("/", comps)[0] != '/'
  {
    if |comps| > 1 {
      assert Join("/", comps) == comps[0] + "/" + Join("/", comps[1..]);
    }
  }

  /** posixpath.join(base, rel): a "/" is added only when base does not already end in one. */
  function JoinPath(base: string, rel: string): string {
    if base == "" || base[|base| - 1] == '/' then base + rel else base + "/" + rel
  }

  /** Path(base) / rel: the joined string, read back by pathlib. */
  function Under(base: string, rel: string): string {
    NormPath(JoinPath(base, rel))
  }

  /** A relative path joined under base keeps base's root and follows base's components
      with its own. */
  lemma UnderParts(base: string, rel: string)
    requires !IsAbsolute(rel)
    ensures Root(Under(base, rel)) == Root(base)
    ensures Components(Under(base, rel)) == Components(base) + Components(rel)
  {
    NormPathKeepsComponents(JoinPath(base, rel));
    JoinPathParts(base, rel);
  }

  lemma JoinPathParts(base: string, rel: string)
    requires !IsAbsolute(rel)
    ensures Root(JoinPath(base, rel)) == Root(base)
    ensures Components(JoinPath(base, rel)) == Components(base) + Components(rel)
  {
    if base == "" {
      assert JoinPath(base, rel) == rel;
      assert Components(base) == [] by { assert Split(base, '/') == [""]; }
    } else if base[|base| - 1] == '/' {
      RootExtends(base, rel);
      JoinAfterSlash(base, rel);
    } else {
      assert JoinPath(base, rel) == base + ("/" + rel);
      RootExtends(base, "/" + rel);
      SplitConcat(base, rel);
      KeepAppend(Split(base, '/'), Split(rel, '/'));
    }
  }

  /** A base ending in "/" adds nothing to the components of what follows it. */
  lemma JoinAfterSlash(base: string, rel: string)
    requires base != "" && base[|base| - 1] == '/'
    ensures Components(base + rel) == Components(base) + Components(rel)
  {
    var b0 := base[..|base| - 1];
    assert base == b0 + "/";
    assert base + rel == b0 + "/" + rel;
    SplitConcat(b0, rel);
    KeepAppend(Split(b0, '/'), Split(rel, '/'));
    TrailingSlash(b0);
  }

  /** A trailing slash adds no component. */
  lemma TrailingSlash(b0: string)
    ensures Components(b0 + "/") == Keep(Split(b0, '/'))
  {
    assert b0 + "/" == b0 + "/" + "";
    SplitConcat(b0, "");
    assert Split("", '/') == [""];
    KeepAppend(Split(b0, '/'), [""]);
    assert Keep([""]) == [] by { assert [""][1..] == []; }
  }

  /** A folder joined under a home directory of "/" is "/" and its name, without a
      doubled slash. */
  lemma RootHomeJoin(d: string)
    requires d != "" && d != "." && '/' !in d
    ensures Under("/", d) == "/" + d
  {
    var p := JoinPath("/", d);
    assert d[0] in d;
    JoinPathParts("/", d);
    WordComponents(d);
    BareRoots();
    assert Keep([d]) == [d] by { assert [d][1..] == []; }
    assert Components(p) == [d] && Root(p) == "/";
    assert Join("/", [d]) == d;
  }

  /** Text appended to a path leaves its root alone, unless the path ends in a slash and
      the text starts with one. */
  lemma RootExtends(base: string, x: string)
    requires base != ""
    requires base[|base| - 1] == '/' ==> !IsAbsolute(x)
    ensures Root(base + x) == Root(base)
  {
    var s := base + x;
    assert s[0] == base[0];
    if |base| >= 3 {
      assert s[1] == base[1] && s[2] == base[2];
    } else if |base| == 2 {
      assert s[1] == base[1];
      if |x| > 0 { assert s[2] == x[0]; }
    } else if |x| > 0 {
      assert s[1] == x[0];
      if |x| > 1 { assert s[2] == x[1]; }
    }
  }

  /** A single name without slashes is its own only component, unless it is "" or ".". */
  lemma WordComponents(w: string)
    requires '/' !in w
    ensures Components(w) == Keep([w])
  {
    assert Join("/", [w]) == w;
    SplitJoin([w], '/');
  }

  /** Splitting at a joining slash splits each side. */
  lemma {:induction false} SplitConcat(a: string, b: string)
    ensures Split(a + "/" + b, '/') == Split(a, '/') + Split(b, '/')
  {
    if a == [] {
      assert a + "/" + b == ['/'] + b;
      assert (['/'] + b)[1..] == b;
    } else {
      assert (a + "/" + b)[1..] == a[1..] + "/" + b;
      SplitConcat(a[1..], b);
    }
  }

  /** Dropping empty and "." pieces works piece by piece. */
  lemma {:induction false} KeepAppend(a: seq<string>, b: seq<string>)
    ensures Keep(a + b) == Keep(a) + Keep(b)
  {
    if a != [] {
      assert (a + b)[1..] == a[1..] + b;
      KeepAppend(a[1..], b);
    } else {
      assert a + b == b;
    }
  }


  /** PurePath.name: the last component, "" when there is none. */
  function Name(s: string): (r: string)
    ensures r == "" || r in Components(s)
  {
    var comps := Components(s);
    if comps == [] then "" else comps[|comps| - 1]
  }

  /** The index of the last occurrence of c in s, or -1 (str.rfind). */
  function RFind(s: string, c: char): (i: int)
    ensures -1 <= i < |s|
    ensures i >= 0 ==> s[i] == c && c !in s[i + 1..]
    ensures i == -1 ==> c !in s
  {
    if s == [] then -1
    else if s[|s| - 1] == c then |s| - 1
    else
      var i := RFind(s[..|s| - 1], c);
      assert s[i + 1..] == s[..|s| - 1][i + 1..] + [s[|s| - 1]];
      i
  }

  /** PurePath.suffix of a name: from its last dot, when that dot is neither the first
      nor the last character; "" otherwise. */
  function NameSuffix(name: string): (r: string)
    ensures r == "" || (2 <= |r| <= |name| && r[0] == '.' && '.' !in r[1..] && r == name[|name| - |r|..])
  {
    var i := RFind(name, '.');
    if 0 < i < |name| - 1 then name[i..] else ""
  }

  function Suffix(s: string): string {
    NameSuffix(Name(s))
  }
}
