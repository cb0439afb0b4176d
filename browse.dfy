/** browse_repository: the directory listing split into directories and files, each
    sorted case-insensitively, and the text rendered from it. */
module Browse {
  import opened Text
  import opened Sorting
  import opened Remote

  const EmptyNote := "*Empty directory*"

  /** A single ContentFile is treated as a one-element listing. */
  function Listed(c: Contents): seq<ContentItem> {
    match c
    case SingleItem(x) => [x]
    case ItemList(xs) => xs
  }

  /** The items of the given `type`, in listing order. */
  function OfKind(xs: seq<ContentItem>, kind: string): (r: seq<ContentItem>)
    ensures forall k :: 0 <= k < |r| ==> r[k].kind == kind
    ensures forall x :: x in r <==> x in xs && x.kind == kind
  {
    if xs == [] then []
    else (if xs[0].kind == kind then [xs[0]] else []) + OfKind(xs[1..], kind)
  }

  /** The filter keeps each item of the kind as often as the listing holds it. */
  lemma {:induction false} OfKindCounts(xs: seq<ContentItem>, kind: string, x: ContentItem)
    ensures multiset(OfKind(xs, kind))[x] == if x.kind == kind then multiset(xs)[x] else 0
  {
    if xs != [] {
      assert xs == [xs[0]] + xs[1..];
      OfKindCounts(xs[1..], kind, x);
    }
  }

  /** The filter keeps listing order: filtering a listing is filtering its two parts
      one after the other. */
  lemma OfKindAppend(a: seq<ContentItem>, b: seq<ContentItem>, kind: string)
    ensures OfKind(a + b, kind) == OfKind(a, kind) + OfKind(b, kind)
  {
    OfKindIsWithKey(a + b, kind);
    OfKindIsWithKey(a, kind);
    OfKindIsWithKey(b, kind);
    WithKeyAppend(a, b, ItemKind, kind);
  }

  /** One item is kept exactly when it has the kind. */
  lemma OfKindSingle(x: ContentItem, kind: string)
    ensures OfKind([x], kind) == if x.kind == kind then [x] else []
  {
    assert [x][1..] == [];
  }

  function ItemKind(x: ContentItem): string {
    x.kind
  }

  /** The filter by kind is the sort's grouping by key, with the item's type as key. */
  lemma {:induction false} OfKindIsWithKey(xs: seq<ContentItem>, kind: string)
    ensures OfKind(xs, kind) == WithKey(xs, ItemKind, kind)
  {
    if xs != [] {
      OfKindIsWithKey(xs[1..], kind);
    }
  }

  /** The sort key name.lower(). */
  function NameKey(x: ContentItem): string {
    Lower(x.name)
  }

  datatype Listing = Listing(dirs: seq<ContentItem>, files: seq<ContentItem>)

  function ListingOf(c: Contents): Listing {
    Listing(SortBy(OfKind(Listed(c), "dir"), NameKey), SortBy(OfKind(Listed(c), "file"), NameKey))
  }

  /** Both groups are sorted by lower-cased name, hold exactly the listing's items of
      their type (with multiplicity), keep the listing order among equal keys, and
      together hold every directory and file item and nothing else. */
  lemma ListingSpec(c: Contents, k: string)
    ensures var l := ListingOf(c);
      SortedBy(l.dirs, NameKey) && SortedBy(l.files, NameKey) &&
      multiset(l.dirs) == multiset(OfKind(Listed(c), "dir")) &&
      multiset(l.files) == multiset(OfKind(Listed(c), "file")) &&
      WithKey(l.dirs, NameKey, k) == WithKey(OfKind(Listed(c), "dir"), NameKey, k) &&
      WithKey(l.files, NameKey, k) == WithKey(OfKind(Listed(c), "file"), NameKey, k)
    ensures forall x :: x in ListingOf(c).dirs <==> x in Listed(c) && x.kind == "dir"
    ensures forall x :: x in ListingOf(c).files <==> x in Listed(c) && x.kind == "file"
  {
    var dirs, files := OfKind(Listed(c), "dir"), OfKind(Listed(c), "file");
    SortByStable(dirs, NameKey, k);
    SortByStable(files, NameKey, k);
    ListingMembers(c);
  }

  /** The listing of one ContentFile is that of a list holding only it. */
  lemma SingleItemIsOneElementList(x: ContentItem)
    ensures ListingOf(SingleItem(x)) == ListingOf(ItemList([x]))
  {
  }

  function Header(repoName: string, path: string): string {
    "# " + repoName + (if path != "" then ":" + path else "")
  }

  function DirEntry(x: ContentItem): string {
    "**" + x.name + "/**"
  }

  /** A file line; the size shown is size / 1024 to one decimal, 0.0 for size 0. */
  function FileEntry(x: ContentItem): string {
    "**" + x.name + "** (" + KilobytesText(x.size) + " KB)"
  }

  function DirEntries(xs: seq<ContentItem>): (r: seq<string>)
    ensures |r| == |xs| && forall k :: 0 <= k < |xs| ==> r[k] == DirEntry(xs[k])
  {
    seq(|xs|, k requires 0 <= k < |xs| => DirEntry(xs[k]))
  }

  function FileEntries(xs: seq<ContentItem>): (r: seq<string>)
    ensures |r| == |xs| && forall k :: 0 <= k < |xs| ==> r[k] == FileEntry(xs[k])
  {
    seq(|xs|, k requires 0 <= k < |xs| => FileEntry(xs[k]))
  }

  function DirSection(dirs: seq<ContentItem>): seq<string> {
    if dirs != [] then ["## Directories"] + DirEntries(dirs) + [""] else []
  }

  function FileSection(files: seq<ContentItem>): seq<string> {
    if files != [] then ["## Files"] + FileEntries(files) else []
  }

  function BrowseLines(repoName: string, path: string, l: Listing): seq<string> {
    [Header(repoName, path), ""] + DirSection(l.dirs) + FileSection(l.files) +
    (if l.dirs == [] && l.files == [] then [EmptyNote] else [])
  }

  /** The answer of browse_repository and the calls it makes. */
  function BrowseOutcome(client: Client, repoName: string, path: string, ref: Option<string>): Outcome {
    match client.repo(repoName)
    case Err(e) => Outcome("Error browsing repository: " + e.message, [GetRepo(repoName)])
    case Ok(_) =>
      var calls := [GetRepo(repoName), GetContents(repoName, path, ref)];
      match client.contents(repoName, path, ref)
      case Err(e) => Outcome("Error accessing path '" + path + "': " + e.message, calls)
      case Ok(c) => Outcome(Unlines(BrowseLines(repoName, path, ListingOf(c))), calls)
  }

  /** Every directory line comes before every file line: directory i is line 3 + i,
      file j is line FilesStart + j, and the file lines start after the last directory. */
  lemma BrowseLayout(repoName: string, path: string, l: Listing)
    ensures var lines := BrowseLines(repoName, path, l);
      var filesStart := if l.dirs == [] then 3 else 5 + |l.dirs|;
      lines[0] == Header(repoName, path) &&
      (forall i :: 0 <= i < |l.dirs| ==> 3 + i < |lines| && lines[3 + i] == DirEntry(l.dirs[i])) &&
      (forall j :: 0 <= j < |l.files| ==> filesStart + j < |lines| && lines[filesStart + j] == FileEntry(l.files[j])) &&
      (l.dirs != [] ==> 3 + |l.dirs| < filesStart)
  {
    var lines := BrowseLines(repoName, path, l);
    var head := [Header(repoName, path), ""];
    var ds := DirSection(l.dirs);
    assert lines == head + ds + FileSection(l.files) + (if l.dirs == [] && l.files == [] then [EmptyNote] else []);
    forall i | 0 <= i < |l.dirs| ensures 3 + i < |lines| && lines[3 + i] == DirEntry(l.dirs[i]) {
      assert ds[1 + i] == DirEntry(l.dirs[i]);
    }
    forall j | 0 <= j < |l.files| ensures (if l.dirs == [] then 3 else 5 + |l.dirs|) + j < |lines| &&
                                           lines[(if l.dirs == [] then 3 else 5 + |l.dirs|) + j] == FileEntry(l.files[j]) {
      assert FileSection(l.files)[1 + j] == FileEntry(l.files[j]);
    }
  }

  lemma ListingMembers(c: Contents)
    ensures forall x :: x in ListingOf(c).dirs <==> x in Listed(c) && x.kind == "dir"
    ensures forall x :: x in ListingOf(c).files <==> x in Listed(c) && x.kind == "file"
  {
    var dirs, files := OfKind(Listed(c), "dir"), OfKind(Listed(c), "file");
    forall x ensures x in ListingOf(c).dirs <==> x in dirs {
      SortByMembers(dirs, NameKey, x);
    }
    forall x ensures x in ListingOf(c).files <==> x in files {
      SortByMembers(files, NameKey, x);
    }
  }

  /** "*Empty directory*" is a line of the answer exactly when the listing has neither
      a directory nor a file (items of other types are not listed). */
  lemma EmptyNoteExactlyWhenNothingListed(repoName: string, path: string, c: Contents)
    ensures EmptyNote in BrowseLines(repoName, path, ListingOf(c)) <==>
            forall x :: x in Listed(c) ==> x.kind != "dir" && x.kind != "file"
  {
    var l := ListingOf(c);
    ListingMembers(c);
    if l.dirs != [] || l.files != [] {
      NoEmptyNote(repoName, path, l);
      if l.dirs != [] { assert l.dirs[0] in l.dirs; } else { assert l.files[0] in l.files; }
    } else {
      assert BrowseLines(repoName, path, l) == [Header(repoName, path), "", EmptyNote];
    }
  }

  lemma NoEmptyNote(repoName: string, path: string, l: Listing)
    requires l.dirs != [] || l.files != []
    ensures EmptyNote !in BrowseLines(repoName, path, l)
  {
    forall k | 0 <= k < |BrowseLines(repoName, path, l)| ensures BrowseLines(repoName, path, l)[k] != EmptyNote {
      NotEmptyNote(repoName, path, l, k);
    }
  }

  lemma NotEmptyNote(repoName: string, path: string, l: Listing, k: nat)
    requires l.dirs != [] || l.files != []
    requires k < |BrowseLines(repoName, path, l)|
    ensures BrowseLines(repoName, path, l)[k] != EmptyNote
  {
    var lines := BrowseLines(repoName, path, l);
    var ds, fs := DirSection(l.dirs), FileSection(l.files);
    assert lines == [Header(repoName, path), ""] + ds + fs;
    assert EmptyNote[1] == 'E';
    if k == 0 {
      assert lines[0][0] == '#';
    } else if k == 1 {
    } else if k < 2 + |ds| {
      var m := k - 2;
      assert lines[k] == ds[m];
      if 1 <= m <= |l.dirs| { assert ds[m] == DirEntry(l.dirs[m - 1]); assert ds[m][1] == '*'; }
    } else {
      var m := k - 2 - |ds|;
      assert lines[k] == fs[m];
      if m >= 1 { assert fs[m] == FileEntry(l.files[m - 1]); assert fs[m][1] == '*'; }
    }
  }
}
