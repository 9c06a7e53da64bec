/**
 Git's side of the inventory: stored tree objects, the recursive listing that `source_tree` reads, and
 the agreement between that listing and the inventory check.
 */
module GitObjects {
  import opened Prelude
  import opened GitTree
  import opened GitInventory
  import opened GitListing
  import Utf8

  datatype Stored = StoredBlob(mode: string, id: string) | StoredTree(entries: seq<StoredEntry>)

  datatype StoredEntry = StoredEntry(name: string, node: Stored)

  function KeyOf(e: StoredEntry): string {
    Key(e.name, e.node.StoredTree?)
  }

  /** What Git itself guarantees of a tree object whose files have release modes. */
  ghost predicate Canonical(g: Stored)
    decreases g
  {
    match g
    case StoredBlob(mode, id) => mode in MODES && |id| == 20
    case StoredTree(entries) =>
      && (forall i :: 0 <= i < |entries| ==> ProperName(entries[i].name) && Canonical(entries[i].node))
      && (forall i, j :: 0 <= i < j < |entries| ==> entries[i].name != entries[j].name)
      && (forall i, j :: 0 <= i < j < |entries| ==> Less(KeyOf(entries[i]), KeyOf(entries[j])))
  }

  function StoredId(sha1: Sha1, g: Stored): string
    decreases g
  {
    match g
    case StoredBlob(_, id) => id
    case StoredTree(entries) => sha1(Preimage("tree", StoredBytes(sha1, entries)))
  }

  function StoredBytes(sha1: Sha1, entries: seq<StoredEntry>): string
    decreases entries
  {
    if entries == [] then ""
    else
      var e := entries[0];
      ItemBytes(Item(if e.node.StoredTree? then DIRECTORY else e.node.mode, e.name, StoredId(sha1, e.node)))
      + StoredBytes(sha1, entries[1..])
  }

  datatype Listed = Listed(path: Path, kind: Kind)

  function KindOf(g: Stored): Kind {
    if g.StoredTree? then Folder else File(g.mode, g.id)
  }

  /** The recursive listing with directories: pre-order, entries as stored. */
  function Listing(prefix: Path, entries: seq<StoredEntry>): seq<Listed>
    decreases entries
  {
    if entries == [] then []
    else
      var e := entries[0];
      [Listed(prefix + [e.name], KindOf(e.node))]
      + (if e.node.StoredTree? then Listing(prefix + [e.name], e.node.entries) else [])
      + Listing(prefix, entries[1..])
  }

  function FileOf(l: Listed): seq<FileAt> {
    if l.kind.File? then [FileAt(l.path, l.kind.mode, l.kind.id)] else []
  }

  function FilesOf(listing: seq<Listed>): seq<FileAt> {
    if listing == [] then [] else FileOf(listing[0]) + FilesOf(listing[1..])
  }

  function FoldersOf(listing: seq<Listed>): seq<string> {
    if listing == [] then []
    else (if listing[0].kind.Folder? then [Join(listing[0].path)] else []) + FoldersOf(listing[1..])
  }

  /** What `source_tree` records for a commit. */
  function Recorded(commitObject: string, entries: seq<StoredEntry>): Inventory {
    var listing := Listing([], entries);
    Inventory(commitObject, RowsOf(FilesOf(listing)), FoldersOf(listing))
  }

  // ---------- The tree a stored object denotes ----------

  function ToNode(g: Stored): Node
    decreases g
  {
    match g
    case StoredBlob(mode, id) => Blob(mode, id)
    case StoredTree(entries) => Tree(ToEntries(entries))
  }

  function ToEntries(entries: seq<StoredEntry>): map<string, Node>
    decreases entries
  {
    if entries == [] then map[] else ToEntries(entries[1..])[entries[0].name := ToNode(entries[0].node)]
  }

  function Names(entries: seq<StoredEntry>): seq<string> {
    seq(|entries|, i requires 0 <= i < |entries| => entries[i].name)
  }

  lemma {:induction false} EntriesByName(entries: seq<StoredEntry>)
    requires forall i, j :: 0 <= i < j < |entries| ==> entries[i].name != entries[j].name
    ensures ToEntries(entries).Keys == Elements(Names(entries))
    ensures forall i :: 0 <= i < |entries| ==> entries[i].name in ToEntries(entries) && ToEntries(entries)[entries[i].name] == ToNode(entries[i].node)
    decreases |entries|
  {
    if entries == [] {
      assert Names(entries) == [];
    } else {
      EntriesByName(entries[1..]);
      assert Names(entries) == [entries[0].name] + Names(entries[1..]);
      forall i | 0 <= i < |entries|
        ensures entries[i].name in ToEntries(entries) && ToEntries(entries)[entries[i].name] == ToNode(entries[i].node)
      {
        if i > 0 {
          assert entries[i] == entries[1..][i - 1] && entries[0].name != entries[i].name;
        }
      }
    }
  }

  lemma NamesSorted(entries: seq<StoredEntry>)
    requires Canonical(StoredTree(entries))
    ensures var m := ToEntries(entries); Sorted(m, m.Keys) == Names(entries)
  {
    EntriesByName(entries);
    var m := ToEntries(entries);
    var names := Names(entries);
    forall i, j | 0 <= i < j < |names| ensures Less(KeyIn(m, names[i]), KeyIn(m, names[j])) {
      assert m[names[i]] == ToNode(entries[i].node) && m[names[j]] == ToNode(entries[j].node);
      assert Less(KeyOf(entries[i]), KeyOf(entries[j]));
    }
    SortedIsCanonical(m, names);
  }

  // ---------- Identifiers agree ----------

  lemma {:induction false} SameId(sha1: Sha1, g: Stored)
    requires Canonical(g)
    ensures StoredId(sha1, g) == Id(sha1, ToNode(g))
    decreases g
  {
    if g.StoredTree? {
      NamesSorted(g.entries);
      EntriesByName(g.entries);
      var items := Items(sha1, ToNode(g));
      forall i | 0 <= i < |items| ensures items[i] == StoredItem(sha1, g.entries[i]) {
        var e := g.entries[i];
        SameId(sha1, e.node);
        assert ToNode(g).entries[e.name] == ToNode(e.node);
      }
      SameBytes(sha1, g.entries, items);
    }
  }

  function StoredItem(sha1: Sha1, e: StoredEntry): Item {
    Item(if e.node.StoredTree? then DIRECTORY else e.node.mode, e.name, StoredId(sha1, e.node))
  }

  lemma {:induction false} SameBytes(sha1: Sha1, entries: seq<StoredEntry>, items: seq<Item>)
    requires |items| == |entries| && forall i :: 0 <= i < |items| ==> items[i] == StoredItem(sha1, entries[i])
    ensures StoredBytes(sha1, entries) == Flatten(items)
    decreases |entries|
  {
    if entries != [] {
      SameBytes(sha1, entries[1..], items[1..]);
    }
  }

  // ---------- Listings agree ----------

  ghost predicate ProperPath(p: Path) {
    forall i :: 0 <= i < |p| ==> ProperName(p[i])
  }

  lemma RestCanonical(entries: seq<StoredEntry>)
    requires Canonical(StoredTree(entries)) && entries != []
    ensures Canonical(StoredTree(entries[1..])) && Canonical(entries[0].node) && ProperName(entries[0].name)
    ensures entries[0].name !in ToEntries(entries[1..])
  {
    EntriesByName(entries[1..]);
    assert Canonical(entries[0].node);
  }

  ghost predicate Leads(prefix: Path, n: Node, l: Listed) {
    && |prefix| < |l.path| && l.path[..|prefix|] == prefix && ProperPath(l.path[|prefix|..])
    && Lookup(n, l.path[|prefix|..]) == Some(l.kind)
  }

  lemma LeadsDown(prefix: Path, n: Node, name: string, l: Listed)
    requires n.Tree? && name in n.entries && ProperName(name) && Leads(prefix + [name], n.entries[name], l)
    ensures Leads(prefix, n, l) && l.path[|prefix|] == name
  {
    var p := l.path;
    assert p[..|prefix|] == p[..|prefix| + 1][..|prefix|] && p[|prefix|] == p[..|prefix| + 1][|prefix|];
    assert p[|prefix|..] == [name] + p[|prefix| + 1..];
  }

  lemma LeadsPast(prefix: Path, entries: seq<StoredEntry>, l: Listed)
    requires Canonical(StoredTree(entries)) && entries != [] && Leads(prefix, Tree(ToEntries(entries[1..])), l)
    ensures Leads(prefix, Tree(ToEntries(entries)), l) && l.path[|prefix|] != entries[0].name
  {
    RestCanonical(entries);
  }

  /** Every listed path leads to what is listed for it. */
  lemma {:induction false} ListingSound(prefix: Path, entries: seq<StoredEntry>, l: Listed)
    requires Canonical(StoredTree(entries)) && l in Listing(prefix, entries)
    ensures Leads(prefix, Tree(ToEntries(entries)), l)
    decreases entries
  {
    RestCanonical(entries);
    var e := entries[0];
    var n := Tree(ToEntries(entries));
    if l in Listing(prefix, entries[1..]) {
      ListingSound(prefix, entries[1..], l);
      LeadsPast(prefix, entries, l);
    } else if l == Listed(prefix + [e.name], KindOf(e.node)) {
      assert l.path[|prefix|..] == [e.name];
      assert Lookup(ToNode(e.node), []) == Some(l.kind);
    } else {
      ListingSound(prefix + [e.name], e.node.entries, l);
      assert ToNode(e.node) == Tree(ToEntries(e.node.entries)) && n.entries[e.name] == ToNode(e.node);
      LeadsDown(prefix, n, e.name, l);
    }
  }

  /** Everything a path leads to is listed. */
  lemma {:induction false} ListingComplete(prefix: Path, entries: seq<StoredEntry>, q: Path, kind: Kind)
    requires Canonical(StoredTree(entries)) && q != [] && Lookup(Tree(ToEntries(entries)), q) == Some(kind)
    ensures Listed(prefix + q, kind) in Listing(prefix, entries)
    decreases entries
  {
    RestCanonical(entries);
    var e := entries[0];
    if q[0] != e.name {
      ListingComplete(prefix, entries[1..], q, kind);
    } else if |q| == 1 {
      assert q == [e.name];
    } else {
      ListingComplete(prefix + [e.name], e.node.entries, q[1..], kind);
      assert prefix + [e.name] + q[1..] == prefix + q;
    }
  }

  ghost predicate PathsDistinct(listing: seq<Listed>) {
    forall i, j :: 0 <= i < j < |listing| ==> listing[i].path != listing[j].path
  }

  lemma ThreeBlocks(a: seq<Listed>, b: seq<Listed>, c: seq<Listed>)
    requires |a| == 1 && PathsDistinct(b) && PathsDistinct(c)
    requires forall x :: x in b ==> x.path != a[0].path
    requires forall x :: x in c ==> x.path != a[0].path
    requires forall x, y :: x in b && y in c ==> x.path != y.path
    ensures PathsDistinct(a + b + c)
  {
    var s := a + b + c;
    forall i, j | 0 <= i < j < |s| ensures s[i].path != s[j].path {
      assert s[j] == if j < 1 + |b| then b[j - 1] else c[j - 1 - |b|];
      assert i > 0 ==> s[i] == if i < 1 + |b| then b[i - 1] else c[i - 1 - |b|];
    }
  }

  lemma {:induction false} ListingDistinct(prefix: Path, entries: seq<StoredEntry>)
    requires Canonical(StoredTree(entries))
    ensures PathsDistinct(Listing(prefix, entries))
    decreases entries
  {
    if entries != [] {
      RestCanonical(entries);
      var e := entries[0];
      var below := if e.node.StoredTree? then Listing(prefix + [e.name], e.node.entries) else [];
      var rest := Listing(prefix, entries[1..]);
      ListingDistinct(prefix, entries[1..]);
      if e.node.StoredTree? {
        ListingDistinct(prefix + [e.name], e.node.entries);
      }
      forall x | x in below ensures |x.path| > |prefix| + 1 && x.path[|prefix|] == e.name {
        ListingSound(prefix + [e.name], e.node.entries, x);
        assert ToEntries(entries)[e.name] == Tree(ToEntries(e.node.entries));
        LeadsDown(prefix, Tree(ToEntries(entries)), e.name, x);
      }
      forall x | x in rest ensures |x.path| > |prefix| && x.path[|prefix|] != e.name {
        ListingSound(prefix, entries[1..], x);
        LeadsPast(prefix, entries, x);
      }
      ThreeBlocks([Listed(prefix + [e.name], KindOf(e.node))], below, rest);
    }
  }

  lemma Associative(a: seq<FileAt>, b: seq<FileAt>, c: seq<FileAt>)
    ensures (a + b) + c == a + (b + c)
  {
  }

  lemma {:induction false} FilesOfAppend(a: seq<Listed>, b: seq<Listed>)
    ensures FilesOf(a + b) == FilesOf(a) + FilesOf(b)
  {
    if a == [] {
      assert a + b == b;
    } else {
      FilesOfAppend(a[1..], b);
      assert (a + b)[1..] == a[1..] + b && (a + b)[0] == a[0];
      Associative(FileOf(a[0]), FilesOf(a[1..]), FilesOf(b));
    }
  }

  /** The listed files are those `encode` visits, in the same order. */
  lemma {:induction false} SameFiles(prefix: Path, n: Node, entries: seq<StoredEntry>)
    requires Canonical(StoredTree(entries)) && n.Tree? && Elements(Names(entries)) <= n.entries.Keys
    requires forall i :: 0 <= i < |entries| ==> entries[i].name in n.entries && n.entries[entries[i].name] == ToNode(entries[i].node)
    ensures FilesOf(Listing(prefix, entries)) == FilesIn(prefix, n, Names(entries))
    decreases entries
  {
    if entries != [] {
      RestCanonical(entries);
      var e := entries[0];
      SameFiles(prefix, n, entries[1..]);
      if e.node.StoredTree? {
        NamesSorted(e.node.entries);
        EntriesByName(e.node.entries);
        SameFiles(prefix + [e.name], ToNode(e.node), e.node.entries);
      }
      FilesOfFirst(prefix, entries);
      assert Names(entries)[0] == e.name && Names(entries)[1..] == Names(entries[1..]);
    }
  }

  lemma FilesOfFirst(prefix: Path, entries: seq<StoredEntry>)
    requires entries != []
    ensures var e := entries[0];
            FilesOf(Listing(prefix, entries)) ==
            (if e.node.StoredTree? then FilesOf(Listing(prefix + [e.name], e.node.entries))
             else [FileAt(prefix + [e.name], e.node.mode, e.node.id)]) + FilesOf(Listing(prefix, entries[1..]))
  {
    var e := entries[0];
    FilesOfBlocks(Listed(prefix + [e.name], KindOf(e.node)),
                  if e.node.StoredTree? then Listing(prefix + [e.name], e.node.entries) else [],
                  Listing(prefix, entries[1..]));
  }

  lemma FilesOfBlocks(l: Listed, below: seq<Listed>, rest: seq<Listed>)
    ensures FilesOf([l] + below + rest) == FileOf(l) + FilesOf(below) + FilesOf(rest)
    ensures below == [] ==> FilesOf(below) == []
  {
    FilesOfAppend([l] + below, rest);
    assert ([l] + below)[1..] == below;
  }

  lemma ListedRows(entries: seq<StoredEntry>)
    requires Canonical(StoredTree(entries))
    ensures Rows(ToNode(StoredTree(entries))) == RowsOf(FilesOf(Listing([], entries)))
  {
    NamesSorted(entries);
    EntriesByName(entries);
    SameFiles([], ToNode(StoredTree(entries)), entries);
  }

  lemma {:induction false} DenotesWellFormed(g: Stored)
    requires Canonical(g)
    ensures WellFormed(ToNode(g))
    decreases g
  {
    if g.StoredTree? {
      EntriesByName(g.entries);
      var n := ToNode(g);
      forall name | name in n.entries ensures ProperName(name) && WellFormed(n.entries[name]) {
        assert name in Elements(Names(g.entries));
        var i :| 0 <= i < |g.entries| && g.entries[i].name == name;
        DenotesWellFormed(g.entries[i].node);
      }
    }
  }

  // ---------- Every listing in bounds is accepted ----------

  lemma {:induction false} PrefixFront(p: Path)
    requires p != []
    ensures Prefix(p) == p[0] + "/" + Prefix(p[1..])
    decreases |p|
  {
    var q := p[..|p| - 1];
    if |p| > 1 {
      PrefixFront(q);
      assert q[1..] == p[1..][..|p[1..]| - 1];
      var x, y := p[0] + "/", Prefix(q[1..]);
      assert (x + y) + p[|p| - 1] + "/" == x + (y + p[|p| - 1] + "/");
    } else {
      assert Prefix(q) == "" && Prefix(p[1..]) == "";
    }
  }

  lemma SplitFront(a: string, b: string)
    requires '/' !in a
    ensures Split(a + "/" + b) == [a] + Split(b)
  {
    var s := a + "/" + b;
    var k := Slash(s);
    assert s[|a|] == '/' && forall i :: 0 <= i < |a| ==> s[i] != '/';
    assert k == |a| && s[..k] == a && s[k + 1..] == b;
  }

  lemma SplitOne(a: string)
    requires '/' !in a
    ensures Split(a) == [a]
  {
  }

  lemma Regroup(a: string, b: string, x: string)
    ensures (a + "/" + b) + x == a + "/" + (b + x)
  {
  }

  lemma FrontOf(p: Path, x: string)
    requires p != []
    ensures [p[0]] + (p[1..] + [x]) == p + [x]
  {
  }

  lemma {:induction false} SplitJoin(p: Path, x: string)
    requires ProperPath(p) && '/' !in x
    ensures Split(Prefix(p) + x) == p + [x]
    decreases |p|
  {
    if p == [] {
      assert Prefix(p) + x == x;
      SplitOne(x);
    } else {
      PrefixFront(p);
      SplitJoin(p[1..], x);
      Regroup(p[0], Prefix(p[1..]), x);
      SplitFront(p[0], Prefix(p[1..]) + x);
      FrontOf(p, x);
    }
  }

  lemma {:induction false} PrefixPlain(p: Path)
    requires ProperPath(p)
    ensures '\0' !in Prefix(p)
    decreases |p|
  {
    if p != [] {
      PrefixPlain(p[..|p| - 1]);
      assert ProperName(p[|p| - 1]);
    }
  }

  /** A path is text exactly when each of its names is. */
  lemma {:induction false} TextOfPath(p: Path, x: string)
    ensures Utf8.Valid(Prefix(p) + x) <==> Text(p) && Utf8.Valid(x)
    decreases |p|
  {
    if p == [] {
      assert Prefix(p) + x == x;
    } else {
      PrefixFront(p);
      var rest := Prefix(p[1..]) + x;
      Regroup(p[0], Prefix(p[1..]), x);
      Utf8.ValidAround(p[0], rest);
      TextOfPath(p[1..], x);
      assert Text(p) <==> Utf8.Valid(p[0]) && Text(p[1..]);
    }
  }

  ghost predicate Text(p: Path) {
    forall i :: 0 <= i < |p| ==> Utf8.Valid(p[i])
  }

  /** What the inventory check asks of a path. */
  ghost predicate Fits(p: Path) {
    |Join(p)| <= 4096 && |p| <= 64 && Text(p)
  }

  /** The segments of a joined path are the path, exactly within the limits. */
  lemma SegmentsOfJoin(p: Path)
    requires ProperPath(p) && p != []
    ensures Parts(Join(p)).Ok? <==> Fits(p)
    ensures Parts(Join(p)).Ok? ==> Segments(Join(p)) == p
  {
    var q, x := p[..|p| - 1], p[|p| - 1];
    SplitJoin(q, x);
    PrefixPlain(q);
    TextOfPath(q, x);
    assert q + [x] == p;
    assert ProperName(x);
    forall i | 0 <= i < |p| ensures p[i] !in {"", ".", ".."} {
      assert ProperName(p[i]);
    }
  }

  ghost predicate InBounds(listing: seq<Listed>) {
    && 0 < |FilesOf(listing)| <= MAX_ROWS && |FoldersOf(listing)| <= MAX_ROWS
    && forall l :: l in listing ==> Fits(l.path)
  }

  lemma {:induction false} FileListed(listing: seq<Listed>, i: nat)
    requires i < |FilesOf(listing)|
    ensures var f := FilesOf(listing)[i]; Listed(f.path, File(f.mode, f.id)) in listing
  {
    var k := |FileOf(listing[0])|;
    if i >= k {
      FileListed(listing[1..], i - k);
    }
  }

  lemma {:induction false} ListedFile(listing: seq<Listed>, l: Listed)
    requires l in listing && l.kind.File?
    ensures exists i :: 0 <= i < |FilesOf(listing)| && FilesOf(listing)[i] == FileAt(l.path, l.kind.mode, l.kind.id)
  {
    var k := |FileOf(listing[0])|;
    if l == listing[0] {
      assert FilesOf(listing)[0] == FileAt(l.path, l.kind.mode, l.kind.id);
    } else {
      ListedFile(listing[1..], l);
      var i :| 0 <= i < |FilesOf(listing[1..])| && FilesOf(listing[1..])[i] == FileAt(l.path, l.kind.mode, l.kind.id);
      assert FilesOf(listing)[k + i] == FileAt(l.path, l.kind.mode, l.kind.id);
    }
  }

  lemma {:induction false} FilesDistinct(listing: seq<Listed>, i: nat, j: nat)
    requires PathsDistinct(listing) && i < j < |FilesOf(listing)|
    ensures FilesOf(listing)[i].path != FilesOf(listing)[j].path
  {
    var k := |FileOf(listing[0])|;
    if i >= k {
      FilesDistinct(listing[1..], i - k, j - k);
    } else {
      FileListed(listing[1..], j - k);
    }
  }

  lemma {:induction false} FolderListed(listing: seq<Listed>, i: nat) returns (l: Listed)
    requires i < |FoldersOf(listing)|
    ensures l in listing && l.kind.Folder? && FoldersOf(listing)[i] == Join(l.path)
  {
    var k := if listing[0].kind.Folder? then 1 else 0;
    if i >= k {
      l := FolderListed(listing[1..], i - k);
    } else {
      l := listing[0];
    }
  }

  lemma {:induction false} ListedFolder(listing: seq<Listed>, l: Listed)
    requires l in listing && l.kind.Folder?
    ensures exists i :: 0 <= i < |FoldersOf(listing)| && FoldersOf(listing)[i] == Join(l.path)
  {
    var k := if listing[0].kind.Folder? then 1 else 0;
    if l == listing[0] {
      assert FoldersOf(listing)[0] == Join(l.path);
    } else {
      ListedFolder(listing[1..], l);
      var i :| 0 <= i < |FoldersOf(listing[1..])| && FoldersOf(listing[1..])[i] == Join(l.path);
      assert FoldersOf(listing)[k + i] == Join(l.path);
    }
  }

  /** A listed path in its written form. */
  lemma ListedSegments(entries: seq<StoredEntry>, l: Listed)
    requires Canonical(StoredTree(entries)) && l in Listing([], entries)
    ensures Parts(Join(l.path)).Ok? <==> Fits(l.path)
    ensures Parts(Join(l.path)).Ok? ==> Segments(Join(l.path)) == l.path
    ensures l.path != [] && Lookup(ToNode(StoredTree(entries)), l.path) == Some(l.kind)
    ensures l.kind.File? ==> l.kind.mode in MODES && |l.kind.id| == 20
  {
    ListingSound([], entries, l);
    assert l.path[0..] == l.path;
    SegmentsOfJoin(l.path);
    DenotesWellFormed(StoredTree(entries));
    if l.kind.File? {
      FileWellFormed(ToNode(StoredTree(entries)), l.path);
    }
  }

  lemma {:induction false} FileWellFormed(n: Node, p: Path)
    requires WellFormed(n) && Lookup(n, p).Some? && Lookup(n, p).value.File?
    ensures Lookup(n, p).value.mode in MODES && |Lookup(n, p).value.id| == 20
    decreases |p|
  {
    if p != [] {
      FileWellFormed(n.entries[p[0]], p[1..]);
    }
  }

  lemma RecordedFolders(entries: seq<StoredEntry>, i: nat)
    requires Canonical(StoredTree(entries)) && InBounds(Listing([], entries)) && i < |FoldersOf(Listing([], entries))|
    ensures ListsFolder(ToNode(StoredTree(entries)), FoldersOf(Listing([], entries))[i])
  {
    var l := FolderListed(Listing([], entries), i);
    ListedSegments(entries, l);
  }

  lemma RecordedFiles(entries: seq<StoredEntry>, i: nat)
    requires Canonical(StoredTree(entries)) && InBounds(Listing([], entries)) && i < |FilesOf(Listing([], entries))|
    ensures ListsFile(ToNode(StoredTree(entries)), RowsOf(FilesOf(Listing([], entries)))[i])
    ensures Segments(RowsOf(FilesOf(Listing([], entries)))[i].path) == FilesOf(Listing([], entries))[i].path
  {
    var f := FilesOf(Listing([], entries))[i];
    FileListed(Listing([], entries), i);
    ListedSegments(entries, Listed(f.path, File(f.mode, f.id)));
  }

  lemma FolderNamed(entries: seq<StoredEntry>, p: Path)
    requires Canonical(StoredTree(entries)) && InBounds(Listing([], entries))
    requires p != [] && Lookup(ToNode(StoredTree(entries)), p) == Some(Folder)
    ensures Named(FoldersOf(Listing([], entries)), p)
  {
    var listing := Listing([], entries);
    ListingComplete([], entries, p, Folder);
    assert [] + p == p;
    ListedSegments(entries, Listed(p, Folder));
    ListedFolder(listing, Listed(p, Folder));
    var i :| 0 <= i < |FoldersOf(listing)| && FoldersOf(listing)[i] == Join(p);
    assert Segments(FoldersOf(listing)[i]) == p;
  }

  lemma FileNamed(entries: seq<StoredEntry>, p: Path)
    requires Canonical(StoredTree(entries)) && InBounds(Listing([], entries))
    requires Lookup(ToNode(StoredTree(entries)), p).Some? && Lookup(ToNode(StoredTree(entries)), p).value.File?
    ensures NamedFile(RowsOf(FilesOf(Listing([], entries))), p)
  {
    var listing := Listing([], entries);
    var kind := Lookup(ToNode(StoredTree(entries)), p).value;
    ListingComplete([], entries, p, kind);
    assert [] + p == p;
    ListedFile(listing, Listed(p, kind));
    var i :| 0 <= i < |FilesOf(listing)| && FilesOf(listing)[i] == FileAt(p, kind.mode, kind.id);
    RecordedFiles(entries, i);
    assert Segments(RowsOf(FilesOf(listing))[i].path) == p;
  }

  lemma RecordedLists(raw: string, entries: seq<StoredEntry>)
    requires Canonical(StoredTree(entries)) && InBounds(Listing([], entries))
    ensures Lists(ToNode(StoredTree(entries)), Recorded(raw, entries))
  {
    var n, r, listing := ToNode(StoredTree(entries)), Recorded(raw, entries), Listing([], entries);
    forall i | 0 <= i < |r.directories| ensures ListsFolder(n, r.directories[i]) {
      RecordedFolders(entries, i);
    }
    forall i | 0 <= i < |r.rows| ensures ListsFile(n, r.rows[i]) {
      RecordedFiles(entries, i);
    }
    ListingDistinct([], entries);
    forall i, j | 0 <= i < j < |r.rows| ensures Segments(r.rows[i].path) != Segments(r.rows[j].path) {
      FilesDistinct(listing, i, j);
      RecordedFiles(entries, i);
      RecordedFiles(entries, j);
    }
    forall p | p != [] && Lookup(n, p) == Some(Folder) ensures Named(r.directories, p) {
      FolderNamed(entries, p);
    }
    forall p | Lookup(n, p).Some? && Lookup(n, p).value.File? ensures NamedFile(r.rows, p) {
      FileNamed(entries, p);
    }
  }

  lemma {:induction false} DirectoriesParse(n: Node, directories: seq<string>, i: nat)
    requires n.Tree? && AddDirectories(n, directories).Ok? && i < |directories|
    ensures Parts(directories[i]).Ok?
    decreases |directories|
  {
    var parts := Parts(directories[0]).value;
    AddsToTree(n, parts, n);
    if i > 0 {
      DirectoriesParse(AddDirectory(n, parts).value, directories[1..], i - 1);
    }
  }

  lemma {:induction false} RowsParse(n: Node, rows: seq<Row>, i: nat)
    requires n.Tree? && AddRows(n, rows).Ok? && i < |rows|
    ensures Parts(rows[i].path).Ok?
    decreases |rows|
  {
    if i > 0 {
      RowsParse(AddRow(n, rows[0]).value, rows[1..], i - 1);
    }
  }

  lemma BuiltInBounds(raw: string, entries: seq<StoredEntry>, l: Listed)
    requires Canonical(StoredTree(entries)) && Built(Recorded(raw, entries)).Ok? && l in Listing([], entries)
    ensures Fits(l.path)
  {
    var r, listing := Recorded(raw, entries), Listing([], entries);
    ListedSegments(entries, l);
    if l.kind.Folder? {
      ListedFolder(listing, l);
      var i :| 0 <= i < |r.directories| && r.directories[i] == Join(l.path);
      DirectoriesParse(Tree(map[]), r.directories, i);
    } else {
      ListedFile(listing, l);
      var i :| 0 <= i < |FilesOf(listing)| && FilesOf(listing)[i] == FileAt(l.path, l.kind.mode, l.kind.id);
      RowsParse(AddDirectories(Tree(map[]), r.directories).value, r.rows, i);
    }
  }

  lemma {:induction false} HexLength(s: string)
    ensures |HexOf(s)| == 2 * |s| && forall i :: 0 <= i < |HexOf(s)| ==> HexOf(s)[i] in HEX
  {
    if s != "" {
      HexLength(s[1..]);
    }
  }

  lemma TreeLineOf(id: string)
    requires |id| == 20
    ensures TreeLine("tree " + HexOf(id)) && ("tree " + HexOf(id))[5..] == HexOf(id)
  {
    HexLength(id);
    var line := "tree " + HexOf(id);
    forall i | 5 <= i < 45 ensures line[i] in HEX {
      assert line[i] == HexOf(id)[i - 5];
    }
  }

  /** A listing with release modes is accepted exactly when it is within the limits. */
  lemma ReleaseListingAccepted(sha1: Sha1, commit: string, raw: string, entries: seq<StoredEntry>)
    requires Digest(sha1) && Canonical(StoredTree(entries)) && sha1(Preimage("commit", raw)) == commit
    requires FirstLine(raw) == "tree " + HexOf(StoredId(sha1, StoredTree(entries)))
    ensures Accept(sha1, Recorded(raw, entries), commit).Ok? <==> InBounds(Listing([], entries)) && |raw| <= MAX_COMMIT
    ensures Accept(sha1, Recorded(raw, entries), commit).Ok? ==>
              Built(Recorded(raw, entries)) == Ok(ToNode(StoredTree(entries)))
  {
    if Accept(sha1, Recorded(raw, entries), commit).Ok? {
      BuiltListingInBounds(raw, entries);
    }
    if InBounds(Listing([], entries)) && |raw| <= MAX_COMMIT {
      InBoundsAccepted(sha1, commit, raw, entries);
    }
  }

  lemma BuiltListingInBounds(raw: string, entries: seq<StoredEntry>)
    requires Canonical(StoredTree(entries)) && Built(Recorded(raw, entries)).Ok?
    requires 0 < |Recorded(raw, entries).rows| <= MAX_ROWS && |Recorded(raw, entries).directories| <= MAX_ROWS
    ensures InBounds(Listing([], entries))
  {
    forall l | l in Listing([], entries) ensures Fits(l.path) {
      BuiltInBounds(raw, entries, l);
    }
  }

  lemma InBoundsAccepted(sha1: Sha1, commit: string, raw: string, entries: seq<StoredEntry>)
    requires Digest(sha1) && Canonical(StoredTree(entries)) && sha1(Preimage("commit", raw)) == commit
    requires FirstLine(raw) == "tree " + HexOf(StoredId(sha1, StoredTree(entries)))
    requires InBounds(Listing([], entries)) && |raw| <= MAX_COMMIT
    ensures Built(Recorded(raw, entries)) == Ok(ToNode(StoredTree(entries)))
    ensures Accept(sha1, Recorded(raw, entries), commit) == Ok(Recorded(raw, entries).rows)
  {
    var g := StoredTree(entries);
    TreeLineOf(StoredId(sha1, g));
    SameId(sha1, g);
    ListedRows(entries);
    RecordedLists(raw, entries);
    Rebuild(ToNode(g), Recorded(raw, entries));
  }
}
