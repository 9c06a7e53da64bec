/**
 What acceptance of an inventory says about the tree that Git has stored, whatever that tree is, and
 which stored trees have an accepted inventory at all.
 */
module GitAcceptance {
  import opened Prelude
  import opened GitTree
  import opened GitInventory
  import opened GitListing
  import opened GitObjects

  /** Any entries that can be told apart: other modes, names in any order or twice, and any text are possible. */
  ghost predicate Storable(g: Stored)
    decreases g
  {
    match g
    case StoredBlob(mode, id) => Plain(mode) && mode != DIRECTORY && |id| == 20
    case StoredTree(entries) => forall i :: 0 <= i < |entries| ==> '\0' !in entries[i].name && Storable(entries[i].node)
  }

  /** The hashed form of every stored directory. */
  ghost function StoredPreimages(sha1: Sha1, g: Stored): set<string>
    decreases g
  {
    match g
    case StoredBlob(_, _) => {}
    case StoredTree(entries) =>
      {Preimage("tree", StoredBytes(sha1, entries))} +
      set i, x | 0 <= i < |entries| && x in StoredPreimages(sha1, entries[i].node) :: x
  }

  function StoredItems(sha1: Sha1, entries: seq<StoredEntry>): seq<Item> {
    seq(|entries|, i requires 0 <= i < |entries| => StoredItem(sha1, entries[i]))
  }

  lemma StoredReadable(sha1: Sha1, entries: seq<StoredEntry>, i: nat)
    requires Digest(sha1) && Storable(StoredTree(entries)) && i < |entries|
    ensures Readable(StoredItems(sha1, entries)[i])
  {
    var e := entries[i];
    assert Storable(e.node);
    ModesPlain(DIRECTORY);
  }

  /** A stored directory and a built one with the same identifier have the same items. */
  lemma SameStoredItems(sha1: Sha1, entries: seq<StoredEntry>, n: Node)
    requires Digest(sha1) && Storable(StoredTree(entries)) && n.Tree? && WellFormed(n)
    requires CollisionFree(sha1, StoredPreimages(sha1, StoredTree(entries)) + Preimages(sha1, n))
    requires StoredId(sha1, StoredTree(entries)) == Id(sha1, n)
    ensures StoredItems(sha1, entries) == Items(sha1, n)
  {
    var x, y := StoredItems(sha1, entries), Items(sha1, n);
    SameBytes(sha1, entries, x);
    assert Preimage("tree", Flatten(x)) in StoredPreimages(sha1, StoredTree(entries));
    assert Preimage("tree", Flatten(y)) in Preimages(sha1, n);
    PreimageInjective("tree", Flatten(x), Flatten(y));
    forall i | 0 <= i < |x| ensures Readable(x[i]) {
      StoredReadable(sha1, entries, i);
    }
    forall i | 0 <= i < |y| ensures Readable(y[i]) {
      ItemReadable(sha1, n, i);
    }
    FlattenInjective(x, y);
  }

  /** The names of a directory ascend, so none occurs twice. */
  lemma {:induction false} SortedAscends(entries: map<string, Node>, names: set<string>)
    requires names <= entries.Keys
    ensures Ascending(entries, Sorted(entries, names))
    decreases |names|
  {
    var list := Sorted(entries, names);
    if |names| > 0 {
      SortedAscends(entries, names - {list[0]});
      forall j | 1 <= j < |list| ensures Less(KeyIn(entries, list[0]), KeyIn(entries, list[j])) {
        assert list[j] == list[1..][j - 1] && list[j] in Elements(list[1..]);
      }
    }
  }

  ghost predicate Agree(g: Stored, n: Node) {
    Canonical(g) && ToNode(g) == n
  }

  lemma ItemsByName(sha1: Sha1, entries: seq<StoredEntry>, n: Node, i: nat)
    requires n.Tree? && StoredItems(sha1, entries) == Items(sha1, n) && i < |entries|
    ensures var names := Sorted(n.entries, n.entries.Keys);
            |names| == |entries| && entries[i].name == names[i] && names[i] in n.entries
    ensures var c := n.entries[entries[i].name];
            && StoredId(sha1, entries[i].node) == Id(sha1, c)
            && (if entries[i].node.StoredTree? then DIRECTORY else entries[i].node.mode) == (if c.Tree? then DIRECTORY else c.mode)
  {
    var names := Sorted(n.entries, n.entries.Keys);
    assert |Items(sha1, n)| == |names|;
    assert names[i] in Elements(names);
    assert StoredItems(sha1, entries)[i] == Items(sha1, n)[i];
  }

  /** Entry `i` is the child of the `i`th name. */
  ghost predicate ChildAgrees(entries: seq<StoredEntry>, n: Node, names: seq<string>, i: nat)
    requires i < |entries| == |names| && n.Tree?
  {
    entries[i].name == names[i] && names[i] in n.entries && Agree(entries[i].node, n.entries[names[i]])
  }

  lemma ChildrenAscend(entries: seq<StoredEntry>, n: Node, names: seq<string>, i: nat, j: nat)
    requires n.Tree? && |entries| == |names| && Elements(names) <= n.entries.Keys && Ascending(n.entries, names)
    requires i < j < |entries| && ChildAgrees(entries, n, names, i) && ChildAgrees(entries, n, names, j)
    ensures Less(KeyOf(entries[i]), KeyOf(entries[j])) && entries[i].name != entries[j].name
  {
    assert Less(KeyIn(n.entries, names[i]), KeyIn(n.entries, names[j]));
    LessTotal(KeyIn(n.entries, names[i]), KeyIn(n.entries, names[j]));
  }

  lemma ChildrenCanonical(entries: seq<StoredEntry>, n: Node, names: seq<string>)
    requires n.Tree? && WellFormed(n) && |entries| == |names| && Elements(names) <= n.entries.Keys && Ascending(n.entries, names)
    requires forall i :: 0 <= i < |entries| ==> ChildAgrees(entries, n, names, i)
    ensures Canonical(StoredTree(entries))
  {
    forall i | 0 <= i < |entries| ensures ProperName(entries[i].name) && Canonical(entries[i].node) {
      assert ChildAgrees(entries, n, names, i);
    }
    forall i, j | 0 <= i < j < |entries| ensures Less(KeyOf(entries[i]), KeyOf(entries[j])) && entries[i].name != entries[j].name {
      ChildrenAscend(entries, n, names, i, j);
    }
  }

  lemma SameNameList(entries: seq<StoredEntry>, n: Node, names: seq<string>)
    requires n.Tree? && |entries| == |names| && forall i :: 0 <= i < |entries| ==> ChildAgrees(entries, n, names, i)
    ensures Names(entries) == names
  {
    forall i | 0 <= i < |names| ensures Names(entries)[i] == names[i] {
      assert ChildAgrees(entries, n, names, i);
    }
  }

  lemma SameMaps(a: map<string, Node>, b: map<string, Node>, names: seq<string>)
    requires a.Keys == b.Keys == Elements(names) && forall i :: 0 <= i < |names| ==> names[i] in a && names[i] in b && a[names[i]] == b[names[i]]
    ensures a == b
  {
    forall name | name in a ensures a[name] == b[name] {
      assert name in Elements(names);
    }
  }

  lemma ChildDenoted(entries: seq<StoredEntry>, n: Node, names: seq<string>, i: nat)
    requires n.Tree? && i < |entries| == |names| && Canonical(StoredTree(entries)) && ChildAgrees(entries, n, names, i)
    ensures names[i] in ToEntries(entries) && names[i] in n.entries && ToEntries(entries)[names[i]] == n.entries[names[i]]
  {
    EntriesByName(entries);
  }

  lemma ChildrenDenote(entries: seq<StoredEntry>, n: Node, names: seq<string>)
    requires n.Tree? && |entries| == |names| && Elements(names) == n.entries.Keys && Canonical(StoredTree(entries))
    requires forall i :: 0 <= i < |entries| ==> ChildAgrees(entries, n, names, i)
    ensures ToEntries(entries) == n.entries
  {
    forall i | 0 <= i < |names|
      ensures names[i] in ToEntries(entries) && names[i] in n.entries && ToEntries(entries)[names[i]] == n.entries[names[i]]
    {
      ChildDenoted(entries, n, names, i);
    }
    SameNameList(entries, n, names);
    KeysByName(entries);
    SameMaps(ToEntries(entries), n.entries, names);
  }

  lemma KeysByName(entries: seq<StoredEntry>)
    requires Canonical(StoredTree(entries))
    ensures ToEntries(entries).Keys == Elements(Names(entries))
  {
    EntriesByName(entries);
  }

  /** A directory whose children agree under the sorted names agrees itself. */
  lemma AgreeUpwards(entries: seq<StoredEntry>, n: Node, names: seq<string>)
    requires n.Tree? && WellFormed(n) && names == Sorted(n.entries, n.entries.Keys) && |entries| == |names|
    requires forall i :: 0 <= i < |entries| ==> ChildAgrees(entries, n, names, i)
    ensures Agree(StoredTree(entries), n)
  {
    SortedAscends(n.entries, n.entries.Keys);
    ChildrenCanonical(entries, n, names);
    ChildrenDenote(entries, n, names);
  }

  lemma ChildStoredPreimages(sha1: Sha1, entries: seq<StoredEntry>, i: nat, n: Node)
    requires i < |entries| && n.Tree? && entries[i].name in n.entries
    requires CollisionFree(sha1, StoredPreimages(sha1, StoredTree(entries)) + Preimages(sha1, n))
    ensures CollisionFree(sha1, StoredPreimages(sha1, entries[i].node) + Preimages(sha1, n.entries[entries[i].name]))
  {
    ChildPreimages(sha1, n, entries[i].name);
    assert StoredPreimages(sha1, entries[i].node) <= StoredPreimages(sha1, StoredTree(entries));
  }

  /** A stored tree with the identifier of a built one is that tree, in Git's order and with release modes. */
  lemma {:induction false} IdentifiedTree(sha1: Sha1, entries: seq<StoredEntry>, n: Node)
    requires Digest(sha1) && Storable(StoredTree(entries)) && n.Tree? && WellFormed(n)
    requires CollisionFree(sha1, StoredPreimages(sha1, StoredTree(entries)) + Preimages(sha1, n))
    requires StoredId(sha1, StoredTree(entries)) == Id(sha1, n)
    ensures Agree(StoredTree(entries), n)
    decreases entries, 1
  {
    SameStoredItems(sha1, entries, n);
    var names := Sorted(n.entries, n.entries.Keys);
    assert |StoredItems(sha1, entries)| == |Items(sha1, n)|;
    forall i | 0 <= i < |entries| ensures ChildAgrees(entries, n, names, i) {
      IdentifiedChild(sha1, entries, n, i);
    }
    AgreeUpwards(entries, n, names);
  }

  lemma {:induction false} IdentifiedChild(sha1: Sha1, entries: seq<StoredEntry>, n: Node, i: nat)
    requires Digest(sha1) && Storable(StoredTree(entries)) && n.Tree? && WellFormed(n)
    requires CollisionFree(sha1, StoredPreimages(sha1, StoredTree(entries)) + Preimages(sha1, n))
    requires StoredItems(sha1, entries) == Items(sha1, n) && i < |entries|
    ensures |entries| == |Sorted(n.entries, n.entries.Keys)| && ChildAgrees(entries, n, Sorted(n.entries, n.entries.Keys), i)
    decreases entries, 0
  {
    ItemsByName(sha1, entries, n, i);
    var g, c := entries[i].node, n.entries[entries[i].name];
    assert Storable(g) && WellFormed(c);
    SameBlob(sha1, g, c);
    if g.StoredTree? {
      ChildStoredPreimages(sha1, entries, i, n);
      IdentifiedTree(sha1, g.entries, c);
    }
  }

  lemma SameBlob(sha1: Sha1, g: Stored, c: Node)
    requires Storable(g) && WellFormed(c) && StoredId(sha1, g) == Id(sha1, c)
    requires (if g.StoredTree? then DIRECTORY else g.mode) == (if c.Tree? then DIRECTORY else c.mode)
    ensures g.StoredTree? == c.Tree? && (g.StoredBlob? ==> Agree(g, c))
  {
    assert DIRECTORY !in MODES;
  }

  /**
   An inventory accepted for a commit holds exactly the files Git lists for it, and the tree Git has
   stored for the commit is in canonical order with release modes throughout.
   */
  lemma AcceptedIsWhatGitLists(sha1: Sha1, cached: Inventory, commit: string, raw: string, entries: seq<StoredEntry>)
    requires Digest(sha1) && Storable(StoredTree(entries)) && Accept(sha1, cached, commit).Ok?
    requires sha1(Preimage("commit", raw)) == commit && FirstLine(raw) == "tree " + HexOf(StoredId(sha1, StoredTree(entries)))
    requires CollisionFree(sha1, Objects(sha1, cached) + {Preimage("commit", raw)} + StoredPreimages(sha1, StoredTree(entries)))
    ensures cached.rows == Recorded(raw, entries).rows && Canonical(StoredTree(entries))
  {
    var g := StoredTree(entries);
    var x := AcceptedTree(sha1, cached, commit);
    var objects := Objects(sha1, cached) + {Preimage("commit", raw)} + StoredPreimages(sha1, g);
    assert Preimage("commit", cached.commitObject) in objects && Preimage("commit", raw) in objects;
    PreimageInjective("commit", cached.commitObject, raw);
    assert ("tree " + HexOf(StoredId(sha1, g)))[5..] == HexOf(StoredId(sha1, g));
    HexInjective(StoredId(sha1, g), Id(sha1, x));
    PartCollisionFree(sha1, objects, StoredPreimages(sha1, g) + Preimages(sha1, x));
    IdentifiedTree(sha1, entries, x);
    ListedRows(entries);
  }

  // ---------- Trees without an accepted inventory ----------

  /** Every file has a release mode; a submodule, for one, has another. */
  ghost predicate Supported(g: Stored)
    decreases g
  {
    match g
    case StoredBlob(mode, _) => mode in MODES
    case StoredTree(entries) => forall i :: 0 <= i < |entries| ==> Supported(entries[i].node)
  }

  lemma {:induction false} CanonicalSupported(g: Stored)
    requires Canonical(g)
    ensures Supported(g)
    decreases g
  {
    if g.StoredTree? {
      forall i | 0 <= i < |g.entries| ensures Supported(g.entries[i].node) {
        CanonicalSupported(g.entries[i].node);
      }
    }
  }

  /** No inventory whatever is accepted for a commit with a submodule or another unsupported mode. */
  lemma UnsupportedNeverAccepted(sha1: Sha1, cached: Inventory, commit: string, raw: string, entries: seq<StoredEntry>)
    requires Digest(sha1) && Storable(StoredTree(entries)) && !Supported(StoredTree(entries))
    requires sha1(Preimage("commit", raw)) == commit && FirstLine(raw) == "tree " + HexOf(StoredId(sha1, StoredTree(entries)))
    requires CollisionFree(sha1, Objects(sha1, cached) + {Preimage("commit", raw)} + StoredPreimages(sha1, StoredTree(entries)))
    ensures Accept(sha1, cached, commit).Error?
  {
    if Accept(sha1, cached, commit).Ok? {
      AcceptedIsWhatGitLists(sha1, cached, commit, raw, entries);
      CanonicalSupported(StoredTree(entries));
    }
  }

  // ---------- Which listings are accepted ----------

  /** What Git guarantees of a stored tree, whatever its modes. */
  ghost predicate Ordered(g: Stored)
    decreases g
  {
    match g
    case StoredBlob(_, id) => |id| == 20
    case StoredTree(entries) =>
      && (forall i :: 0 <= i < |entries| ==> ProperName(entries[i].name) && Ordered(entries[i].node))
      && (forall i, j :: 0 <= i < j < |entries| ==> entries[i].name != entries[j].name)
      && (forall i, j :: 0 <= i < j < |entries| ==> Less(KeyOf(entries[i]), KeyOf(entries[j])))
  }

  lemma {:induction false} OrderedSupported(g: Stored)
    requires Ordered(g) && Supported(g)
    ensures Canonical(g)
    decreases g
  {
    if g.StoredTree? {
      forall i | 0 <= i < |g.entries| ensures Canonical(g.entries[i].node) {
        OrderedSupported(g.entries[i].node);
      }
    }
  }

  /** An unsupported mode shows in the listing. */
  lemma {:induction false} UnsupportedListed(prefix: Path, entries: seq<StoredEntry>) returns (l: Listed)
    requires !Supported(StoredTree(entries))
    ensures l in Listing(prefix, entries) && l.kind.File? && l.kind.mode !in MODES
    decreases entries
  {
    var e := entries[0];
    if Supported(e.node) {
      assert !Supported(StoredTree(entries[1..])) by {
        var i :| 0 <= i < |entries| && !Supported(entries[i].node);
        assert entries[1..][i - 1] == entries[i];
      }
      l := UnsupportedListed(prefix, entries[1..]);
    } else if e.node.StoredTree? {
      l := UnsupportedListed(prefix + [e.name], e.node.entries);
    } else {
      l := Listed(prefix + [e.name], KindOf(e.node));
    }
  }

  lemma {:induction false} RowsSupported(n: Node, rows: seq<Row>, i: nat)
    requires n.Tree? && AddRows(n, rows).Ok? && i < |rows|
    ensures rows[i].mode in MODES
    decreases |rows|
  {
    if i > 0 {
      RowsSupported(AddRow(n, rows[0]).value, rows[1..], i - 1);
    }
  }

  lemma BuiltSupported(raw: string, entries: seq<StoredEntry>)
    requires Built(Recorded(raw, entries)).Ok?
    ensures Supported(StoredTree(entries))
  {
    if !Supported(StoredTree(entries)) {
      var i := UnsupportedRow(raw, entries);
      var r := Recorded(raw, entries);
      RowsSupported(AddDirectories(Tree(map[]), r.directories).value, r.rows, i);
    }
  }

  lemma UnsupportedRow(raw: string, entries: seq<StoredEntry>) returns (i: nat)
    requires !Supported(StoredTree(entries))
    ensures i < |Recorded(raw, entries).rows| && Recorded(raw, entries).rows[i].mode !in MODES
  {
    var l := UnsupportedListed([], entries);
    var listing := Listing([], entries);
    ListedFile(listing, l);
    i :| 0 <= i < |FilesOf(listing)| && FilesOf(listing)[i] == FileAt(l.path, l.kind.mode, l.kind.id);
  }

  /**
   What Git lists for a commit is accepted exactly when every file has a release mode, every name is
   UTF-8 text, and rows, directories, paths and the commit object are within the limits.
   */
  lemma ListingAcceptedExactly(sha1: Sha1, commit: string, raw: string, entries: seq<StoredEntry>)
    requires Digest(sha1) && Ordered(StoredTree(entries)) && sha1(Preimage("commit", raw)) == commit
    requires FirstLine(raw) == "tree " + HexOf(StoredId(sha1, StoredTree(entries)))
    ensures Accept(sha1, Recorded(raw, entries), commit).Ok? <==>
            Supported(StoredTree(entries)) && InBounds(Listing([], entries)) && |raw| <= MAX_COMMIT
    ensures Accept(sha1, Recorded(raw, entries), commit).Ok? ==>
              Built(Recorded(raw, entries)) == Ok(ToNode(StoredTree(entries)))
  {
    if Accept(sha1, Recorded(raw, entries), commit).Ok? {
      BuiltSupported(raw, entries);
    }
    if Supported(StoredTree(entries)) {
      OrderedSupported(StoredTree(entries));
      ReleaseListingAccepted(sha1, commit, raw, entries);
    }
  }
}
