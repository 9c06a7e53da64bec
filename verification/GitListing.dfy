/**
 Completeness of the inventory check: the recursive listing of a Git tree is always accepted, so an
 accepted cache holds what reading Git would return.
 */
module GitListing {
  import opened Prelude
  import opened GitTree
  import opened GitInventory

  // ---------- What a path leads to ----------

  datatype Kind = File(mode: string, id: string) | Folder

  function Lookup(n: Node, p: Path): Option<Kind>
    decreases |p|
  {
    if p == [] then Some(if n.Tree? then Folder else File(n.mode, n.id))
    else if n.Tree? && p[0] in n.entries then Lookup(n.entries[p[0]], p[1..])
    else None
  }

  /** Trees are determined by what their paths lead to. */
  lemma {:induction false} LookupExtensional(a: Node, b: Node)
    requires forall p :: Lookup(a, p) == Lookup(b, p)
    ensures a == b
    decreases a
  {
    assert Lookup(a, []) == Lookup(b, []);
    if a.Tree? {
      forall name ensures name in a.entries <==> name in b.entries {
        LookupChild(a, name, []);
        LookupChild(b, name, []);
        assert Lookup(a, [name] + []) == Lookup(b, [name] + []);
      }
      forall name | name in a.entries ensures a.entries[name] == b.entries[name] {
        forall p ensures Lookup(a.entries[name], p) == Lookup(b.entries[name], p) {
          LookupChild(a, name, p);
          LookupChild(b, name, p);
          assert Lookup(a, [name] + p) == Lookup(b, [name] + p);
        }
        LookupExtensional(a.entries[name], b.entries[name]);
      }
      assert a.entries == b.entries;
    }
  }

  /** A path into a child is the path behind the child's name. */
  lemma LookupChild(n: Node, name: string, p: Path)
    requires n.Tree?
    ensures Lookup(n, [name] + p) == if name in n.entries then Lookup(n.entries[name], p) else None
    ensures name in n.entries ==> Lookup(n.entries[name], []).Some?
  {
    assert ([name] + p)[1..] == p;
  }

  /** Everything in front of an existing path is a directory. */
  lemma {:induction false} FoldersInFront(n: Node, p: Path, k: nat)
    requires Lookup(n, p).Some? && k < |p|
    ensures Lookup(n, p[..k]) == Some(Folder)
    decreases |p|
  {
    if k > 0 {
      FoldersInFront(n.entries[p[0]], p[1..], k - 1);
      assert p[..k][1..] == p[1..][..k - 1];
    }
  }

  lemma {:induction false} AddDirectoryLookup(n: Node, s: Path, q: Path)
    requires n.Tree? && AddDirectory(n, s).Ok?
    ensures Lookup(AddDirectory(n, s).value, q) == if q <= s then Some(Folder) else Lookup(n, q)
    decreases |s|
  {
    AddsToTree(n, s, n);
    if s != [] && q != [] {
      var child := ChildAt(n, s[0]);
      if q[0] == s[0] {
        AddDirectoryLookup(child, s[1..], q[1..]);
        assert q <= s <==> q[1..] <= s[1..];
      }
    }
  }

  lemma {:induction false} AddDirectorySucceeds(n: Node, s: Path)
    requires n.Tree? && forall k :: 0 <= k <= |s| ==> Lookup(n, s[..k]) == None || Lookup(n, s[..k]) == Some(Folder)
    ensures AddDirectory(n, s).Ok?
    decreases |s|
  {
    if s != [] {
      var child := ChildAt(n, s[0]);
      if s[0] in n.entries {
        assert s[..1][1..] == [] && Lookup(n, s[..1]) == Lookup(child, []);
        forall k | 0 <= k <= |s[1..]| ensures Lookup(child, s[1..][..k]) == Lookup(n, s[..k + 1]) {
          assert s[..k + 1][1..] == s[1..][..k];
        }
      }
      AddDirectorySucceeds(child, s[1..]);
    }
  }

  lemma {:induction false} AddBlobLookup(n: Node, s: Path, b: Node, q: Path)
    requires n.Tree? && b.Blob? && s != [] && AddBlob(n, s, b).Ok?
    ensures Lookup(AddBlob(n, s, b).value, q) ==
            if q == s then Some(File(b.mode, b.id)) else if q <= s then Some(Folder) else Lookup(n, q)
    decreases |s|
  {
    AddsToTree(n, s, b);
    if q != [] && q[0] == s[0] {
      assert q == [q[0]] + q[1..] && s == [s[0]] + s[1..];
      if |s| > 1 {
        AddBlobLookup(ChildAt(n, s[0]), s[1..], b, q[1..]);
      }
    }
  }

  lemma {:induction false} AddBlobSucceeds(n: Node, s: Path, b: Node)
    requires n.Tree? && s != [] && Lookup(n, s) == None
    requires forall k :: 0 <= k < |s| ==> Lookup(n, s[..k]) == None || Lookup(n, s[..k]) == Some(Folder)
    ensures AddBlob(n, s, b).Ok?
    decreases |s|
  {
    if |s| == 1 {
      assert s[1..] == [];
    } else {
      var child := ChildAt(n, s[0]);
      if s[0] in n.entries {
        assert s[..1][1..] == [] && Lookup(n, s[..1]) == Lookup(child, []);
        forall k | 0 <= k < |s[1..]| ensures Lookup(child, s[1..][..k]) == Lookup(n, s[..k + 1]) {
          assert s[..k + 1][1..] == s[1..][..k];
        }
      }
      AddBlobSucceeds(child, s[1..], b);
    }
  }

  // ---------- Rebuilding a tree from its paths ----------

  /** `t` holds part of `whole`. */
  ghost predicate Part(t: Node, whole: Node) {
    t.Tree? && whole.Tree? && forall p :: Lookup(t, p) == None || Lookup(t, p) == Lookup(whole, p)
  }

  ghost predicate Grown(t: Node, u: Node) {
    forall p :: Lookup(t, p).Some? ==> Lookup(u, p) == Lookup(t, p)
  }

  lemma PartDirectory(t: Node, whole: Node, s: Path)
    requires Part(t, whole) && Lookup(whole, s) == Some(Folder)
    ensures AddDirectory(t, s).Ok? && Part(AddDirectory(t, s).value, whole) && Grown(t, AddDirectory(t, s).value)
    ensures Lookup(AddDirectory(t, s).value, s) == Some(Folder)
    ensures forall p :: Lookup(AddDirectory(t, s).value, p).Some? && Lookup(t, p) == None ==> p <= s
  {
    forall k | 0 <= k <= |s| ensures Lookup(whole, s[..k]) == Some(Folder) {
      if k < |s| {
        FoldersInFront(whole, s, k);
      } else {
        assert s[..k] == s;
      }
    }
    AddDirectorySucceeds(t, s);
    AddsToTree(t, s, t);
    forall p ensures Lookup(AddDirectory(t, s).value, p) == if p <= s then Some(Folder) else Lookup(t, p) {
      AddDirectoryLookup(t, s, p);
    }
    forall p | p <= s ensures Lookup(whole, p) == Some(Folder) {
      assert p == s[..|p|];
    }
  }

  lemma PartBlob(t: Node, whole: Node, s: Path, b: Node)
    requires Part(t, whole) && b.Blob? && s != [] && Lookup(whole, s) == Some(File(b.mode, b.id)) && Lookup(t, s) == None
    ensures AddBlob(t, s, b).Ok? && Part(AddBlob(t, s, b).value, whole) && Grown(t, AddBlob(t, s, b).value)
    ensures Lookup(AddBlob(t, s, b).value, s).Some?
    ensures forall p :: Lookup(AddBlob(t, s, b).value, p).Some? && Lookup(t, p) == None ==> p <= s
  {
    forall k | 0 <= k < |s| ensures Lookup(whole, s[..k]) == Some(Folder) {
      FoldersInFront(whole, s, k);
    }
    AddBlobSucceeds(t, s, b);
    AddsToTree(t, s, b);
    forall p
      ensures Lookup(AddBlob(t, s, b).value, p) ==
              if p == s then Some(File(b.mode, b.id)) else if p <= s then Some(Folder) else Lookup(t, p)
    {
      AddBlobLookup(t, s, b, p);
    }
    forall p | p <= s && p != s ensures Lookup(whole, p) == Some(Folder) {
      assert p == s[..|p|];
    }
  }

  function Segments(path: string): Path {
    match Parts(path)
    case Ok(parts) => parts
    case Error(_) => []
  }

  ghost predicate ListsFolder(whole: Node, d: string) {
    Parts(d).Ok? && Lookup(whole, Segments(d)) == Some(Folder)
  }

  ghost predicate ListsFile(whole: Node, row: Row) {
    BlobRow(row) && Parts(row.path).Ok? && Lookup(whole, Segments(row.path)) == Some(File(row.mode, row.id))
  }

  lemma {:induction false} RebuildDirectories(t: Node, whole: Node, directories: seq<string>)
    requires Part(t, whole) && forall i :: 0 <= i < |directories| ==> ListsFolder(whole, directories[i])
    requires forall p :: Lookup(t, p).Some? ==> Lookup(t, p) == Some(Folder)
    ensures AddDirectories(t, directories).Ok?
    ensures var u := AddDirectories(t, directories).value;
            && Part(u, whole) && Grown(t, u) && (forall p :: Lookup(u, p).Some? ==> Lookup(u, p) == Some(Folder))
            && forall i :: 0 <= i < |directories| ==> Lookup(u, Segments(directories[i])).Some?
    decreases |directories|
  {
    if directories != [] {
      var s := Segments(directories[0]);
      assert ListsFolder(whole, directories[0]);
      PartDirectory(t, whole, s);
      var v := AddDirectory(t, s).value;
      forall p | Lookup(v, p).Some? ensures Lookup(v, p) == Some(Folder) {
        if Lookup(t, p) == None {
          AddDirectoryLookup(t, s, p);
        }
      }
      RebuildDirectories(v, whole, directories[1..]);
      var u := AddDirectories(t, directories).value;
      assert Lookup(u, s) == Lookup(v, s);
    }
  }

  lemma {:induction false} RebuildRows(t: Node, whole: Node, rows: seq<Row>)
    requires Part(t, whole) && forall i :: 0 <= i < |rows| ==> ListsFile(whole, rows[i]) && Lookup(t, Segments(rows[i].path)) == None
    requires forall i, j :: 0 <= i < j < |rows| ==> Segments(rows[i].path) != Segments(rows[j].path)
    ensures AddRows(t, rows).Ok?
    ensures var u := AddRows(t, rows).value;
            Part(u, whole) && Grown(t, u) && forall i :: 0 <= i < |rows| ==> Lookup(u, Segments(rows[i].path)).Some?
    decreases |rows|
  {
    if rows != [] {
      var s, b := Segments(rows[0].path), Blob(rows[0].mode, rows[0].id);
      assert ListsFile(whole, rows[0]);
      PartBlob(t, whole, s, b);
      var v := AddBlob(t, s, b).value;
      forall i | 1 <= i < |rows| ensures Lookup(v, Segments(rows[i].path)) == None {
        NotInFront(whole, s, rows[i]);
      }
      RebuildRows(v, whole, rows[1..]);
      assert Lookup(AddRows(t, rows).value, s) == Lookup(v, s);
    }
  }

  /** No file of a tree lies in front of another path. */
  lemma NotInFront(whole: Node, s: Path, row: Row)
    requires Lookup(whole, s).Some? && ListsFile(whole, row) && Segments(row.path) != s
    ensures !(Segments(row.path) <= s)
  {
    var p := Segments(row.path);
    if p <= s {
      assert p == s[..|p|];
      FoldersInFront(whole, s, |p|);
    }
  }

  ghost predicate Named(directories: seq<string>, p: Path) {
    exists i :: 0 <= i < |directories| && Segments(directories[i]) == p
  }

  ghost predicate NamedFile(rows: seq<Row>, p: Path) {
    exists i :: 0 <= i < |rows| && Segments(rows[i].path) == p
  }

  /** The directories and files named are all those of the tree, each file once. */
  ghost predicate Lists(whole: Node, inventory: Inventory) {
    && whole.Tree?
    && (forall i :: 0 <= i < |inventory.directories| ==> ListsFolder(whole, inventory.directories[i]))
    && (forall i :: 0 <= i < |inventory.rows| ==> ListsFile(whole, inventory.rows[i]))
    && (forall i, j :: 0 <= i < j < |inventory.rows| ==> Segments(inventory.rows[i].path) != Segments(inventory.rows[j].path))
    && (forall p :: p != [] && Lookup(whole, p) == Some(Folder) ==> Named(inventory.directories, p))
    && (forall p :: Lookup(whole, p).Some? && Lookup(whole, p).value.File? ==> NamedFile(inventory.rows, p))
  }

  /** Naming every directory and every file once rebuilds exactly the listed tree. */
  lemma Rebuild(whole: Node, inventory: Inventory)
    requires Lists(whole, inventory)
    ensures Built(inventory) == Ok(whole)
  {
    var empty := Tree(map[]);
    RebuildDirectories(empty, whole, inventory.directories);
    var base := AddDirectories(empty, inventory.directories).value;
    forall i | 0 <= i < |inventory.rows| ensures Lookup(base, Segments(inventory.rows[i].path)) == None {
      assert ListsFile(whole, inventory.rows[i]);
    }
    RebuildRows(base, whole, inventory.rows);
    var u := AddRows(base, inventory.rows).value;
    forall p ensures Lookup(u, p) == Lookup(whole, p) {
      EverywhereListed(whole, inventory, base, u, p);
    }
    LookupExtensional(u, whole);
  }

  lemma EverywhereListed(whole: Node, inventory: Inventory, base: Node, u: Node, p: Path)
    requires Lists(whole, inventory) && Part(u, whole) && Grown(base, u)
    requires forall i :: 0 <= i < |inventory.directories| ==> Lookup(base, Segments(inventory.directories[i])).Some?
    requires forall i :: 0 <= i < |inventory.rows| ==> Lookup(u, Segments(inventory.rows[i].path)).Some?
    ensures Lookup(u, p) == Lookup(whole, p)
  {
    if Lookup(whole, p).Some? && p != [] {
      if Lookup(whole, p).value.File? {
        assert NamedFile(inventory.rows, p);
      } else {
        assert Named(inventory.directories, p);
        assert Lookup(base, p).Some?;
      }
      assert Lookup(u, p).Some?;
    }
  }
}
