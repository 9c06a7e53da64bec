/**
 The source inventory: rows and directories recorded for a commit, and their authentication against
 Git's own commit and tree identifiers.
 */
module GitInventory {
  import opened Prelude
  import opened GitTree
  import Utf8

  datatype Row = Row(path: string, mode: string, id: string)

  datatype Inventory = Inventory(commitObject: string, rows: seq<Row>, directories: seq<string>)

  type Path = seq<string>

  const MAX_ROWS := 20000
  const MAX_COMMIT := 128 * 1024

  // ---------- Paths ----------

  function Slash(s: string): (k: nat)
    ensures k <= |s| && (k < |s| ==> s[k] == '/') && forall i :: 0 <= i < k ==> s[i] != '/'
  {
    if s == "" || s[0] == '/' then 0 else 1 + Slash(s[1..])
  }

  function Split(s: string): (parts: Path)
    ensures |parts| > 0
    decreases |s|
  {
    var k := Slash(s);
    if k == |s| then [s] else [s[..k]] + Split(s[k + 1..])
  }

  /** The segments of an inventory path, given as the bytes of its text. */
  function Parts(path: string): Result<Path> {
    var parts := Split(path);
    if !Utf8.Valid(path) || '\0' in path || |path| > 4096 || |parts| > 64 || (exists p :: p in parts && p in {"", ".", ".."})
    then Error("invalid source inventory path") else Ok(parts)
  }

  /** The text in front of a name below the given directories. */
  function Prefix(p: Path): string {
    if p == [] then "" else Prefix(p[..|p| - 1]) + p[|p| - 1] + "/"
  }

  function Join(p: Path): string {
    if p == [] then "" else Prefix(p[..|p| - 1]) + p[|p| - 1]
  }

  // ---------- The dictionary ----------

  function ChildAt(n: Node, name: string): Node
    requires n.Tree?
  {
    if name in n.entries then n.entries[name] else Tree(map[])
  }

  /** The directory at `segments` exists below `n`, created where missing. */
  function AddDirectory(n: Node, segments: Path): Result<Node>
    requires n.Tree?
    decreases |segments|
  {
    if segments == [] then Ok(n)
    else
      var child := ChildAt(n, segments[0]);
      if child.Blob? then Error("source inventory file/directory collision")
      else match AddDirectory(child, segments[1..])
           case Ok(c) => Ok(Tree(n.entries[segments[0] := c]))
           case Error(e) => Error(e)
  }

  function AddBlob(n: Node, segments: Path, blob: Node): Result<Node>
    requires n.Tree? && segments != []
    decreases |segments|
  {
    if |segments| == 1 then
      if segments[0] in n.entries then Error("duplicate source inventory entry")
      else Ok(Tree(n.entries[segments[0] := blob]))
    else
      var child := ChildAt(n, segments[0]);
      if child.Blob? then Error("source inventory file/directory collision")
      else match AddBlob(child, segments[1..], blob)
           case Ok(c) => Ok(Tree(n.entries[segments[0] := c]))
           case Error(e) => Error(e)
  }

  lemma {:induction false} AddsToTree(n: Node, segments: Path, blob: Node)
    requires n.Tree?
    ensures AddDirectory(n, segments).Ok? ==> AddDirectory(n, segments).value.Tree?
    ensures segments != [] && AddBlob(n, segments, blob).Ok? ==> AddBlob(n, segments, blob).value.Tree?
  {
  }

  function AddDirectories(n: Node, directories: seq<string>): (r: Result<Node>)
    requires n.Tree?
    ensures r.Ok? ==> r.value.Tree?
    decreases |directories|
  {
    if directories == [] then Ok(n)
    else match Parts(directories[0])
         case Error(e) => Error(e)
         case Ok(parts) =>
           match AddDirectory(n, parts)
           case Error(e) => Error(e)
           case Ok(m) => AddsToTree(n, parts, m); AddDirectories(m, directories[1..])
  }

  predicate BlobRow(row: Row) {
    row.mode in MODES && |row.id| == 20
  }

  function AddRow(n: Node, row: Row): (r: Result<Node>)
    requires n.Tree?
    ensures r.Ok? ==> r.value.Tree?
  {
    if !BlobRow(row) then Error("invalid source inventory blob")
    else match Parts(row.path)
         case Error(e) => Error(e)
         case Ok(parts) => AddsToTree(n, parts, n); AddBlob(n, parts, Blob(row.mode, row.id))
  }

  function AddRows(n: Node, rows: seq<Row>): (r: Result<Node>)
    requires n.Tree?
    ensures r.Ok? ==> r.value.Tree?
    decreases |rows|
  {
    if rows == [] then Ok(n)
    else match AddRow(n, rows[0])
         case Error(e) => Error(e)
         case Ok(m) => AddRows(m, rows[1..])
  }

  function Built(inventory: Inventory): (r: Result<Node>)
    ensures r.Ok? ==> r.value.Tree?
  {
    match AddDirectories(Tree(map[]), inventory.directories)
    case Error(e) => Error(e)
    case Ok(n) => AddRows(n, inventory.rows)
  }

  // ---------- The rows of a tree, in tree order ----------

  datatype FileAt = FileAt(path: Path, mode: string, id: string)

  function Files(prefix: Path, n: Node): seq<FileAt>
    requires n.Tree?
    decreases n, 1, 0
  {
    FilesIn(prefix, n, Sorted(n.entries, n.entries.Keys))
  }

  function FilesIn(prefix: Path, n: Node, names: seq<string>): seq<FileAt>
    requires n.Tree? && Elements(names) <= n.entries.Keys
    decreases n, 0, |names|
  {
    if names == [] then []
    else
      assert names[0] in Elements(names);
      var child := n.entries[names[0]];
      (if child.Tree? then Files(prefix + [names[0]], child) else [FileAt(prefix + [names[0]], child.mode, child.id)])
      + FilesIn(prefix, n, names[1..])
  }

  function RowsOf(files: seq<FileAt>): seq<Row> {
    seq(|files|, i requires 0 <= i < |files| => Row(Join(files[i].path), files[i].mode, files[i].id))
  }

  /** `encode` lists a file under the concatenated names of its directories. */
  function Rows(n: Node): seq<Row>
    requires n.Tree?
  {
    RowsOf(Files([], n))
  }

  // ---------- Acceptance ----------

  function FirstLine(s: string): string {
    if s == "" || s[0] == '\n' then "" else [s[0]] + FirstLine(s[1..])
  }

  const HEX := "0123456789abcdef"

  function HexOf(s: string): string {
    if s == "" then "" else [HEX[s[0] as int / 16 % 16], HEX[s[0] as int % 16]] + HexOf(s[1..])
  }

  /** A commit object begins with the word tree and a hexadecimal identifier. */
  predicate TreeLine(line: string) {
    |line| == 45 && line[..5] == "tree " && forall i :: 5 <= i < 45 ==> line[i] in HEX
  }

  /** The rows of an inventory that authenticates against the commit identifier. */
  function Accept(sha1: Sha1, inventory: Inventory, commit: string): Result<seq<Row>> {
    if !(0 < |inventory.rows| <= MAX_ROWS) || |inventory.directories| > MAX_ROWS then Error("invalid source inventory")
    else if |inventory.commitObject| > MAX_COMMIT || sha1(Preimage("commit", inventory.commitObject)) != commit
            || !TreeLine(FirstLine(inventory.commitObject))
    then Error("source inventory commit binding changed")
    else match Built(inventory)
         case Error(e) => Error(e)
         case Ok(tree) =>
           if FirstLine(inventory.commitObject)[5..] != HexOf(Id(sha1, tree)) || Rows(tree) != inventory.rows
           then Error("source inventory tree binding or order changed")
           else Ok(inventory.rows)
  }

  /** The authentication as executed: the dictionary grows entry by entry. */
  method VerifiedSourceInventory(sha1: Sha1, inventory: Inventory, commit: string) returns (r: Result<seq<Row>>)
    ensures r == Accept(sha1, inventory, commit)
  {
    if !(0 < |inventory.rows| <= MAX_ROWS) || |inventory.directories| > MAX_ROWS {
      return Error("invalid source inventory");
    }
    if |inventory.commitObject| > MAX_COMMIT || sha1(Preimage("commit", inventory.commitObject)) != commit
       || !TreeLine(FirstLine(inventory.commitObject)) {
      return Error("source inventory commit binding changed");
    }
    var tree := Tree(map[]);
    for i := 0 to |inventory.directories|
      invariant tree.Tree?
      invariant AddDirectories(tree, inventory.directories[i..]) == AddDirectories(Tree(map[]), inventory.directories)
    {
      assert inventory.directories[i..][0] == inventory.directories[i];
      assert inventory.directories[i..][1..] == inventory.directories[i + 1..];
      var parts := Parts(inventory.directories[i]);
      if parts.Error? {
        return Error(parts.reason);
      }
      var grown := AddDirectory(tree, parts.value);
      if grown.Error? {
        return Error(grown.reason);
      }
      AddsToTree(tree, parts.value, tree);
      tree := grown.value;
    }
    assert inventory.directories[|inventory.directories|..] == [];
    ghost var base := tree;
    for i := 0 to |inventory.rows|
      invariant tree.Tree? && AddRows(tree, inventory.rows[i..]) == AddRows(base, inventory.rows)
    {
      assert inventory.rows[i..][0] == inventory.rows[i] && inventory.rows[i..][1..] == inventory.rows[i + 1..];
      var grown := AddRow(tree, inventory.rows[i]);
      if grown.Error? {
        return Error(grown.reason);
      }
      tree := grown.value;
    }
    assert inventory.rows[|inventory.rows|..] == [];
    if FirstLine(inventory.commitObject)[5..] != HexOf(Id(sha1, tree)) || Rows(tree) != inventory.rows {
      return Error("source inventory tree binding or order changed");
    }
    return Ok(inventory.rows);
  }

  // ---------- Uniqueness ----------

  lemma {:induction false} HexInjective(a: string, b: string)
    requires |a| == |b| && Bytes(a) && Bytes(b)
    requires HexOf(a) == HexOf(b)
    ensures a == b
  {
    if a != "" {
      assert HexOf(a)[0] == HexOf(b)[0] && HexOf(a)[1] == HexOf(b)[1];
      assert HexOf(a)[2..] == HexOf(a[1..]) && HexOf(b)[2..] == HexOf(b[1..]);
      HexDigits(a[0], b[0]);
      HexInjective(a[1..], b[1..]);
      assert a == [a[0]] + a[1..] && b == [b[0]] + b[1..];
    }
  }

  lemma HexDigits(a: char, b: char)
    requires a as int < 256 && b as int < 256
    requires HEX[a as int / 16 % 16] == HEX[b as int / 16 % 16] && HEX[a as int % 16] == HEX[b as int % 16]
    ensures a == b
  {
    HexDigit(a as int / 16 % 16, b as int / 16 % 16);
    HexDigit(a as int % 16, b as int % 16);
  }

  lemma HexDigit(i: nat, j: nat)
    requires i < 16 && j < 16 && HEX[i] == HEX[j]
    ensures i == j
  {
  }

  lemma {:induction false} SplitPlain(s: string, i: nat)
    requires '\0' !in s && i < |Split(s)|
    ensures '\0' !in Split(s)[i] && '/' !in Split(s)[i]
    decreases |s|
  {
    var k := Slash(s);
    if k < |s| && i > 0 {
      SplitPlain(s[k + 1..], i - 1);
    }
  }

  lemma UpdateWellFormed(n: Node, name: string, child: Node)
    requires n.Tree? && WellFormed(n) && WellFormed(child) && ProperName(name)
    ensures WellFormed(Tree(n.entries[name := child]))
  {
  }

  lemma {:induction false} AddDirectoryWellFormed(n: Node, segments: Path)
    requires n.Tree? && WellFormed(n) && forall i :: 0 <= i < |segments| ==> ProperName(segments[i])
    ensures AddDirectory(n, segments).Ok? ==> WellFormed(AddDirectory(n, segments).value)
    decreases |segments|
  {
    if segments != [] && ChildAt(n, segments[0]).Tree? {
      AddDirectoryWellFormed(ChildAt(n, segments[0]), segments[1..]);
      var c := AddDirectory(ChildAt(n, segments[0]), segments[1..]);
      if c.Ok? {
        UpdateWellFormed(n, segments[0], c.value);
      }
    }
  }

  lemma {:induction false} AddBlobWellFormed(n: Node, segments: Path, blob: Node)
    requires n.Tree? && WellFormed(n) && WellFormed(blob) && segments != []
    requires forall i :: 0 <= i < |segments| ==> ProperName(segments[i])
    ensures AddBlob(n, segments, blob).Ok? ==> WellFormed(AddBlob(n, segments, blob).value)
    decreases |segments|
  {
    if |segments| == 1 {
      UpdateWellFormed(n, segments[0], blob);
    } else if ChildAt(n, segments[0]).Tree? {
      AddBlobWellFormed(ChildAt(n, segments[0]), segments[1..], blob);
      var c := AddBlob(ChildAt(n, segments[0]), segments[1..], blob);
      if c.Ok? {
        UpdateWellFormed(n, segments[0], c.value);
      }
    }
  }

  lemma PartsPlain(path: string)
    requires Parts(path).Ok?
    ensures forall i :: 0 <= i < |Parts(path).value| ==> ProperName(Parts(path).value[i])
  {
    forall i | 0 <= i < |Split(path)| ensures ProperName(Split(path)[i]) {
      SplitPlain(path, i);
      assert Split(path)[i] in Split(path);
    }
  }

  lemma {:induction false} DirectoriesKeepWellFormed(n: Node, directories: seq<string>)
    requires n.Tree? && WellFormed(n)
    ensures AddDirectories(n, directories).Ok? ==> WellFormed(AddDirectories(n, directories).value)
    decreases |directories|
  {
    if directories != [] && Parts(directories[0]).Ok? {
      var parts := Parts(directories[0]).value;
      PartsPlain(directories[0]);
      AddsToTree(n, parts, n);
      AddDirectoryWellFormed(n, parts);
      if AddDirectory(n, parts).Ok? {
        DirectoriesKeepWellFormed(AddDirectory(n, parts).value, directories[1..]);
      }
    }
  }

  lemma {:induction false} RowsKeepWellFormed(n: Node, rows: seq<Row>)
    requires n.Tree? && WellFormed(n)
    ensures AddRows(n, rows).Ok? ==> WellFormed(AddRows(n, rows).value)
    decreases |rows|
  {
    if rows != [] && AddRow(n, rows[0]).Ok? {
      PartsPlain(rows[0].path);
      AddBlobWellFormed(n, Parts(rows[0].path).value, Blob(rows[0].mode, rows[0].id));
      RowsKeepWellFormed(AddRow(n, rows[0]).value, rows[1..]);
    }
  }

  lemma BuiltWellFormed(inventory: Inventory)
    requires Built(inventory).Ok?
    ensures WellFormed(Built(inventory).value)
  {
    DirectoriesKeepWellFormed(Tree(map[]), inventory.directories);
    RowsKeepWellFormed(AddDirectories(Tree(map[]), inventory.directories).value, inventory.rows);
  }

  /** Everything that is hashed to authenticate an inventory. */
  ghost function Objects(sha1: Sha1, inventory: Inventory): set<string> {
    {Preimage("commit", inventory.commitObject)} +
    if Built(inventory).Ok? then Preimages(sha1, Built(inventory).value) else {}
  }

  /** Two inventories accepted for one commit have the same rows. */
  lemma AcceptedRowsAreUnique(sha1: Sha1, a: Inventory, b: Inventory, commit: string)
    requires Digest(sha1) && CollisionFree(sha1, Objects(sha1, a) + Objects(sha1, b))
    requires Accept(sha1, a, commit).Ok? && Accept(sha1, b, commit).Ok?
    ensures a.rows == b.rows && Built(a) == Built(b) && a.commitObject == b.commitObject
  {
    var x := AcceptedTree(sha1, a, commit);
    var y := AcceptedTree(sha1, b, commit);
    SameCommit(sha1, a, b, commit);
    HexInjective(Id(sha1, x), Id(sha1, y));
    PartCollisionFree(sha1, Objects(sha1, a) + Objects(sha1, b), Preimages(sha1, x) + Preimages(sha1, y));
    IdInjective(sha1, x, y);
  }

  /** What acceptance establishes of one inventory. */
  lemma AcceptedTree(sha1: Sha1, inventory: Inventory, commit: string) returns (tree: Node)
    requires Accept(sha1, inventory, commit).Ok?
    ensures Built(inventory) == Ok(tree) && tree.Tree? && WellFormed(tree) && Rows(tree) == inventory.rows
    ensures sha1(Preimage("commit", inventory.commitObject)) == commit && TreeLine(FirstLine(inventory.commitObject))
    ensures FirstLine(inventory.commitObject)[5..] == HexOf(Id(sha1, tree))
  {
    tree := Built(inventory).value;
    BuiltWellFormed(inventory);
  }

  lemma PartCollisionFree(sha1: Sha1, whole: set<string>, part: set<string>)
    requires CollisionFree(sha1, whole) && part <= whole
    ensures CollisionFree(sha1, part)
  {
  }

  lemma SameCommit(sha1: Sha1, a: Inventory, b: Inventory, commit: string)
    requires CollisionFree(sha1, Objects(sha1, a) + Objects(sha1, b))
    requires sha1(Preimage("commit", a.commitObject)) == sha1(Preimage("commit", b.commitObject)) == commit
    ensures a.commitObject == b.commitObject
  {
    assert Preimage("commit", a.commitObject) == Preimage("commit", b.commitObject);
    PreimageInjective("commit", a.commitObject, b.commitObject);
  }
}
