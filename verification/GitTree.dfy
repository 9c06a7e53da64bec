/**
 Git tree objects as nested dictionaries, their serialization and their identifiers.

 Byte strings are `string`s whose characters are below 256.  SHA-1 is a parameter: any function to
 20-byte digests; where a property needs it, it is collision-free on the finitely many objects at hand.
 */
module GitTree {
  import opened Prelude

  datatype Node = Blob(mode: string, id: string) | Tree(entries: map<string, Node>)

  type Sha1 = string -> string

  ghost predicate Digest(sha1: Sha1) {
    forall x :: |sha1(x)| == 20 && Bytes(sha1(x))
  }

  const MODES := {"100644", "100755", "120000"}
  const DIRECTORY := "40000"

  // ---------- Order ----------

  /** Git sorts a directory as if its name ended in a slash. */
  function Key(name: string, directory: bool): string {
    name + if directory then "/" else "\0"
  }

  lemma KeysDiffer(a: string, b: string, x: bool, y: bool)
    requires Key(a, x) == Key(b, y)
    ensures a == b && x == y
  {
    assert Key(a, x)[..|a|] == a && Key(b, y)[..|b|] == b;
    assert Key(a, x)[|a|] == Key(b, y)[|b|];
  }

  function KeyIn(entries: map<string, Node>, name: string): string
    requires name in entries
  {
    Key(name, entries[name].Tree?)
  }

  predicate IsLeast(entries: map<string, Node>, names: set<string>, least: string)
    requires names <= entries.Keys
  {
    least in names && forall n :: n in names && n != least ==> Less(KeyIn(entries, least), KeyIn(entries, n))
  }

  lemma {:induction false} LeastExists(entries: map<string, Node>, names: set<string>)
    requires names <= entries.Keys && |names| > 0
    ensures exists n :: IsLeast(entries, names, n)
    decreases |names|
  {
    var x := Member(names);
    var rest := names - {x};
    assert names == rest + {x};
    if |rest| == 0 {
      assert IsLeast(entries, names, x);
    } else {
      LeastExists(entries, rest);
      var m :| IsLeast(entries, rest, m);
      LessTotal(KeyIn(entries, m), KeyIn(entries, x));
      if Less(KeyIn(entries, m), KeyIn(entries, x)) {
        assert IsLeast(entries, names, m);
      } else {
        if KeyIn(entries, m) == KeyIn(entries, x) {
          KeysDiffer(m, x, entries[m].Tree?, entries[x].Tree?);
        }
        forall n | n in names && n != x ensures Less(KeyIn(entries, x), KeyIn(entries, n)) {
          if n != m {
            LessTransitive(KeyIn(entries, x), KeyIn(entries, m), KeyIn(entries, n));
          }
        }
        assert IsLeast(entries, names, x);
      }
    }
  }

  lemma LeastUnique(entries: map<string, Node>, names: set<string>, a: string, b: string)
    requires names <= entries.Keys && IsLeast(entries, names, a) && IsLeast(entries, names, b)
    ensures a == b
  {
    LessTotal(KeyIn(entries, a), KeyIn(entries, b));
  }

  /** The names of a directory in the order of its tree object. */
  function Sorted(entries: map<string, Node>, names: set<string>): (list: seq<string>)
    requires names <= entries.Keys
    ensures Elements(list) == names && |list| == |names|
    decreases |names|
  {
    if |names| == 0 then []
    else
      LeastExists(entries, names);
      assert forall a, b :: IsLeast(entries, names, a) && IsLeast(entries, names, b) ==> a == b by {
        forall a, b | IsLeast(entries, names, a) && IsLeast(entries, names, b) ensures a == b {
          LeastUnique(entries, names, a, b);
        }
      }
      var least :| IsLeast(entries, names, least);
      var rest := Sorted(entries, names - {least});
      assert Elements([least] + rest) == {least} + Elements(rest);
      [least] + rest
  }

  /** A strictly increasing enumeration of the names is the sorted one: the order is canonical. */
  lemma {:induction false} SortedIsCanonical(entries: map<string, Node>, list: seq<string>)
    requires Elements(list) <= entries.Keys && Ascending(entries, list)
    ensures Sorted(entries, Elements(list)) == list
  {
    var names := Elements(list);
    if list == [] {
      assert names == {};
    } else {
      FirstIsLeast(entries, list);
      LeastUnique(entries, names, list[0], Sorted(entries, names)[0]);
      assert names - {list[0]} == Elements(list[1..]);
      SortedIsCanonical(entries, list[1..]);
    }
  }

  ghost predicate Ascending(entries: map<string, Node>, list: seq<string>)
    requires Elements(list) <= entries.Keys
  {
    forall i, j :: 0 <= i < j < |list| ==> Less(KeyIn(entries, list[i]), KeyIn(entries, list[j]))
  }

  lemma FirstIsLeast(entries: map<string, Node>, list: seq<string>)
    requires Elements(list) <= entries.Keys && Ascending(entries, list) && list != []
    ensures IsLeast(entries, Elements(list), list[0]) && list[0] !in list[1..]
    ensures Elements(list) == {list[0]} + Elements(list[1..]) && Ascending(entries, list[1..])
  {
    forall j | 1 <= j < |list| ensures list[j] != list[0] {
      LessTotal(KeyIn(entries, list[0]), KeyIn(entries, list[j]));
    }
    assert list == [list[0]] + list[1..];
  }

  // ---------- Serialization ----------

  datatype Item = Item(mode: string, name: string, id: string)

  function ItemBytes(i: Item): string {
    i.mode + " " + i.name + "\0" + i.id
  }

  function Flatten(items: seq<Item>): string {
    if items == [] then "" else ItemBytes(items[0]) + Flatten(items[1..])
  }

  function Decimal(n: nat): string {
    if n < 10 then ["0123456789"[n]] else Decimal(n / 10) + ["0123456789"[n % 10]]
  }

  function Preimage(kind: string, data: string): string {
    kind + " " + Decimal(|data|) + "\0" + data
  }

  function Id(sha1: Sha1, n: Node): string
    decreases n, 1
  {
    match n
    case Blob(_, id) => id
    case Tree(_) => sha1(Preimage("tree", Flatten(Items(sha1, n))))
  }

  function Items(sha1: Sha1, n: Node): (items: seq<Item>)
    requires n.Tree?
    decreases n, 0
  {
    var names := Sorted(n.entries, n.entries.Keys);
    seq(|names|, i requires 0 <= i < |names| =>
      assert names[i] in Elements(names);
      var child := n.entries[names[i]];
      Item(if child.Tree? then DIRECTORY else child.mode, names[i], Id(sha1, child)))
  }

  // ---------- Injectivity ----------

  ghost predicate Plain(s: string) {
    forall i :: 0 <= i < |s| ==> s[i] != '\0' && s[i] != ' '
  }

  ghost predicate Readable(i: Item) {
    Plain(i.mode) && '\0' !in i.name && |i.id| == 20
  }

  /** The part before the first occurrence of a separator is determined by the whole. */
  lemma SplitAt(a: string, x: string, b: string, y: string, c: char)
    requires (forall i :: 0 <= i < |a| ==> a[i] != c) && (forall i :: 0 <= i < |b| ==> b[i] != c)
    requires a + [c] + x == b + [c] + y
    ensures a == b && x == y
  {
    var s, t := a + [c] + x, b + [c] + y;
    assert s[|a|] == c && t[|b|] == c && s == t;
    assert |a| == |b|;
    assert a == s[..|a|] && b == s[..|b|];
    assert x == s[|a| + 1..] && y == s[|b| + 1..];
  }

  lemma {:induction false} DecimalDigits(n: nat)
    ensures forall i :: 0 <= i < |Decimal(n)| ==> Decimal(n)[i] != '\0'
  {
    if n >= 10 {
      DecimalDigits(n / 10);
    }
  }

  lemma PreimageInjective(kind: string, a: string, b: string)
    requires Preimage(kind, a) == Preimage(kind, b)
    ensures a == b
  {
    DecimalDigits(|a|);
    DecimalDigits(|b|);
    var head := kind + " ";
    assert Preimage(kind, a)[|head|..] == Decimal(|a|) + "\0" + a;
    assert Preimage(kind, b)[|head|..] == Decimal(|b|) + "\0" + b;
    SplitAt(Decimal(|a|), a, Decimal(|b|), b, '\0');
  }

  lemma ItemInjective(i: Item, x: string, j: Item, y: string)
    requires Readable(i) && Readable(j) && ItemBytes(i) + x == ItemBytes(j) + y
    ensures i == j && x == y
  {
    var p, q := i.name + "\0" + i.id + x, j.name + "\0" + j.id + y;
    assert ItemBytes(i) + x == i.mode + " " + p && ItemBytes(j) + y == j.mode + " " + q;
    SplitAt(i.mode, p, j.mode, q, ' ');
    assert p == i.name + "\0" + (i.id + x) && q == j.name + "\0" + (j.id + y);
    SplitAt(i.name, i.id + x, j.name, j.id + y, '\0');
    assert i.id == (i.id + x)[..20] && j.id == (j.id + y)[..20];
    assert x == (i.id + x)[20..] && y == (j.id + y)[20..];
  }

  lemma {:induction false} FlattenInjective(a: seq<Item>, b: seq<Item>)
    requires (forall i :: 0 <= i < |a| ==> Readable(a[i])) && (forall i :: 0 <= i < |b| ==> Readable(b[i]))
    requires Flatten(a) == Flatten(b)
    ensures a == b
  {
    if a != [] && b != [] {
      ItemInjective(a[0], Flatten(a[1..]), b[0], Flatten(b[1..]));
      FlattenInjective(a[1..], b[1..]);
      assert a == [a[0]] + a[1..] && b == [b[0]] + b[1..];
    }
  }

  ghost predicate ProperName(s: string) {
    s != "" && s != "." && s != ".." && '/' !in s && '\0' !in s
  }

  /** A directory whose names, modes and identifiers can be told apart in its serialization. */
  ghost predicate WellFormed(n: Node)
    decreases n
  {
    match n
    case Blob(mode, id) => mode in MODES && |id| == 20
    case Tree(entries) =>
      forall name :: name in entries ==> ProperName(name) && WellFormed(entries[name])
  }

  /** The hashed form of every directory in a tree. */
  ghost function Preimages(sha1: Sha1, n: Node): set<string>
    decreases n
  {
    match n
    case Blob(_, _) => {}
    case Tree(entries) =>
      {Preimage("tree", Flatten(Items(sha1, n)))} +
      set name, x | name in entries && x in Preimages(sha1, entries[name]) :: x
  }

  ghost predicate CollisionFree(sha1: Sha1, objects: set<string>) {
    forall x, y :: x in objects && y in objects && sha1(x) == sha1(y) ==> x == y
  }

  lemma ModesPlain(mode: string)
    requires mode in MODES || mode == DIRECTORY
    ensures Plain(mode)
  {
  }

  lemma ItemReadable(sha1: Sha1, n: Node, i: nat)
    requires Digest(sha1) && WellFormed(n) && n.Tree? && i < |Items(sha1, n)|
    ensures Readable(Items(sha1, n)[i])
  {
    var names := Sorted(n.entries, n.entries.Keys);
    assert names[i] in Elements(names);
    var child := n.entries[names[i]];
    assert WellFormed(child);
    ModesPlain(if child.Tree? then DIRECTORY else child.mode);
    IdLength(sha1, child);
  }

  lemma IdLength(sha1: Sha1, n: Node)
    requires Digest(sha1) && WellFormed(n)
    ensures |Id(sha1, n)| == 20
  {
  }

  /** Equal serializations list the same names. */
  lemma SameNames(sha1: Sha1, a: Node, b: Node)
    requires a.Tree? && b.Tree? && Items(sha1, a) == Items(sha1, b)
    ensures Sorted(a.entries, a.entries.Keys) == Sorted(b.entries, b.entries.Keys) && a.entries.Keys == b.entries.Keys
  {
    var p, q := Sorted(a.entries, a.entries.Keys), Sorted(b.entries, b.entries.Keys);
    forall i | 0 <= i < |p| ensures p[i] == q[i] {
      assert Items(sha1, a)[i].name == p[i] && Items(sha1, b)[i].name == q[i];
    }
    assert p == q;
  }

  lemma SameItem(sha1: Sha1, a: Node, b: Node, name: string)
    requires a.Tree? && b.Tree? && Items(sha1, a) == Items(sha1, b) && name in a.entries && name in b.entries
    ensures var c, d := a.entries[name], b.entries[name];
            && Id(sha1, c) == Id(sha1, d)
            && (if c.Tree? then DIRECTORY else c.mode) == (if d.Tree? then DIRECTORY else d.mode)
  {
    SameNames(sha1, a, b);
    var p := Sorted(a.entries, a.entries.Keys);
    assert name in Elements(p);
    var i :| 0 <= i < |p| && p[i] == name;
    assert Items(sha1, a)[i] == Items(sha1, b)[i];
  }

  lemma SameItems(sha1: Sha1, a: Node, b: Node)
    requires Digest(sha1) && a.Tree? && b.Tree? && WellFormed(a) && WellFormed(b)
    requires CollisionFree(sha1, Preimages(sha1, a) + Preimages(sha1, b)) && Id(sha1, a) == Id(sha1, b)
    ensures Items(sha1, a) == Items(sha1, b)
  {
    var x, y := Items(sha1, a), Items(sha1, b);
    assert Preimage("tree", Flatten(x)) in Preimages(sha1, a) && Preimage("tree", Flatten(y)) in Preimages(sha1, b);
    PreimageInjective("tree", Flatten(x), Flatten(y));
    forall i | 0 <= i < |x| ensures Readable(x[i]) {
      ItemReadable(sha1, a, i);
    }
    forall i | 0 <= i < |y| ensures Readable(y[i]) {
      ItemReadable(sha1, b, i);
    }
    FlattenInjective(x, y);
  }

  /** Equal identifiers, hashed without collision, identify equal trees. */
  lemma {:induction false} IdInjective(sha1: Sha1, a: Node, b: Node)
    requires Digest(sha1) && a.Tree? && b.Tree? && WellFormed(a) && WellFormed(b)
    requires CollisionFree(sha1, Preimages(sha1, a) + Preimages(sha1, b)) && Id(sha1, a) == Id(sha1, b)
    ensures a == b
    decreases a, 1
  {
    SameItems(sha1, a, b);
    SameNames(sha1, a, b);
    forall name | name in a.entries ensures a.entries[name] == b.entries[name] {
      SameChild(sha1, a, b, name);
    }
    SameEntries(a, b);
  }

  lemma SameEntries(a: Node, b: Node)
    requires a.Tree? && b.Tree? && a.entries.Keys == b.entries.Keys
    requires forall name :: name in a.entries ==> a.entries[name] == b.entries[name]
    ensures a == b
  {
    assert a.entries == b.entries;
  }

  lemma {:induction false} SameChild(sha1: Sha1, a: Node, b: Node, name: string)
    requires Digest(sha1) && a.Tree? && b.Tree? && WellFormed(a) && WellFormed(b)
    requires CollisionFree(sha1, Preimages(sha1, a) + Preimages(sha1, b)) && Items(sha1, a) == Items(sha1, b)
    requires name in a.entries && name in b.entries
    ensures a.entries[name] == b.entries[name]
    decreases a, 0
  {
    var c, d := a.entries[name], b.entries[name];
    SameItem(sha1, a, b, name);
    SameKind(sha1, c, d);
    if c.Tree? {
      ChildCollisionFree(sha1, a, b, name);
      IdInjective(sha1, c, d);
    }
  }

  lemma SameKind(sha1: Sha1, c: Node, d: Node)
    requires WellFormed(c) && WellFormed(d) && Id(sha1, c) == Id(sha1, d)
    requires (if c.Tree? then DIRECTORY else c.mode) == (if d.Tree? then DIRECTORY else d.mode)
    ensures c.Tree? == d.Tree? && (c.Blob? ==> c == d)
  {
    assert DIRECTORY !in MODES;
  }

  lemma ChildCollisionFree(sha1: Sha1, a: Node, b: Node, name: string)
    requires a.Tree? && b.Tree? && name in a.entries && name in b.entries
    requires CollisionFree(sha1, Preimages(sha1, a) + Preimages(sha1, b))
    ensures CollisionFree(sha1, Preimages(sha1, a.entries[name]) + Preimages(sha1, b.entries[name]))
  {
    ChildPreimages(sha1, a, name);
    ChildPreimages(sha1, b, name);
  }

  lemma ChildPreimages(sha1: Sha1, n: Node, name: string)
    requires n.Tree? && name in n.entries
    ensures Preimages(sha1, n.entries[name]) <= Preimages(sha1, n)
  {
  }
}
