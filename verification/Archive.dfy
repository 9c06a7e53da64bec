/**
 The content-addressed archive: verified reads, version-pinned objects, publication of an artifact
 directory and its restoration.

 SHA-256, the JSON encoding of records and receipts, the sorted order of names and the version names
 chosen by the object store are parameters, collected in `World`.
 */
module Archive {
  import opened Prelude

  const MAX_RECORD := 2 * 1024 * 1024
  const MAX_FILE := 1024 * 1024 * 1024
  const MAX_ARTIFACT := 4 * 1024 * 1024 * 1024
  const MAX_FILES := 2048
  const BLOCK := 1024 * 1024
  const RECEIPT := "receipt.json"

  datatype Descriptor = Descriptor(key: string, version: string, sha256: string, bytes: nat)

  datatype File = File(bytes: string, mode: nat)

  type Directory = map<string, File>

  datatype Item = Item(descriptor: Descriptor, mode: nat)

  datatype Receipt = Receipt(component: string, input: string, files: map<string, string>)

  datatype Record = Record(component: string, input: string, files: map<string, Item>)

  datatype World = World(prefix: string, hash: string -> string, parse: string -> Option<Receipt>,
                         encode: Record -> string, decode: string -> Option<Record>,
                         sorted: set<string> -> seq<string>, assign: string -> string)

  // ---------- Objects ----------

  datatype Pin = Pin(key: string, version: string)

  datatype Object = Object(body: string, length: nat, metadata: string)

  /** Every version of every key, and the latest version of each key. */
  datatype Store = Store(objects: map<Pin, Object>, latest: map<string, string>)

  /** Object versions are never changed or removed. */
  ghost predicate Extends(a: Store, b: Store) {
    forall pin :: pin in a.objects ==> pin in b.objects && b.objects[pin] == a.objects[pin]
  }

  /** Every stored object belongs to a key with a latest version. */
  ghost predicate Tracked(s: Store) {
    forall pin :: pin in s.objects ==> pin.key in s.latest
  }

  predicate IsDigest(s: string) {
    |s| == 64 && forall i :: 0 <= i < 64 ==> '0' <= s[i] <= '9' || 'a' <= s[i] <= 'f'
  }

  function KeyOf(w: World, checksum: string, record: bool): string {
    w.prefix + (if record then "/records/" else "/blobs/") + checksum + if record then ".json" else ""
  }

  predicate Proper(w: World, d: Descriptor, record: bool) {
    && IsDigest(d.sha256) && d.key == KeyOf(w, d.sha256, record)
    && d.version != "" && d.version != "null" && |d.version| <= 1024
    && d.bytes <= if record then MAX_RECORD else MAX_FILE
  }

  /** The bytes of a pinned object whose version, length, metadata and digest all agree. */
  function Read(w: World, store: Store, d: Descriptor, record: bool): Result<string> {
    var pin := Pin(d.key, d.version);
    if !Proper(w, d, record) then Error("invalid version-pinned archive object")
    else if pin !in store.objects then Error("no such version")
    else
      var stored := store.objects[pin];
      if stored.length != d.bytes || stored.metadata != d.sha256 then Error("archive object version/length/digest metadata changed")
      else if |stored.body| > d.bytes then Error("archive object exceeds its declared length")
      else if |stored.body| != d.bytes || w.hash(stored.body) != d.sha256 then Error("archive object bytes failed SHA-256 verification")
      else Ok(stored.body)
  }

  /**
   The body is received in blocks of whatever size the connection grants.  No more than one byte
   beyond the declared length is ever taken, and nothing is returned that fails the digest.
   */
  method ReadBody(w: World, body: string, bytes: nat, sha256: string, grant: nat -> nat) returns (r: Result<string>, taken: nat)
    ensures r == if |body| > bytes then Error("archive object exceeds its declared length")
                 else if |body| != bytes || w.hash(body) != sha256 then Error("archive object bytes failed SHA-256 verification")
                 else Ok(body)
    ensures taken <= bytes + 1 && taken <= |body|
  {
    var pieces := "";
    taken := 0;
    while taken < |body|
      invariant taken <= bytes && taken <= |body| && pieces == body[..taken]
    {
      var limit := if BLOCK < bytes - taken + 1 then BLOCK else bytes - taken + 1;
      var wanted := 1 + grant(taken) % limit;
      var block := body[taken..if taken + wanted < |body| then taken + wanted else |body|];
      taken := taken + |block|;
      if taken > bytes {
        return Error("archive object exceeds its declared length"), taken;
      }
      pieces := pieces + block;
    }
    assert pieces == body;
    if taken != bytes || w.hash(pieces) != sha256 {
      return Error("archive object bytes failed SHA-256 verification"), taken;
    }
    return Ok(pieces), taken;
  }

  datatype Outcome<T> = Outcome(store: Store, result: Result<T>)

  /** `put`: the first upload of a key, or its latest version; verified before it is referenced. */
  function Put(w: World, store: Store, source: string, checksum: string, record: bool): Outcome<Descriptor> {
    var key := KeyOf(w, checksum, record);
    if !Proper(w, Descriptor(key, "unpublished", checksum, |source|), record) then Outcome(store, Error("invalid version-pinned archive object"))
    else
      var version := if key in store.latest then store.latest[key] else w.assign(key);
      var after := if key in store.latest then store
                   else Store(store.objects[Pin(key, version) := Object(source, |source|, checksum)], store.latest[key := version]);
      var d := Descriptor(key, version, checksum, |source|);
      match Read(w, after, d, record)
      case Error(e) => Outcome(after, Error(e))
      case Ok(_) => Outcome(after, Ok(d))
  }

  function PublishRecord(w: World, store: Store, record: Record): Outcome<Descriptor> {
    var data := w.encode(record);
    if |data| > MAX_RECORD then Outcome(store, Error("archive record exceeds its bound"))
    else Put(w, store, data, w.hash(data), true)
  }

  // ---------- Names ----------

  function SplitName(s: string): (parts: seq<string>)
    ensures |parts| > 0
  {
    if s == "" then [""]
    else
      var rest := SplitName(s[1..]);
      if s[0] == '/' then [""] + rest else [[s[0]] + rest[0]] + rest[1..]
  }

  predicate RelativeName(s: string) {
    s != "" && '\\' !in s && '\0' !in s && |s| <= 1024 && forall p :: p in SplitName(s) ==> p !in {"", ".", ".."}
  }

  /** No file stands where another needs a directory. */
  predicate Disjoint(names: set<string>) {
    forall a, b :: a in names && b in names ==> !(a + "/" <= b)
  }

  // ---------- Publication ----------

  datatype Progress = Progress(store: Store, total: nat, files: Result<map<string, Item>>)

  /** One file: checked against the receipt, uploaded, recorded with its mode. */
  function PublishFile(w: World, p: Progress, directory: Directory, expected: map<string, string>, name: string): Progress
    requires name in expected && p.files.Ok?
  {
    if !RelativeName(name) then p.(files := Error("safe relative artifact filename required"))
    else if name !in directory then p.(files := Error("artifact must be a regular file inside its root"))
    else
      var file := directory[name];
      if |file.bytes| > MAX_FILE then p.(files := Error("artifact file type or size exceeds its bound"))
      else if !IsDigest(expected[name]) then p.(files := Error("SHA-256 identity required"))
      else if p.total + |file.bytes| > MAX_ARTIFACT || w.hash(file.bytes) != expected[name]
      then p.(files := Error("artifact bytes differ from receipt or exceed the size bound"))
      else if file.mode > 0x1ff then p.(files := Error("special artifact mode is forbidden"))
      else
        var put := Put(w, p.store, file.bytes, expected[name], false);
        Progress(put.store, p.total + |file.bytes|,
                 match put.result
                 case Error(e) => Error(e)
                 case Ok(d) => Ok(p.files.value[name := Item(d, file.mode)]))
  }

  function PublishFiles(w: World, store: Store, directory: Directory, expected: map<string, string>, order: seq<string>): Progress
    requires Elements(order) <= expected.Keys
  {
    if order == [] then Progress(store, 0, Ok(map[]))
    else
      assert order[|order| - 1] in Elements(order) && Elements(order[..|order| - 1]) <= Elements(order);
      var p := PublishFiles(w, store, directory, expected, order[..|order| - 1]);
      if p.files.Error? then p else PublishFile(w, p, directory, expected, order[|order| - 1])
  }

  /** The receipt of a directory that may be published, or why not. */
  function ReceiptOf(w: World, directory: Directory, component: string, input: string): Result<Receipt> {
    if !IsDigest(input) then Error("SHA-256 identity required")
    else if RECEIPT !in directory then Error("artifact must be a regular file inside its root")
    else if |directory[RECEIPT].bytes| > MAX_RECORD then Error("artifact receipt exceeds its bound")
    else match w.parse(directory[RECEIPT].bytes)
         case None => Error("invalid receipt")
         case Some(receipt) =>
           if receipt.component != component || receipt.input != input then Error("artifact receipt source/input binding changed")
           else if receipt.files == map[] || |receipt.files| >= MAX_FILES || RECEIPT in receipt.files
           then Error("bounded artifact file inventory required")
           else Ok(receipt)
  }

  /** Every listed file and the receipt itself, with their digests. */
  function Expected(w: World, directory: Directory, receipt: Receipt): map<string, string>
    requires RECEIPT in directory
  {
    receipt.files[RECEIPT := w.hash(directory[RECEIPT].bytes)]
  }

  ghost predicate Enumerates(w: World) {
    forall names :: Elements(w.sorted(names)) == names && Distinct(w.sorted(names))
  }

  function Publish(w: World, store: Store, directory: Directory, component: string, input: string): Outcome<Descriptor>
    requires Enumerates(w)
  {
    match ReceiptOf(w, directory, component, input)
    case Error(e) => Outcome(store, Error(e))
    case Ok(receipt) =>
      var expected := Expected(w, directory, receipt);
      var p := PublishFiles(w, store, directory, expected, w.sorted(expected.Keys));
      match p.files
      case Error(e) => Outcome(p.store, Error(e))
      case Ok(files) => PublishRecord(w, p.store, Record(component, input, files))
  }

  // ---------- Restoration ----------

  function Total(files: map<string, Item>, order: seq<string>): nat
    requires Elements(order) <= files.Keys
  {
    if order == [] then 0
    else
      assert order[|order| - 1] in Elements(order) && Elements(order[..|order| - 1]) <= Elements(order);
      Total(files, order[..|order| - 1]) + files[order[|order| - 1]].descriptor.bytes
  }

  predicate Listable(w: World, name: string, item: Item) {
    RelativeName(name) && Proper(w, item.descriptor, false) && item.mode <= 0x1ff
  }

  /** The checks made on an archived record before anything is written. */
  function Inventory(w: World, store: Store, d: Descriptor, component: string, input: string): Result<Record>
    requires Enumerates(w)
  {
    match Read(w, store, d, true)
    case Error(e) => Error(e)
    case Ok(data) =>
      match w.decode(data)
      case None => Error("invalid record")
      case Some(record) =>
        var files := record.files;
        if !IsDigest(input) then Error("SHA-256 identity required")
        else if record.component != component || record.input != input then Error("archived artifact source/input binding differs")
        else if !(0 < |files| <= MAX_FILES) || RECEIPT !in files then Error("bounded archived artifact inventory required")
        else if exists name :: name in files && !Listable(w, name, files[name]) then Error("unsafe artifact entry")
        else if Total(files, w.sorted(files.Keys)) > MAX_ARTIFACT || files[RECEIPT].descriptor.bytes > MAX_RECORD
        then Error("archived artifact exceeds its size bound")
        else Ok(record)
  }

  /** One file into the staging directory; a name that needs a file as its directory fails. */
  function StageFile(w: World, store: Store, staging: Directory, name: string, item: Item): Result<Directory> {
    if exists other :: other in staging && (other + "/" <= name || name + "/" <= other) then Error("not a directory")
    else match Read(w, store, item.descriptor, false)
         case Error(e) => Error(e)
         case Ok(bytes) => Ok(staging[name := File(bytes, item.mode)])
  }

  function Staged(w: World, store: Store, files: map<string, Item>, order: seq<string>): Result<Directory>
    requires Elements(order) <= files.Keys
  {
    if order == [] then Ok(map[])
    else
      assert order[|order| - 1] in Elements(order) && Elements(order[..|order| - 1]) <= Elements(order);
      match Staged(w, store, files, order[..|order| - 1])
      case Error(e) => Error(e)
      case Ok(staging) => StageFile(w, store, staging, order[|order| - 1], files[order[|order| - 1]])
  }

  /** The restored receipt lists exactly the restored files. */
  predicate Agrees(w: World, staging: Directory, files: map<string, Item>, component: string, input: string) {
    && RECEIPT in staging
    && w.parse(staging[RECEIPT].bytes) ==
       Some(Receipt(component, input, map name | name in files && name != RECEIPT :: files[name].descriptor.sha256))
  }

  function Restore(w: World, store: Store, d: Descriptor, component: string, input: string): Result<Directory>
    requires Enumerates(w)
  {
    match Inventory(w, store, d, component, input)
    case Error(e) => Error(e)
    case Ok(record) =>
      match Staged(w, store, record.files, w.sorted(record.files.Keys))
      case Error(e) => Error(e)
      case Ok(staging) =>
        if Agrees(w, staging, record.files, component, input) then Ok(staging)
        else Error("restored receipt differs from archived file inventory")
  }

  // ---------- In place ----------

  /** The bucket, which publication changes object by object. */
  class Bucket {
    var store: Store

    constructor (store: Store)
      ensures this.store == store
    {
      this.store := store;
    }

    /** The files of an inventory, one after the other, up to the first that is refused. */
    method PublishAll(w: World, directory: Directory, expected: map<string, string>, order: seq<string>) returns (p: Progress)
      requires Elements(order) <= expected.Keys
      modifies this
      ensures p == PublishFiles(w, old(store), directory, expected, order) && store == p.store
    {
      p := Progress(store, 0, Ok(map[]));
      for i := 0 to |order|
        invariant Elements(order[..i]) <= expected.Keys
        invariant p == PublishFiles(w, old(store), directory, expected, order[..i]) && p.store == store
        invariant p.files.Ok?
      {
        FrontElements(order, i);
        PublishNext(w, old(store), directory, expected, order, i);
        p := PublishFile(w, p, directory, expected, order[i]);
        store := p.store;
        if p.files.Error? {
          ErrorStays(w, old(store), directory, expected, order, i + 1);
          return;
        }
      }
      assert order[..|order|] == order;
    }

    method PublishDirectory(w: World, directory: Directory, component: string, input: string) returns (r: Result<Descriptor>)
      requires Enumerates(w)
      modifies this
      ensures Publish(w, old(store), directory, component, input) == Outcome(store, r)
    {
      var receipt := ReceiptOf(w, directory, component, input);
      if receipt.Error? {
        return Error(receipt.reason);
      }
      var expected := Expected(w, directory, receipt.value);
      var p := PublishAll(w, directory, expected, w.sorted(expected.Keys));
      if p.files.Error? {
        return Error(p.files.reason);
      }
      var last := PublishRecord(w, store, Record(component, input, p.files.value));
      store := last.store;
      return last.result;
    }
  }

  lemma PublishNext(w: World, store: Store, directory: Directory, expected: map<string, string>, order: seq<string>, i: nat)
    requires Elements(order) <= expected.Keys && i < |order| && Elements(order[..i]) <= Elements(order[..i + 1]) <= expected.Keys
    requires PublishFiles(w, store, directory, expected, order[..i]).files.Ok?
    ensures order[i] in expected
    ensures PublishFiles(w, store, directory, expected, order[..i + 1]) ==
            PublishFile(w, PublishFiles(w, store, directory, expected, order[..i]), directory, expected, order[i])
  {
    assert order[..i + 1][..i] == order[..i] && order[i] in Elements(order);
  }

  lemma FrontElements(order: seq<string>, i: nat)
    requires i < |order|
    ensures Elements(order[..i]) <= Elements(order[..i + 1]) <= Elements(order)
  {
  }

  lemma {:induction false} ErrorStays(w: World, store: Store, directory: Directory, expected: map<string, string>, order: seq<string>, i: nat)
    requires Elements(order) <= expected.Keys && i <= |order| && Elements(order[..i]) <= Elements(order)
    requires PublishFiles(w, store, directory, expected, order[..i]).files.Error?
    ensures PublishFiles(w, store, directory, expected, order) == PublishFiles(w, store, directory, expected, order[..i])
    decreases |order|
  {
    var n := |order|;
    if i == n {
      assert order[..i] == order;
    } else {
      assert order[..n - 1][..i] == order[..i];
      FrontElements(order, n - 1);
      assert Elements(order[..i]) <= Elements(order[..n - 1]);
      ErrorStays(w, store, directory, expected, order[..n - 1], i);
    }
  }

  lemma {:induction false} StagedFails(w: World, store: Store, files: map<string, Item>, order: seq<string>, i: nat)
    requires Elements(order) <= files.Keys && i <= |order| && Elements(order[..i]) <= Elements(order)
    requires Staged(w, store, files, order[..i]).Error?
    ensures Staged(w, store, files, order).Error?
    decreases |order|
  {
    var n := |order|;
    if i == n {
      assert order[..i] == order;
    } else {
      assert order[..n - 1][..i] == order[..i];
      FrontElements(order, n - 1);
      assert Elements(order[..i]) <= Elements(order[..n - 1]);
      StagedFails(w, store, files, order[..n - 1], i);
    }
  }

  /** The volume that receives an artifact: its destination and a staging directory beside it. */
  class Volume {
    var destination: Option<Directory>
    var staging: Option<Directory>

    constructor (destination: Option<Directory>)
      ensures this.destination == destination && staging == None
    {
      this.destination := destination;
      staging := None;
    }

    /**
     `restore_directory`, stopped after any number of durable writes.  Whatever the stopping point,
     the destination is what it was, or it was absent and now holds the complete artifact.
     */
    method Hydrate(w: World, store: Store, d: Descriptor, component: string, input: string, writes: nat) returns (done: bool)
      requires Enumerates(w)
      modifies this
      ensures destination == old(destination)
              || (old(destination) == None && Restore(w, store, d, component, input).Ok?
                  && destination == Some(Restore(w, store, d, component, input).value))
      ensures done && old(destination) == None && Restore(w, store, d, component, input).Ok? ==>
                destination == Some(Restore(w, store, d, component, input).value) && staging == None
      ensures done && (old(destination).Some? || Restore(w, store, d, component, input).Error?) ==>
                destination == old(destination) && (staging == None || staging == old(staging))
    {
      var record := Inventory(w, store, d, component, input);
      if record.Error? || destination.Some? {
        return true;
      }
      var files := record.value.files;
      var order := w.sorted(files.Keys);
      var left := writes;
      var copy: Directory := map[];
      staging := Some(copy);
      for i := 0 to |order|
        invariant destination == None && staging == Some(copy)
        invariant Elements(order[..i]) <= files.Keys && Elements(order) == files.Keys
        invariant Staged(w, store, files, order[..i]) == Ok(copy)
      {
        FrontElements(order, i);
        assert order[..i + 1][..i] == order[..i] && order[i] in Elements(order);
        if left == 0 {
          return false;
        }
        left := left - 1;
        var next := StageFile(w, store, copy, order[i], files[order[i]]);
        if next.Error? {
          StagedFails(w, store, files, order, i + 1);
          staging := None;
          return true;
        }
        copy := next.value;
        staging := Some(copy);
      }
      assert order[..|order|] == order;
      if !Agrees(w, copy, files, component, input) {
        staging := None;
        return true;
      }
      if left == 0 {
        return false;
      }
      destination, staging := staging, None;
      return true;
    }
  }
}
