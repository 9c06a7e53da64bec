/** Whatever is published can be restored, with the same names, bytes and modes. */
module ArchiveRoundTrip {
  import opened Prelude
  import opened Archive

  /** No stored object shares a digest with other bytes. */
  ghost predicate Identified(w: World, s: Store, bytes: string) {
    forall pin :: pin in s.objects && w.hash(s.objects[pin].body) == w.hash(bytes) ==> s.objects[pin].body == bytes
  }

  /** A descriptor that reads back what it was made for. */
  ghost predicate Holds(w: World, s: Store, d: Descriptor, source: string, record: bool) {
    && Proper(w, d, record) && d.bytes == |source| && d.sha256 == w.hash(source)
    && Pin(d.key, d.version) in s.objects && Read(w, s, d, record).Ok?
  }

  lemma HoldsLater(w: World, a: Store, b: Store, d: Descriptor, source: string, record: bool)
    requires Holds(w, a, d, source, record) && Extends(a, b)
    ensures Holds(w, b, d, source, record)
  {
  }

  lemma HeldBytes(w: World, s: Store, d: Descriptor, source: string, record: bool)
    requires Holds(w, s, d, source, record) && Identified(w, s, source)
    ensures Read(w, s, d, record) == Ok(source)
  {
  }

  lemma PutHolds(w: World, s: Store, source: string, record: bool)
    requires Tracked(s)
    ensures var p := Put(w, s, source, w.hash(source), record);
            && Extends(s, p.store) && Tracked(p.store)
            && (p.result.Ok? ==> Holds(w, p.store, p.result.value, source, record))
  {
  }

  /** What holds of one published file. */
  ghost predicate FileHeld(w: World, s: Store, directory: Directory, expected: map<string, string>, files: map<string, Item>, name: string) {
    && name in expected && name in directory && name in files
    && RelativeName(name) && w.hash(directory[name].bytes) == expected[name]
    && Holds(w, s, files[name].descriptor, directory[name].bytes, false)
    && files[name].mode == directory[name].mode <= 0x1ff
  }

  ghost predicate Published(w: World, directory: Directory, expected: map<string, string>, order: seq<string>, p: Progress) {
    && p.files.Ok? && Tracked(p.store) && p.files.value.Keys == Elements(order) && p.total <= MAX_ARTIFACT
    && forall name :: name in order ==> FileHeld(w, p.store, directory, expected, p.files.value, name)
  }

  lemma PublishFileStep(w: World, p: Progress, directory: Directory, expected: map<string, string>, name: string)
    requires p.files.Ok? && Tracked(p.store) && name in expected && PublishFile(w, p, directory, expected, name).files.Ok?
    ensures var q := PublishFile(w, p, directory, expected, name);
            && Extends(p.store, q.store) && Tracked(q.store)
            && name in directory && q.total == p.total + |directory[name].bytes| <= MAX_ARTIFACT
            && name in q.files.value && q.files.value == p.files.value[name := q.files.value[name]]
            && FileHeld(w, q.store, directory, expected, q.files.value, name)
  {
    PutHolds(w, p.store, directory[name].bytes, false);
    var put := Put(w, p.store, directory[name].bytes, expected[name], false);
    ItemHeld(w, put.store, directory, expected, p.files.value, name, put.result.value);
  }

  lemma ItemHeld(w: World, s: Store, directory: Directory, expected: map<string, string>, files: map<string, Item>, name: string, d: Descriptor)
    requires name in directory && name in expected && RelativeName(name) && directory[name].mode <= 0x1ff
    requires w.hash(directory[name].bytes) == expected[name] && Holds(w, s, d, directory[name].bytes, false)
    ensures FileHeld(w, s, directory, expected, files[name := Item(d, directory[name].mode)], name)
  {
  }

  lemma PublishFileHolds(w: World, directory: Directory, expected: map<string, string>, order: seq<string>, p: Progress, name: string)
    requires Published(w, directory, expected, order, p) && name in expected && name !in order
    requires PublishFile(w, p, directory, expected, name).files.Ok?
    ensures var q := PublishFile(w, p, directory, expected, name);
            && Published(w, directory, expected, order + [name], q) && name in directory
            && q.total == p.total + |directory[name].bytes|
            && forall n :: n in order ==> q.files.value[n] == p.files.value[n]
  {
    PublishFileStep(w, p, directory, expected, name);
    var q := PublishFile(w, p, directory, expected, name);
    GrownHeld(w, directory, expected, order, p, q, name);
  }

  lemma GrownHeld(w: World, directory: Directory, expected: map<string, string>, order: seq<string>, p: Progress, q: Progress, name: string)
    requires Published(w, directory, expected, order, p) && name !in order && q.files.Ok? && q.total <= MAX_ARTIFACT
    requires Extends(p.store, q.store) && Tracked(q.store) && FileHeld(w, q.store, directory, expected, q.files.value, name)
    requires q.files.value == p.files.value[name := q.files.value[name]]
    ensures Published(w, directory, expected, order + [name], q)
  {
    forall n | n in order + [name] ensures FileHeld(w, q.store, directory, expected, q.files.value, n) {
      if n != name {
        assert FileHeld(w, p.store, directory, expected, p.files.value, n);
        HoldsLater(w, p.store, q.store, p.files.value[n].descriptor, directory[n].bytes, false);
      }
    }
    assert Elements(order + [name]) == Elements(order) + {name};
  }

  lemma TotalSame(a: map<string, Item>, b: map<string, Item>, order: seq<string>)
    requires Elements(order) <= a.Keys && Elements(order) <= b.Keys && forall n :: n in order ==> a[n] == b[n]
    ensures Total(a, order) == Total(b, order)
  {
    if order != [] {
      FrontElements(order, |order| - 1);
      assert order[..|order|] == order;
      TotalSame(a, b, order[..|order| - 1]);
    }
  }

  ghost predicate Summed(p: Progress, order: seq<string>) {
    p.files.Ok? ==> Elements(order) <= p.files.value.Keys && p.total == Total(p.files.value, order)
  }

  lemma {:induction false} PublishFilesHold(w: World, store: Store, directory: Directory, expected: map<string, string>, order: seq<string>)
    requires Elements(order) <= expected.Keys && Distinct(order) && Tracked(store)
    ensures var p := PublishFiles(w, store, directory, expected, order);
            p.files.Ok? ==> Published(w, directory, expected, order, p) && Summed(p, order)
  {
    if order != [] {
      var front, name := order[..|order| - 1], order[|order| - 1];
      assert order == front + [name] && name in Elements(order);
      assert Elements(front) <= Elements(order) && name !in front;
      PublishFilesHold(w, store, directory, expected, front);
      var p := PublishFiles(w, store, directory, expected, front);
      if p.files.Ok? && PublishFile(w, p, directory, expected, name).files.Ok? {
        PublishFileHolds(w, directory, expected, front, p, name);
        SummedGrows(w, directory, expected, front, p, name, PublishFile(w, p, directory, expected, name));
      }
    }
  }

  lemma SummedGrows(w: World, directory: Directory, expected: map<string, string>, front: seq<string>, p: Progress, name: string, q: Progress)
    requires Summed(p, front) && p.files.Ok? && Published(w, directory, expected, front + [name], q) && name in directory
    requires q.total == p.total + |directory[name].bytes|
    requires forall n :: n in front ==> n in q.files.value && q.files.value[n] == p.files.value[n]
    ensures Summed(q, front + [name])
  {
    var order := front + [name];
    assert order[..|order| - 1] == front && name in order;
    TotalSame(p.files.value, q.files.value, front);
    assert FileHeld(w, q.store, directory, expected, q.files.value, name);
  }

  /** The listed part of a directory. */
  ghost function Part(directory: Directory, names: set<string>): Directory {
    map n | n in names && n in directory :: directory[n]
  }

  lemma {:induction false} StagedHolds(w: World, s: Store, directory: Directory, expected: map<string, string>, files: map<string, Item>, order: seq<string>)
    requires Elements(order) <= files.Keys && Distinct(order) && Disjoint(directory.Keys)
    requires forall n :: n in order ==> FileHeld(w, s, directory, expected, files, n) && Identified(w, s, directory[n].bytes)
    ensures Staged(w, s, files, order) == Ok(Part(directory, Elements(order)))
  {
    if order != [] {
      var front, name := order[..|order| - 1], order[|order| - 1];
      assert order == front + [name] && name in Elements(order);
      assert forall n :: n in front ==> n in Elements(order);
      StagedHolds(w, s, directory, expected, files, front);
      assert FileHeld(w, s, directory, expected, files, name);
      StageOne(w, s, directory, Elements(front), name, files[name]);
      assert Elements(order) == Elements(front) + {name};
    }
  }

  lemma StageOne(w: World, s: Store, directory: Directory, names: set<string>, name: string, item: Item)
    requires Disjoint(directory.Keys) && name in directory && item.mode == directory[name].mode
    requires Holds(w, s, item.descriptor, directory[name].bytes, false) && Identified(w, s, directory[name].bytes)
    ensures StageFile(w, s, Part(directory, names), name, item) == Ok(Part(directory, names + {name}))
  {
    HeldBytes(w, s, item.descriptor, directory[name].bytes, false);
    PartGrows(directory, names, name);
  }

  lemma PartGrows(directory: Directory, names: set<string>, name: string)
    requires name in directory
    ensures Part(directory, names)[name := directory[name]] == Part(directory, names + {name})
  {
  }

  /** A directory as the file system holds it and the world's codecs as Python provides them. */
  ghost predicate Usable(w: World, directory: Directory, store: Store) {
    && Enumerates(w) && Tracked(store) && Disjoint(directory.Keys)
    && forall r :: w.decode(w.encode(r)) == Some(r)
  }

  /** The record that a successful publication writes. */
  ghost function RecordOf(w: World, store: Store, directory: Directory, component: string, input: string): Record
    requires Enumerates(w) && Publish(w, store, directory, component, input).result.Ok?
  {
    var expected := Expected(w, directory, ReceiptOf(w, directory, component, input).value);
    Record(component, input, PublishFiles(w, store, directory, expected, w.sorted(expected.Keys)).files.value)
  }

  /** The published files hold in every later state of the store. */
  lemma PublishedFiles(w: World, store: Store, directory: Directory, component: string, input: string, later: Store)
    requires Usable(w, directory, store) && Publish(w, store, directory, component, input).result.Ok?
    requires Extends(Publish(w, store, directory, component, input).store, later)
    ensures var expected := Expected(w, directory, ReceiptOf(w, directory, component, input).value);
            var files := RecordOf(w, store, directory, component, input).files;
            && files.Keys == expected.Keys && Total(files, w.sorted(files.Keys)) <= MAX_ARTIFACT
            && forall n :: n in files ==> FileHeld(w, later, directory, expected, files, n)
    ensures var record := RecordOf(w, store, directory, component, input);
            Holds(w, later, Publish(w, store, directory, component, input).result.value, w.encode(record), true)
  {
    var expected := Expected(w, directory, ReceiptOf(w, directory, component, input).value);
    var order := w.sorted(expected.Keys);
    PublishFilesHold(w, store, directory, expected, order);
    var p := PublishFiles(w, store, directory, expected, order);
    var record := RecordOf(w, store, directory, component, input);
    PutHolds(w, p.store, w.encode(record), true);
    var last := PublishRecord(w, p.store, record);
    HoldsLater(w, last.store, later, last.result.value, w.encode(record), true);
    forall n | n in record.files ensures FileHeld(w, later, directory, expected, record.files, n) {
      assert n in Elements(order);
      assert FileHeld(w, p.store, directory, expected, record.files, n);
      HoldsLater(w, p.store, later, record.files[n].descriptor, directory[n].bytes, false);
    }
  }

  /** A record whose files are all held passes every check of restoration. */
  lemma InventoryAccepts(w: World, s: Store, d: Descriptor, record: Record, directory: Directory, expected: map<string, string>)
    requires Enumerates(w) && Holds(w, s, d, w.encode(record), true) && Identified(w, s, w.encode(record))
    requires w.decode(w.encode(record)) == Some(record) && IsDigest(record.input)
    requires 0 < |record.files| <= MAX_FILES && RECEIPT in record.files && Total(record.files, w.sorted(record.files.Keys)) <= MAX_ARTIFACT
    requires forall n :: n in record.files ==> FileHeld(w, s, directory, expected, record.files, n)
    requires RECEIPT in directory && |directory[RECEIPT].bytes| <= MAX_RECORD
    ensures Inventory(w, s, d, record.component, record.input) == Ok(record)
  {
    HeldBytes(w, s, d, w.encode(record), true);
    forall n | n in record.files ensures Listable(w, n, record.files[n]) {
      assert FileHeld(w, s, directory, expected, record.files, n);
    }
    assert FileHeld(w, s, directory, expected, record.files, RECEIPT);
  }

  lemma RestoreAccepts(w: World, s: Store, d: Descriptor, record: Record, directory: Directory, receipt: Receipt)
    requires Enumerates(w) && Inventory(w, s, d, record.component, record.input) == Ok(record) && Disjoint(directory.Keys)
    requires RECEIPT in directory && RECEIPT !in receipt.files && w.parse(directory[RECEIPT].bytes) == Some(receipt)
    requires receipt.component == record.component && receipt.input == record.input
    requires record.files.Keys == receipt.files.Keys + {RECEIPT}
    requires forall n :: n in record.files ==> FileHeld(w, s, directory, Expected(w, directory, receipt), record.files, n)
    requires forall n :: n in directory ==> Identified(w, s, directory[n].bytes)
    ensures Restore(w, s, d, record.component, record.input) == Ok(Part(directory, receipt.files.Keys + {RECEIPT}))
  {
    var expected, files := Expected(w, directory, receipt), record.files;
    var order := w.sorted(files.Keys);
    forall n | n in order ensures n in files && FileHeld(w, s, directory, expected, files, n) && Identified(w, s, directory[n].bytes) {
      assert n in Elements(order);
    }
    StagedHolds(w, s, directory, expected, files, order);
    assert FileHeld(w, s, directory, expected, files, RECEIPT);
    SameDigests(w, s, directory, receipt, files);
  }

  lemma SameDigests(w: World, s: Store, directory: Directory, receipt: Receipt, files: map<string, Item>)
    requires RECEIPT in directory && RECEIPT !in receipt.files && files.Keys == receipt.files.Keys + {RECEIPT}
    requires forall n :: n in files ==> FileHeld(w, s, directory, Expected(w, directory, receipt), files, n)
    ensures (map n | n in files && n != RECEIPT :: files[n].descriptor.sha256) == receipt.files
  {
    forall n | n in files && n != RECEIPT ensures n in receipt.files && files[n].descriptor.sha256 == receipt.files[n] {
      assert FileHeld(w, s, directory, Expected(w, directory, receipt), files, n);
    }
    assert forall n :: n in receipt.files ==> n in files;
  }

  lemma CountFiles(receipt: Receipt, files: map<string, Item>)
    requires RECEIPT !in receipt.files && files.Keys == receipt.files.Keys + {RECEIPT}
    ensures |files| == |receipt.files| + 1
  {
    assert |files| == |files.Keys| && |receipt.files| == |receipt.files.Keys|;
  }

  lemma PublishedReceipt(w: World, store: Store, directory: Directory, component: string, input: string) returns (receipt: Receipt)
    requires Enumerates(w) && Publish(w, store, directory, component, input).result.Ok?
    ensures ReceiptOf(w, directory, component, input) == Ok(receipt) && IsDigest(input) && RECEIPT in directory
    ensures w.parse(directory[RECEIPT].bytes) == Some(receipt) && |directory[RECEIPT].bytes| <= MAX_RECORD
    ensures receipt.component == component && receipt.input == input && RECEIPT !in receipt.files && |receipt.files| < MAX_FILES
  {
    receipt := ReceiptOf(w, directory, component, input).value;
  }

  /**
   Whatever publication accepts, restoration accepts, in every later state of the store; and it
   yields exactly the listed files and the receipt, with the same bytes and modes.
   */
  lemma RoundTrip(w: World, store: Store, directory: Directory, component: string, input: string, later: Store)
    requires Usable(w, directory, store) && Publish(w, store, directory, component, input).result.Ok?
    requires Extends(Publish(w, store, directory, component, input).store, later)
    requires Identified(w, later, w.encode(RecordOf(w, store, directory, component, input)))
    requires forall n :: n in directory ==> Identified(w, later, directory[n].bytes)
    ensures var receipt := ReceiptOf(w, directory, component, input).value;
            && receipt.files.Keys + {RECEIPT} <= directory.Keys
            && Restore(w, later, Publish(w, store, directory, component, input).result.value, component, input) ==
               Ok(Part(directory, receipt.files.Keys + {RECEIPT}))
  {
    var receipt := PublishedReceipt(w, store, directory, component, input);
    PublishedFiles(w, store, directory, component, input, later);
    var d, record := Publish(w, store, directory, component, input).result.value, RecordOf(w, store, directory, component, input);
    var expected := Expected(w, directory, receipt);
    assert record.files.Keys == expected.Keys == receipt.files.Keys + {RECEIPT};
    CountFiles(receipt, record.files);
    forall n | n in record.files ensures n in directory {
      assert FileHeld(w, later, directory, expected, record.files, n);
    }
    InventoryAccepts(w, later, d, record, directory, expected);
    RestoreAccepts(w, later, d, record, directory, receipt);
  }
}
