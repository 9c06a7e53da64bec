/** Renewal of routing bundles: what every refresh keeps, over whole runs. */
module RoutingRenewal {
  import opened Prelude
  import opened Routing

  type Path = string

  const LIFETIME := 3600
  const ROOT := "bootstrap"

  /**
   The fixture's verified records, the clients' original bundles, the order in which the clients'
   files are written, and every bundle file.
   */
  datatype State = State(operator: seq<Record>, contributed: seq<Record>, clients: map<Path, seq<Record>>, order: seq<Path>,
                         files: map<Path, ByteString>)

  /** The records fetched for one refresh, and its clock. */
  datatype Fetch = Fetch(operators: seq<Record>, contributions: seq<Record>, now: real)

  function Identities(records: seq<Record>): seq<string> {
    seq(|records|, i requires 0 <= i < |records| => Identity(records[i]))
  }

  /** One record may replace another: unexpired, within the lifetime, no rollback, no change within an epoch. */
  predicate Renews(before: Record, after: Record, now: real) {
    && now < Expiry(after) as real <= now + LIFETIME as real
    && Expiry(before) <= Expiry(after)
    && (Expiry(before) == Expiry(after) ==> before == after)
  }

  function RenewedRecords(previous: seq<Record>, incoming: seq<Record>, now: real): Result<seq<Record>> {
    if Identities(incoming) != Identities(previous) then Error("fixture introduction changed its verified relay identity")
    else if |incoming| == |previous| && forall i :: 0 <= i < |incoming| ==> Renews(previous[i], incoming[i], now) then Ok(incoming)
    else Error("fixture routing introduction lifetime or rollback")
  }

  /** The record a dictionary by identity holds: the last one listed. */
  function Find(records: seq<Record>, id: string): Option<Record> {
    if records == [] then None
    else if Identity(records[|records| - 1]) == id then Some(records[|records| - 1])
    else Find(records[..|records| - 1], id)
  }

  predicate Known(records: seq<Record>, bundle: seq<Record>) {
    forall i :: 0 <= i < |bundle| ==> Find(records, Identity(bundle[i])).Some?
  }

  /** A client's bundle with the current record of each of its identities. */
  function Bundle(records: seq<Record>, original: seq<Record>): seq<Record>
    requires Known(records, original)
  {
    seq(|original|, i requires 0 <= i < |original| => Find(records, Identity(original[i])).value)
  }

  /** The bytes written to each bundle file. */
  function Bundles(operator: seq<Record>, contributed: seq<Record>, clients: map<Path, seq<Record>>): map<Path, Result<ByteString>>
    requires forall p :: p in clients ==> Known(operator + contributed, clients[p])
  {
    (map p | p in clients :: Print(Bundle(operator + contributed, clients[p])))[ROOT := Print(operator)]
  }

  /** The files in the order in which a refresh writes them. */
  function Targets(s: State): seq<Path> {
    [ROOT] + s.order
  }

  /** The bytes of every bundle, if the fetched records renew the verified ones. */
  function Prepared(s: State, f: Fetch): Result<map<Path, ByteString>> {
    if RenewedRecords(s.operator, f.operators, f.now).Error? || RenewedRecords(s.contributed, f.contributions, f.now).Error?
    then Error("fixture routing introduction changed, expired or rolled back")
    else if exists p :: p in s.clients && !Known(f.operators + f.contributions, s.clients[p])
    then Error("fixture client references an unverified relay identity")
    else
      var bundles := Bundles(f.operators, f.contributions, s.clients);
      if exists p :: p in bundles && bundles[p].Error? then Error("invalid bounded fixture routing bundle")
      else Ok(map p | p in bundles :: bundles[p].value)
  }

  /** The files after the first targets were replaced. */
  function Written(files: map<Path, ByteString>, bundles: map<Path, ByteString>, targets: seq<Path>): map<Path, ByteString> {
    files + map p | p in targets && p in bundles :: bundles[p]
  }

  /** A refresh that went through, or one that failed after some of its writes. */
  datatype Attempt = Completed(fetch: Fetch) | Cut(fetch: Fetch, writes: nat)

  function WritesOf(s: State, a: Attempt): seq<Path> {
    match a
    case Completed(_) => Targets(s)
    case Cut(_, writes) => if writes < |Targets(s)| then Targets(s)[..writes] else Targets(s)
  }

  /** The verified records change only when every file was written. */
  ghost predicate Next(s: State, a: Attempt, t: State) {
    && Prepared(s, a.fetch).Ok?
    && var files := Written(s.files, Prepared(s, a.fetch).value, WritesOf(s, a));
       match a
       case Completed(f) => t == State(f.operators, f.contributions, s.clients, s.order, files)
       case Cut(_, writes) => writes < |Targets(s)| && t == s.(files := files)
  }

  /** The renewal object. */
  class Renewal {
    var operator: seq<Record>
    var contributed: seq<Record>
    var clients: map<Path, seq<Record>>
    var order: seq<Path>
    var files: map<Path, ByteString>

    function Value(): State
      reads this
    {
      State(operator, contributed, clients, order, files)
    }

    constructor (s: State)
      ensures Value() == s
    {
      operator, contributed, clients, order, files := s.operator, s.contributed, s.clients, s.order, s.files;
    }

    /**
     Files are replaced one at a time, in order, and writing may fail after any number of them.  A
     refused refresh changes nothing; a failing one is cut off after exactly the writes it made.
     */
    method Refresh(f: Fetch, writes: nat) returns (ok: bool)
      modifies this
      ensures ok <==> Prepared(old(Value()), f).Ok? && writes >= |Targets(old(Value()))|
      ensures ok ==> Next(old(Value()), Completed(f), Value())
      ensures !ok && Prepared(old(Value()), f).Error? ==> Value() == old(Value())
      ensures !ok && Prepared(old(Value()), f).Ok? ==> Next(old(Value()), Cut(f, writes), Value())
    {
      var prepared := Prepared(Value(), f);
      if prepared.Error? {
        return false;
      }
      var targets := Targets(Value());
      NothingWritten(files, prepared.value, targets);
      for i := 0 to |targets|
        invariant operator == old(operator) && contributed == old(contributed) && clients == old(clients) && order == old(order)
        invariant files == Written(old(files), prepared.value, targets[..i]) && i <= writes
      {
        if i == writes {
          return false;
        }
        OneMore(old(files), prepared.value, targets, i);
        if targets[i] in prepared.value {
          files := files[targets[i] := prepared.value[targets[i]]];
        }
      }
      assert targets[..|targets|] == targets;
      operator, contributed := f.operators, f.contributions;
      return true;
    }
  }

  lemma NothingWritten(files: map<Path, ByteString>, bundles: map<Path, ByteString>, targets: seq<Path>)
    ensures Written(files, bundles, targets[..0]) == files
  {
  }

  lemma OneMore(files: map<Path, ByteString>, bundles: map<Path, ByteString>, targets: seq<Path>, i: nat)
    requires i < |targets|
    ensures var before := Written(files, bundles, targets[..i]);
            Written(files, bundles, targets[..i + 1]) ==
            if targets[i] in bundles then before[targets[i] := bundles[targets[i]]] else before
  {
    assert targets[..i + 1] == targets[..i] + [targets[i]];
  }

  // ---------- Runs ----------

  function Current(s: State): seq<Record> {
    s.operator + s.contributed
  }

  function Fetched(f: Fetch): seq<Record> {
    f.operators + f.contributions
  }

  /** Position by position: the same identity, no earlier expiry, and the same record if the expiry is the same. */
  ghost predicate Later(a: seq<Record>, b: seq<Record>) {
    && |a| == |b|
    && forall i :: 0 <= i < |a| ==> LaterRecord(a[i], b[i])
  }

  predicate LaterRecord(a: Record, b: Record) {
    && Identity(a) == Identity(b) && Expiry(a) <= Expiry(b) && (Expiry(a) == Expiry(b) ==> a == b)
  }

  lemma RenewedLater(previous: seq<Record>, incoming: seq<Record>, now: real)
    requires RenewedRecords(previous, incoming, now).Ok?
    ensures Later(previous, incoming) && RenewedRecords(previous, incoming, now).value == incoming
    ensures forall i :: 0 <= i < |incoming| ==> Fresh(incoming[i], now)
  {
    forall i | 0 <= i < |previous| ensures LaterRecord(previous[i], incoming[i]) {
      assert Identities(previous)[i] == Identities(incoming)[i];
    }
  }

  lemma LaterTransitive(a: seq<Record>, b: seq<Record>, c: seq<Record>)
    requires Later(a, b) && Later(b, c)
    ensures Later(a, c)
  {
    forall i | 0 <= i < |a| ensures LaterRecord(a[i], c[i]) {
      assert LaterRecord(a[i], b[i]) && LaterRecord(b[i], c[i]);
    }
  }

  predicate Fresh(r: Record, now: real) {
    now < Expiry(r) as real <= now + LIFETIME as real
  }

  ghost predicate AllFresh(records: seq<Record>, now: real) {
    forall i :: 0 <= i < |records| ==> Fresh(records[i], now)
  }

  lemma LaterAppend(a: seq<Record>, b: seq<Record>, c: seq<Record>, d: seq<Record>)
    requires Later(a, b) && Later(c, d)
    ensures Later(a + c, b + d)
  {
    forall i | 0 <= i < |a + c| ensures LaterRecord((a + c)[i], (b + d)[i]) {
      assert i < |a| ==> LaterRecord(a[i], b[i]);
      assert i >= |a| ==> LaterRecord(c[i - |a|], d[i - |a|]);
    }
  }

  lemma LaterSelf(a: seq<Record>)
    ensures Later(a, a)
  {
  }

  /** Looking an identity up in two position-wise related lists finds related records. */
  lemma {:induction false} FindLater(a: seq<Record>, b: seq<Record>, id: string)
    requires Later(a, b)
    ensures Find(a, id).Some? == Find(b, id).Some?
    ensures Find(a, id).Some? ==> LaterRecord(Find(a, id).value, Find(b, id).value) && Identity(Find(a, id).value) == id
    ensures Find(b, id).Some? ==> Find(b, id).value in b
  {
    if a != [] {
      var k := |a| - 1;
      assert LaterRecord(a[k], b[k]);
      if Identity(a[k]) != id {
        FindLater(a[..k], b[..k], id);
      }
    }
  }

  lemma BundleFresh(records: seq<Record>, original: seq<Record>, now: real)
    requires Known(records, original) && forall k :: 0 <= k < |records| ==> Fresh(records[k], now)
    ensures forall k :: 0 <= k < |original| ==> Fresh(Bundle(records, original)[k], now)
  {
    LaterSelf(records);
    forall k | 0 <= k < |original| ensures Fresh(Bundle(records, original)[k], now) {
      FindLater(records, records, Identity(original[k]));
    }
  }

  lemma BundleLater(a: seq<Record>, b: seq<Record>, original: seq<Record>)
    requires Later(a, b) && Known(a, original) && Known(b, original)
    ensures Later(Bundle(a, original), Bundle(b, original)) && Identities(Bundle(b, original)) == Identities(original)
  {
    forall k | 0 <= k < |original|
      ensures LaterRecord(Bundle(a, original)[k], Bundle(b, original)[k]) && Identity(Bundle(b, original)[k]) == Identity(original[k])
    {
      FindLater(a, b, Identity(original[k]));
    }
  }

  /** A file that holds a bundle with the identities of the client's original one. */
  ghost predicate InFile(s: State, path: Path) {
    path in s.clients && path in s.files && Parse(s.files[path]).Ok? && Identities(Parse(s.files[path]).value) == Identities(s.clients[path])
  }

  function Held(s: State, path: Path): seq<Record> {
    if path in s.files && Parse(s.files[path]).Ok? then Parse(s.files[path]).value else []
  }

  /** The renewal starts from files that hold the clients' bundles. */
  ghost predicate Init(s: State) {
    && ROOT !in s.clients && (forall p :: p in s.order <==> p in s.clients)
    && forall p :: p in s.clients ==> InFile(s, p) && Held(s, p) == s.clients[p]
  }

  /** The verified records know every identity in a client's file, and none of its records is newer. */
  ghost predicate Covered(s: State, path: Path) {
    path in s.clients && Known(Current(s), s.clients[path]) && Later(Held(s, path), Bundle(Current(s), s.clients[path]))
  }

  ghost predicate Run(states: seq<State>, attempts: seq<Attempt>) {
    && |states| == |attempts| + 1 && Init(states[0])
    && forall i :: 0 <= i < |attempts| ==> Next(states[i], attempts[i], states[i + 1])
  }

  /** What an accepted fetch is to the verified records and to the clients. */
  lemma AcceptedFetch(s: State, f: Fetch, path: Path)
    requires Prepared(s, f).Ok? && path in s.clients && path != ROOT
    ensures Later(Current(s), Fetched(f)) && Known(Fetched(f), s.clients[path])
    ensures forall k :: 0 <= k < |s.clients[path]| ==> Fresh(Bundle(Fetched(f), s.clients[path])[k], f.now)
    ensures path in Prepared(s, f).value && Parse(Prepared(s, f).value[path]) == Ok(Bundle(Fetched(f), s.clients[path]))
  {
    RenewedLater(s.operator, f.operators, f.now);
    RenewedLater(s.contributed, f.contributions, f.now);
    LaterAppend(s.operator, f.operators, s.contributed, f.contributions);
    BundleFresh(Fetched(f), s.clients[path], f.now);
    var bundles := Bundles(f.operators, f.contributions, s.clients);
    assert path in bundles && bundles[path] == Print(Bundle(Fetched(f), s.clients[path]));
    PrintThenParse(Bundle(Fetched(f), s.clients[path]));
  }

  ghost predicate Writes(s: State, a: Attempt, path: Path) {
    path in WritesOf(s, a)
  }

  /** A client's file after an attempt: the fetched records of its identities, or what it held. */
  lemma FileAfter(s: State, a: Attempt, t: State, path: Path)
    requires Next(s, a, t) && path in s.clients && path != ROOT && InFile(s, path)
    ensures t.clients == s.clients && t.order == s.order && InFile(t, path) && Known(Fetched(a.fetch), s.clients[path])
    ensures Held(t, path) == if Writes(s, a, path) then Bundle(Fetched(a.fetch), s.clients[path]) else Held(s, path)
  {
    AcceptedFetch(s, a.fetch, path);
    LaterSelf(Fetched(a.fetch));
    BundleLater(Fetched(a.fetch), Fetched(a.fetch), s.clients[path]);
  }

  lemma {:induction false} RunKeeps(states: seq<State>, attempts: seq<Attempt>, i: nat, path: Path)
    requires Run(states, attempts) && i < |states| && path in states[0].clients
    ensures states[i].clients == states[0].clients && states[i].order == states[0].order && path != ROOT && InFile(states[i], path)
  {
    if i > 0 {
      RunKeeps(states, attempts, i - 1, path);
      FileAfter(states[i - 1], attempts[i - 1], states[i], path);
    }
  }

  /** A client's file was last written by a refresh that was cut off, or by none and not covered at the start. */
  ghost predicate Dirty(states: seq<State>, attempts: seq<Attempt>, k: nat, path: Path)
    requires |states| == |attempts| + 1 && k < |states|
    decreases k
  {
    if k == 0 then !Covered(states[0], path)
    else attempts[k - 1].Cut? && (Writes(states[k - 1], attempts[k - 1], path) || Dirty(states, attempts, k - 1, path))
  }

  /** Completed refreshes cover what they write, and those cut off before the file leave it covered. */
  lemma CoveredStep(s: State, a: Attempt, t: State, path: Path)
    requires Next(s, a, t) && path in s.clients && path != ROOT && InFile(s, path) && path in s.order
    requires a.Cut? ==> !Writes(s, a, path) && Covered(s, path)
    ensures Covered(t, path)
  {
    FileAfter(s, a, t, path);
    if a.Completed? {
      LaterSelf(Held(t, path));
    }
  }

  /** A file that is not dirty is covered. */
  lemma {:induction false} CleanFile(states: seq<State>, attempts: seq<Attempt>, k: nat, path: Path)
    requires Run(states, attempts) && k < |states| && path in states[0].clients && !Dirty(states, attempts, k, path)
    ensures Covered(states[k], path)
  {
    if k > 0 {
      if attempts[k - 1].Cut? {
        CleanFile(states, attempts, k - 1, path);
      }
      RunKeeps(states, attempts, k - 1, path);
      CoveredStep(states[k - 1], attempts[k - 1], states[k], path);
    }
  }

  /** No expiry in the client's file ever falls, and a record is constant while its expiry is. */
  ghost predicate NeverFalls(states: seq<State>, path: Path) {
    forall i, j :: 0 <= i <= j < |states| ==> Later(Held(states[i], path), Held(states[j], path))
  }

  /** What an attempt writes to the client's file is no older than what the file holds. */
  ghost predicate NoOlder(s: State, a: Attempt, path: Path) {
    path in s.clients && Known(Fetched(a.fetch), s.clients[path]) && Later(Held(s, path), Bundle(Fetched(a.fetch), s.clients[path]))
  }

  /** The missing check: what is written to a file that may not be covered is no older than what it holds. */
  ghost predicate ChecksFiles(states: seq<State>, attempts: seq<Attempt>, path: Path)
    requires |states| == |attempts| + 1
  {
    forall k :: 0 <= k < |attempts| ==> Checks(states, attempts, k, path)
  }

  ghost predicate Checks(states: seq<State>, attempts: seq<Attempt>, k: nat, path: Path)
    requires |states| == |attempts| + 1 && k < |attempts|
  {
    Dirty(states, attempts, k, path) && Writes(states[k], attempts[k], path) ==> NoOlder(states[k], attempts[k], path)
  }

  lemma AttemptRenews(states: seq<State>, attempts: seq<Attempt>, k: nat, path: Path)
    requires Run(states, attempts) && k < |attempts| && path in states[0].clients && Checks(states, attempts, k, path)
    ensures Later(Held(states[k], path), Held(states[k + 1], path))
  {
    RunKeeps(states, attempts, k, path);
    var s, a, t := states[k], attempts[k], states[k + 1];
    FileAfter(s, a, t, path);
    if !Writes(s, a, path) {
      LaterSelf(Held(s, path));
    } else if !Dirty(states, attempts, k, path) {
      CleanFile(states, attempts, k, path);
      AcceptedFetch(s, a.fetch, path);
      BundleLater(Current(s), Fetched(a.fetch), s.clients[path]);
      LaterTransitive(Held(s, path), Bundle(Current(s), s.clients[path]), Held(t, path));
    }
  }

  ghost predicate Renewed(states: seq<State>, path: Path, k: nat)
    requires k + 1 < |states|
  {
    Later(Held(states[k], path), Held(states[k + 1], path))
  }

  lemma {:induction false} ChainLater(states: seq<State>, path: Path, i: nat, j: nat)
    requires i <= j < |states| && forall k :: i <= k < |states| - 1 ==> Renewed(states, path, k)
    ensures Later(Held(states[i], path), Held(states[j], path))
    decreases j
  {
    if i == j {
      LaterSelf(Held(states[i], path));
    } else {
      ChainLater(states, path, i, j - 1);
      assert Renewed(states, path, j - 1);
      LaterTransitive(Held(states[i], path), Held(states[j - 1], path), Held(states[j], path));
    }
  }

  lemma LaterOn(states: seq<State>, attempts: seq<Attempt>, path: Path, i: nat, j: nat)
    requires Run(states, attempts) && path in states[0].clients && i <= j < |states|
    requires forall k :: i <= k < |attempts| ==> Checks(states, attempts, k, path)
    ensures Later(Held(states[i], path), Held(states[j], path))
  {
    forall k | i <= k < |states| - 1 ensures Renewed(states, path, k) {
      AttemptRenews(states, attempts, k, path);
    }
    ChainLater(states, path, i, j);
  }

  /**
   Over every run, with refreshes cut off anywhere, a client's records only renew if and only if whoever
   writes a file that a cut-off refresh wrote, or that was not covered at the start, fetches records no older
   than those already there.  The source compares with the last completed refresh instead.
   */
  lemma RenewsExactly(states: seq<State>, attempts: seq<Attempt>, path: Path)
    requires Run(states, attempts) && path in states[0].clients
    ensures NeverFalls(states, path) <==> ChecksFiles(states, attempts, path)
  {
    if ChecksFiles(states, attempts, path) {
      forall i, j | 0 <= i <= j < |states| ensures Later(Held(states[i], path), Held(states[j], path)) {
        LaterOn(states, attempts, path, i, j);
      }
    } else {
      var k :| 0 <= k < |attempts| && !Checks(states, attempts, k, path);
      RunKeeps(states, attempts, k, path);
      FileAfter(states[k], attempts[k], states[k + 1], path);
      assert !Later(Held(states[k], path), Held(states[k + 1], path));
    }
  }

  ghost predicate AllCompleted(attempts: seq<Attempt>) {
    forall k :: 0 <= k < |attempts| ==> attempts[k].Completed?
  }

  /** A file that the verified records do not cover at the start is not set back by the first attempt. */
  ghost predicate FirstSpares(states: seq<State>, attempts: seq<Attempt>, path: Path) {
    states != [] && attempts != [] && !Covered(states[0], path) ==> NoOlder(states[0], attempts[0], path)
  }

  /** Completed refreshes leave nothing unchecked but the files as they were at the start. */
  lemma CompletedChecks(states: seq<State>, attempts: seq<Attempt>, path: Path)
    requires Run(states, attempts) && path in states[0].clients
    requires AllCompleted(attempts)
    ensures forall k :: 1 <= k < |attempts| ==> Checks(states, attempts, k, path)
    ensures ChecksFiles(states, attempts, path) <==>
            FirstSpares(states, attempts, path)
  {
    if attempts != [] {
      assert Writes(states[0], attempts[0], path);
      assert Checks(states, attempts, 0, path) <==> (!Covered(states[0], path) ==> NoOlder(states[0], attempts[0], path));
    }
  }

  lemma FallsAtMostOnce(states: seq<State>, attempts: seq<Attempt>, path: Path)
    requires Run(states, attempts) && path in states[0].clients
    requires AllCompleted(attempts)
    ensures NeverFalls(states, path) <==> FirstSpares(states, attempts, path)
  {
    RenewsExactly(states, attempts, path);
    CompletedChecks(states, attempts, path);
  }

  lemma LaterAfterFirst(states: seq<State>, attempts: seq<Attempt>, path: Path, i: nat, j: nat)
    requires Run(states, attempts) && path in states[0].clients && 0 < i <= j < |states|
    requires AllCompleted(attempts)
    ensures Later(Held(states[i], path), Held(states[j], path))
  {
    CompletedChecks(states, attempts, path);
    LaterOn(states, attempts, path, i, j);
  }

  lemma SameIdentities(states: seq<State>, attempts: seq<Attempt>, j: nat, path: Path)
    requires Run(states, attempts) && path in states[0].clients && j < |states|
    ensures Identities(Held(states[j], path)) == Identities(states[0].clients[path])
  {
    RunKeeps(states, attempts, j, path);
  }

  /**
   Over every run of completed refreshes, each client's file keeps the identities of its original
   bundle in order.  After a refresh no expiry exceeds an hour from it, and from the first refresh on no
   expiry falls and a record is constant while its expiry is; from the very start so exactly when a file
   that the verified records did not cover is not set back by the first one.
   */
  lemma BundlesOnlyRenew(states: seq<State>, attempts: seq<Attempt>, path: Path, i: nat, j: nat)
    requires Run(states, attempts) && path in states[0].clients && i <= j < |states|
    requires AllCompleted(attempts)
    ensures Identities(Held(states[j], path)) == Identities(states[0].clients[path])
    ensures i > 0 ==> Later(Held(states[i], path), Held(states[j], path))
    ensures j > 0 ==> AllFresh(Held(states[j], path), attempts[j - 1].fetch.now)
    ensures NeverFalls(states, path) <==> FirstSpares(states, attempts, path)
  {
    FallsAtMostOnce(states, attempts, path);
    SameIdentities(states, attempts, j, path);
    if i > 0 {
      LaterAfterFirst(states, attempts, path, i, j);
    }
    if j > 0 {
      HeldFresh(states, attempts, path, j);
    }
  }

  lemma HeldFresh(states: seq<State>, attempts: seq<Attempt>, path: Path, j: nat)
    requires Run(states, attempts) && path in states[0].clients && 0 < j < |states| && attempts[j - 1].Completed?
    ensures AllFresh(Held(states[j], path), attempts[j - 1].fetch.now)
  {
    RunKeeps(states, attempts, j - 1, path);
    FileAfter(states[j - 1], attempts[j - 1], states[j], path);
    AcceptedFetch(states[j - 1], attempts[j - 1].fetch, path);
  }
}
