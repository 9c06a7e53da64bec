/** A refresh that is cut off after some writes, followed by one that puts an older record back. */
module RoutingWitness {
  import opened Prelude
  import opened Routing
  import opened RoutingRenewal

  /** One relay, two clients that know it, and their files. */
  datatype Scene = Scene(p: Path, q: Path, original: Record)

  ghost predicate Apart(c: Scene) {
    c.p != c.q && c.p != ROOT && c.q != ROOT
  }

  function Files(c: Scene, root: ByteString, p: ByteString, q: ByteString): map<Path, ByteString> {
    map[ROOT := root, c.p := p, c.q := q]
  }

  function Fixture(c: Scene, files: map<Path, ByteString>): State {
    State([c.original], [], map[c.p := [c.original], c.q := [c.original]], [c.p, c.q], files)
  }

  lemma BundleOfOne(r: Record, original: Record)
    requires Identity(r) == Identity(original)
    ensures Find([r], Identity(original)) == Some(r) && Known([r], [original]) && Bundle([r], [original]) == [r]
  {
    assert [r][..0] == [];
  }

  lemma RenewsOne(verified: Record, fetched: Record, now: real)
    requires Identity(verified) == Identity(fetched) && Renews(verified, fetched, now)
    ensures RenewedRecords([verified], [fetched], now) == Ok([fetched]) && RenewedRecords([], [], now) == Ok([])
  {
    assert Identities([fetched]) == Identities([verified]);
  }

  ghost predicate Prints(s: State, f: Fetch, bundles: map<Path, ByteString>) {
    && ROOT !in s.clients && bundles.Keys == s.clients.Keys + {ROOT} && Print(f.operators) == Ok(bundles[ROOT])
    && forall p :: p in s.clients ==> Known(Fetched(f), s.clients[p]) && Print(Bundle(Fetched(f), s.clients[p])) == Ok(bundles[p])
  }

  lemma PrintedBundles(s: State, f: Fetch, bundles: map<Path, ByteString>)
    requires Prints(s, f, bundles)
    ensures (forall p :: p in s.clients ==> Known(f.operators + f.contributions, s.clients[p]))
    ensures Bundles(f.operators, f.contributions, s.clients) == map p | p in bundles :: Ok(bundles[p])
  {
    var printed := Bundles(f.operators, f.contributions, s.clients);
    forall p | p in printed ensures p in bundles && printed[p] == Ok(bundles[p]) {
    }
  }

  lemma Values(bundles: map<Path, ByteString>, printed: map<Path, Result<ByteString>>)
    requires printed == map p | p in bundles :: Ok(bundles[p])
    ensures !exists p :: p in printed && printed[p].Error?
    ensures (map p | p in printed :: printed[p].value) == bundles
  {
  }

  /** A fetch whose bundles all print is accepted. */
  lemma PreparedFrom(s: State, f: Fetch, bundles: map<Path, ByteString>)
    requires RenewedRecords(s.operator, f.operators, f.now).Ok? && RenewedRecords(s.contributed, f.contributions, f.now).Ok?
    requires forall p :: p in s.clients ==> Known(f.operators + f.contributions, s.clients[p])
    requires Bundles(f.operators, f.contributions, s.clients) == map p | p in bundles :: Ok(bundles[p])
    ensures Prepared(s, f) == Ok(bundles)
  {
    Values(bundles, Bundles(f.operators, f.contributions, s.clients));
  }

  /** A fetch of one record that renews the verified one is accepted and goes to every file. */
  lemma AcceptsOne(c: Scene, fetched: Record, x: ByteString, files: map<Path, ByteString>, now: real)
    requires Apart(c) && Identity(c.original) == Identity(fetched) && Renews(c.original, fetched, now) && Print([fetched]) == Ok(x)
    ensures Prepared(Fixture(c, files), Fetch([fetched], [], now)) == Ok(Files(c, x, x, x))
  {
    var s, f := Fixture(c, files), Fetch([fetched], [], now);
    RenewsOne(c.original, fetched, now);
    BundleOfOne(fetched, c.original);
    assert Fetched(f) == [fetched];
    PrintedBundles(s, f, Files(c, x, x, x));
    PreparedFrom(s, f, Files(c, x, x, x));
  }

  lemma FirstWrites(c: Scene, x: ByteString, y: ByteString)
    requires Apart(c)
    ensures Written(Files(c, x, x, x), Files(c, y, y, y), [ROOT, c.p]) == Files(c, y, y, x)
    ensures Written(Files(c, y, y, x), Files(c, x, x, x), [ROOT, c.p, c.q]) == Files(c, x, x, x)
  {
  }

  lemma NextCut(s: State, f: Fetch, k: nat, bundles: map<Path, ByteString>, files: map<Path, ByteString>)
    requires Prepared(s, f) == Ok(bundles) && k < |Targets(s)| && files == Written(s.files, bundles, Targets(s)[..k])
    ensures Next(s, Cut(f, k), s.(files := files))
  {
  }

  lemma NextCompleted(s: State, f: Fetch, bundles: map<Path, ByteString>, files: map<Path, ByteString>)
    requires Prepared(s, f) == Ok(bundles) && files == Written(s.files, bundles, Targets(s))
    ensures Next(s, Completed(f), State(f.operators, f.contributions, s.clients, s.order, files))
  {
  }

  lemma CutOff(c: Scene, b: Record, x: ByteString, y: ByteString, now: real)
    requires Apart(c) && Identity(c.original) == Identity(b) && Renews(c.original, b, now) && Print([b]) == Ok(y)
    ensures Next(Fixture(c, Files(c, x, x, x)), Cut(Fetch([b], [], now), 2), Fixture(c, Files(c, y, y, x)))
  {
    var s := Fixture(c, Files(c, x, x, x));
    FirstWrites(c, x, y);
    assert Targets(s)[..2] == [ROOT, c.p];
    AcceptsOne(c, b, y, s.files, now);
    NextCut(s, Fetch([b], [], now), 2, Files(c, y, y, y), Files(c, y, y, x));
  }

  lemma PutBack(c: Scene, x: ByteString, y: ByteString, now: real)
    requires Apart(c) && Renews(c.original, c.original, now) && Print([c.original]) == Ok(x)
    ensures Next(Fixture(c, Files(c, y, y, x)), Completed(Fetch([c.original], [], now)), Fixture(c, Files(c, x, x, x)))
  {
    var t := Fixture(c, Files(c, y, y, x));
    FirstWrites(c, x, y);
    assert Targets(t) == [ROOT, c.p, c.q];
    AcceptsOne(c, c.original, x, t.files, now);
    NextCompleted(t, Fetch([c.original], [], now), Files(c, x, x, x), Files(c, x, x, x));
  }

  lemma StartsFrom(c: Scene, x: ByteString)
    requires Apart(c) && Parse(x) == Ok([c.original])
    ensures Init(Fixture(c, Files(c, x, x, x)))
  {
  }

  lemma TwoAttempts(s: State, a: Attempt, t: State, b: Attempt, u: State)
    requires Init(s) && Next(s, a, t) && Next(t, b, u)
    ensures Run([s, t, u], [a, b])
  {
  }

  lemma Falls(states: seq<State>, path: Path, b: Record, a: Record)
    requires |states| == 3 && Held(states[1], path) == [b] && Held(states[2], path) == [a] && Expiry(a) < Expiry(b)
    ensures !NeverFalls(states, path)
  {
    assert !LaterRecord([b][0], [a][0]);
    assert !Later(Held(states[1], path), Held(states[2], path));
  }

  lemma Printed(r: Record) returns (x: ByteString)
    ensures Print([r]) == Ok(x) && Parse(x) == Ok([r])
  {
    PrintThenParse([r]);
    x := Print([r]).value;
  }

  /**
   For all two records of one relay that are both acceptable: the refresh that brings the later one is
   cut off after the first client's file, the next one completes with the earlier record, and the
   first client's expiry falls.
   */
  lemma RollsBack(c: Scene, b: Record, now: real) returns (states: seq<State>, attempts: seq<Attempt>)
    requires Apart(c) && Identity(c.original) == Identity(b) && Expiry(c.original) < Expiry(b)
    requires now < Expiry(c.original) as real && Expiry(b) as real <= now + LIFETIME as real
    ensures Run(states, attempts) && attempts == [Cut(Fetch([b], [], now), 2), Completed(Fetch([c.original], [], now))]
    ensures c.p in states[0].clients && Held(states[1], c.p) == [b] && Held(states[2], c.p) == [c.original]
    ensures !NeverFalls(states, c.p)
  {
    var x := Printed(c.original);
    var y := Printed(b);
    var s, t := Fixture(c, Files(c, x, x, x)), Fixture(c, Files(c, y, y, x));
    states, attempts := [s, t, s], [Cut(Fetch([b], [], now), 2), Completed(Fetch([c.original], [], now))];
    assert Held(t, c.p) == [b] && Held(s, c.p) == [c.original];
    Falls(states, c.p, b, c.original);
    StartsFrom(c, x);
    CutOff(c, b, x, y, now);
    PutBack(c, x, y, now);
    TwoAttempts(s, attempts[0], t, attempts[1], s);
  }

  // ---------- Such records exist ----------

  function Sample(expiry: nat): Record
    requires expiry < 256
  {
    seq(155, i => if i < 147 then 'a' else if i < 154 then '\0' else expiry as char)
  }

  lemma {:induction false} ZeroBytes(s: string)
    requires forall i :: 0 <= i < |s| ==> s[i] == '\0'
    ensures BigEndian(s) == 0
  {
    if s != "" {
      ZeroBytes(s[..|s| - 1]);
    }
  }

  lemma SampleExpiry(expiry: nat)
    requires expiry < 256
    ensures Expiry(Sample(expiry)) == expiry && Identity(Sample(expiry)) == Identity(Sample(0))
  {
    var end := Sample(expiry)[147..155];
    ZeroBytes(end[..7]);
    assert end[7] == expiry as char;
    assert Identity(Sample(expiry)) == Identity(Sample(0)) by {
      forall i | 0 <= i < 83 ensures Sample(expiry)[..83][i] == Sample(0)[..83][i] {
      }
    }
  }

  /** A run of the code in which a client's expiry falls from 20 to 10. */
  lemma InterruptedRefreshRollsBack() returns (states: seq<State>, attempts: seq<Attempt>)
    ensures Run(states, attempts) && |attempts| == 2 && attempts[0].Cut? && attempts[1].Completed?
    ensures "c0" in states[0].clients && |Held(states[1], "c0")| == |Held(states[2], "c0")| == 1
    ensures Expiry(Held(states[1], "c0")[0]) == 20 && Expiry(Held(states[2], "c0")[0]) == 10
    ensures !NeverFalls(states, "c0") && !ChecksFiles(states, attempts, "c0")
  {
    SampleExpiry(10);
    SampleExpiry(20);
    states, attempts := RollsBack(Scene("c0", "c1", Sample(10)), Sample(20), 5.0);
    RenewsExactly(states, attempts, "c0");
  }
}
