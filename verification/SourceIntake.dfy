/**
 Source intake: reading a newest-first activity feed page by page while it grows, and recording
 accepted pushes durably before the cursor moves over them.
 */
module SourceIntake {
  import opened Prelude

  const MAX_PAGES := 32
  const PAGE_SIZE := 100
  const PROMOTION := "refs/tags/android-release/"
  const AGENT := "refs/heads/agent/"

  // ---------- One activity row and the push it may record ----------

  datatype Content = Empty | Oversized | WithoutCommit | Push(commit: string)

  datatype Creation = Missing | WithoutZone | At(seconds: real, text: string)

  datatype Row = Row(id: int, repository: string, kind: string, ref: Option<string>, content: Content, created: Creation)

  datatype Event = Event(project: string, repository: string, ref: string, commit: string,
                         pushedAt: int, activity: int, created: string)

  predicate Hex(s: string, n: nat) {
    |s| == n && forall c :: c in s ==> '0' <= c <= '9' || 'a' <= c <= 'f'
  }

  predicate ReferenceText(s: string) {
    s != "" && forall c :: c in s ==>
      '0' <= c <= '9' || 'a' <= c <= 'z' || 'A' <= c <= 'Z' || c == '_' || c == '.' || c == '/' || c == '-'
  }

  /** The references whose pushes belong to a project. */
  predicate Watched(project: string, kind: string, ref: string) {
    && (if PROMOTION <= ref then project == "gcoms" && kind == "push_tag" && Hex(ref[|PROMOTION|..], 64)
        else kind == "commit_repo" && (ref == "refs/heads/main" || AGENT <= ref))
    && ReferenceText(ref)
  }

  /** The push recorded by a row, at the original server clock; None for rows that are no push. */
  function EventOf(row: Row, repository: string, project: string, now: real): Result<Option<Event>> {
    if row.repository != repository then Error("Forgejo activity belongs to a different repository")
    else if row.id <= 0 then Error("positive server activity ID required")
    else if row.ref.None? || !Watched(project, row.kind, row.ref.value) || row.content.Empty? then Ok(None)
    else if row.content.Oversized? then Error("Forgejo push content exceeds its bound")
    else if row.content.WithoutCommit? || !Hex(row.content.commit, 40) then Error("Forgejo push is missing its exact commit")
    else if !row.created.At? then Error("original Forgejo activity creation time required")
    else if row.created.seconds <= 0.0 || row.created.seconds > now then Error("invalid original Forgejo push time")
    else Ok(Some(Event(project, repository, row.ref.value, row.content.commit,
                       row.created.seconds.Floor, row.id, row.created.text)))
  }

  // ---------- Paging ----------

  type Seen = map<int, Row>

  /** One page: the rows above the cursor join `seen`; the flag tells whether an old row was met. */
  function Absorb(repository: string, after: int, rows: seq<Row>, seen: Seen): Result<(Seen, bool)> {
    if rows == [] then Ok((seen, false))
    else
      var row := rows[0];
      if row.id <= 0 then Error("invalid Forgejo activity identity")
      else if row.repository != repository then Error("activity page changed repository")
      else if row.id <= after then
        match Absorb(repository, after, rows[1..], seen)
        case Ok((m, _)) => Ok((m, true))
        case Error(e) => Error(e)
      else if row.id in seen && seen[row.id] != row then Error("immutable Forgejo activity changed between pages")
      else Absorb(repository, after, rows[1..], seen[row.id := row])
  }

  /** The pages from number `k` on, until one of them is complete. */
  function Collect(repository: string, after: int, pages: seq<seq<Row>>, k: nat, seen: Seen): Result<Seen>
    requires k <= |pages|
    decreases |pages| - k
  {
    if k == |pages| then Error("Forgejo activity backlog exceeds one bounded intake; cursor retained")
    else if |pages[k]| > PAGE_SIZE then Error("invalid Forgejo activity page")
    else
      match Absorb(repository, after, pages[k], seen)
      case Error(e) => Error(e)
      case Ok((m, older)) =>
        if older || |pages[k]| < PAGE_SIZE then Ok(m) else Collect(repository, after, pages, k + 1, m)
  }

  lemma Smaller(a: set<int>, b: set<int>)
    requires a < b
    ensures |a| < |b|
  {
    assert b == a + (b - a);
    assert |b - a| > 0;
  }

  predicate IsGreatest(s: set<int>, k: int) {
    k in s && forall j :: j in s ==> j <= k
  }

  lemma {:induction false} Greatest(s: set<int>)
    requires |s| > 0
    ensures exists k :: IsGreatest(s, k)
    decreases |s|
  {
    var x := Member(s);
    var rest := s - {x};
    if |rest| == 0 {
      assert s == {x};
      assert IsGreatest(s, x);
    } else {
      Greatest(rest);
      var k :| IsGreatest(rest, k);
      assert s == rest + {x};
      assert IsGreatest(s, if k < x then x else k);
    }
  }

  /** The rows of `seen` in increasing order of activity. */
  function Ordered(m: Seen): (rows: seq<Row>)
    decreases |m.Keys|
  {
    if |m.Keys| == 0 then []
    else
      Greatest(m.Keys);
      var k :| IsGreatest(m.Keys, k);
      Smaller((m - {k}).Keys, m.Keys);
      Ordered(m - {k}) + [m[k]]
  }

  /** Reads up to 32 pages; `pages[k]` is what the server answers to the read of page k + 1. */
  method Activities(repository: string, after: int, pages: seq<seq<Row>>) returns (r: Result<seq<Row>>)
    requires |pages| == MAX_PAGES
    ensures after < 0 ==> r.Error?
    ensures after >= 0 ==>
              match Collect(repository, after, pages, 0, map[])
              case Ok(m) => r == Ok(Ordered(m))
              case Error(e) => r == Error(e)
  {
    if after < 0 {
      return Error("nonnegative persisted activity cursor required");
    }
    var seen: Seen := map[];
    for page := 0 to MAX_PAGES
      invariant Collect(repository, after, pages, page, seen) == Collect(repository, after, pages, 0, map[])
    {
      var rows := pages[page];
      if |rows| > PAGE_SIZE {
        return Error("invalid Forgejo activity page");
      }
      var complete := |rows| < PAGE_SIZE;
      ghost var before, met := seen, false;
      for i := 0 to |rows|
        invariant Absorb(repository, after, rows, before) ==
                  match Absorb(repository, after, rows[i..], seen)
                  case Ok((m, older)) => Ok((m, older || met))
                  case Error(e) => Error(e)
        invariant complete <==> met || |rows| < PAGE_SIZE
      {
        var row := rows[i];
        assert rows[i..][0] == row && rows[i..][1..] == rows[i + 1..];
        if row.id <= 0 {
          return Error("invalid Forgejo activity identity");
        }
        if row.repository != repository {
          return Error("activity page changed repository");
        }
        if row.id <= after {
          complete := true;
          met := true;
        } else {
          if row.id in seen && seen[row.id] != row {
            return Error("immutable Forgejo activity changed between pages");
          }
          seen := seen[row.id := row];
        }
      }
      assert rows[|rows|..] == [];
      if complete {
        return Ok(Ordered(seen));
      }
    }
    return Error("Forgejo activity backlog exceeds one bounded intake; cursor retained");
  }

  // ---------- No gap ----------

  ghost predicate Keyed(m: Seen) {
    forall k :: k in m ==> m[k].id == k
  }

  /** Sorting loses and invents nothing. */
  lemma {:induction false} OrderedRows(m: Seen)
    requires Keyed(m)
    ensures forall row :: row in Ordered(m) <==> row.id in m && m[row.id] == row
    ensures forall i, j :: 0 <= i < j < |Ordered(m)| ==> Ordered(m)[i].id < Ordered(m)[j].id
    decreases |m.Keys|
  {
    if |m.Keys| > 0 {
      Greatest(m.Keys);
      var k :| IsGreatest(m.Keys, k);
      Smaller((m - {k}).Keys, m.Keys);
      OrderedRows(m - {k});
      AppendGreatest(m, k, Ordered(m - {k}));
      assert Ordered(m) == Ordered(m - {k}) + [m[k]];
    }
  }

  lemma AppendGreatest(m: Seen, k: int, rows: seq<Row>)
    requires Keyed(m) && k in m && forall j :: j in m ==> j <= k
    requires forall row :: row in rows <==> row.id in m - {k} && (m - {k})[row.id] == row
    requires forall i, j :: 0 <= i < j < |rows| ==> rows[i].id < rows[j].id
    ensures var all := rows + [m[k]];
            && (forall row :: row in all <==> row.id in m && m[row.id] == row)
            && forall i, j :: 0 <= i < j < |all| ==> all[i].id < all[j].id
  {
    forall i | 0 <= i < |rows| ensures rows[i].id < k {
      assert rows[i] in rows;
    }
  }

  /** A feed lists its activities newest first. */
  ghost predicate Feed(f: seq<Row>) {
    forall i, j :: 0 <= i < j < |f| ==> f[i].id > f[j].id
  }

  /** `g` is `f` after any number of appends at its newest end. */
  ghost predicate Grows(f: seq<Row>, g: seq<Row>) {
    |f| <= |g| && g[|g| - |f|..] == f
  }

  function Least(a: int, b: int): int {
    if a < b then a else b
  }

  function Page(f: seq<Row>, k: nat): seq<Row> {
    f[Least(k * PAGE_SIZE, |f|)..Least((k + 1) * PAGE_SIZE, |f|)]
  }

  /** Page k was read from `feeds[k]`; between two reads the feed may have grown. */
  ghost predicate Reads(feeds: seq<seq<Row>>, pages: seq<seq<Row>>) {
    && |feeds| == |pages|
    && (forall k :: 0 <= k < |feeds| ==> Feed(feeds[k]) && pages[k] == Page(feeds[k], k))
    && forall k :: 0 < k < |feeds| ==> Grows(feeds[k - 1], feeds[k])
  }

  /** Among the first `n` rows of `f`, none between the cursor and the newest row seen is missing. */
  ghost predicate Covers(f: seq<Row>, n: int, after: int, m: Seen) {
    && Keyed(m)
    && (forall k :: k in m ==> m[k] in f)
    && forall i, k :: 0 <= i < Least(n, |f|) && k in m && after < f[i].id <= k ==> f[i].id in m && m[f[i].id] == f[i]
  }

  /** What absorbing a page adds. */
  lemma {:induction false} AbsorbAdds(repository: string, after: int, rows: seq<Row>, seen: Seen)
    requires Keyed(seen) && Absorb(repository, after, rows, seen).Ok?
    ensures var (m, older) := Absorb(repository, after, rows, seen).value;
            && Keyed(m) && seen.Keys <= m.Keys && (forall k :: k in seen ==> m[k] == seen[k])
            && (forall i :: 0 <= i < |rows| && rows[i].id > after ==> rows[i].id in m && m[rows[i].id] == rows[i])
            && (forall k :: k in m && k !in seen ==> k > after && m[k] in rows)
            && (older <==> exists i :: 0 <= i < |rows| && rows[i].id <= after)
  {
    if rows != [] {
      var row := rows[0];
      if row.id <= after {
        AbsorbAdds(repository, after, rows[1..], seen);
      } else {
        AbsorbAdds(repository, after, rows[1..], seen[row.id := row]);
      }
      assert forall i :: 0 < i < |rows| ==> rows[i] == rows[1..][i - 1];
    }
  }

  /** Growth moves rows to later pages, and every added row is newer than all rows seen so far. */
  lemma CoversGrown(f: seq<Row>, g: seq<Row>, n: int, after: int, m: Seen)
    requires Feed(g) && Grows(f, g) && Covers(f, n, after, m)
    ensures Covers(g, n, after, m)
  {
    var d := |g| - |f|;
    assert forall i :: 0 <= i < |f| ==> g[i + d] == f[i];
    forall i, k | 0 <= i < Least(n, |g|) && k in m && after < g[i].id <= k
      ensures g[i].id in m && m[g[i].id] == g[i]
    {
      var x :| 0 <= x < |f| && f[x] == m[k];
      assert g[x + d].id == k;
      if i >= d {
        assert g[i] == f[i - d];
      }
    }
  }

  /** Reading the next page extends the covered part by one page. */
  lemma CoversPage(repository: string, after: int, f: seq<Row>, k: nat, seen: Seen)
    requires Feed(f) && Covers(f, k * PAGE_SIZE, after, seen)
    requires Absorb(repository, after, Page(f, k), seen).Ok?
    ensures Covers(f, (k + 1) * PAGE_SIZE, after, Absorb(repository, after, Page(f, k), seen).value.0)
  {
    var rows := Page(f, k);
    var low := Least(k * PAGE_SIZE, |f|);
    AbsorbAdds(repository, after, rows, seen);
    assert Covers(f, low, after, seen);
    PageRows(f, low, rows, seen, Absorb(repository, after, rows, seen).value.0, after);
  }

  lemma PageRows(f: seq<Row>, low: nat, rows: seq<Row>, seen: Seen, m: Seen, after: int)
    requires Feed(f) && Covers(f, low, after, seen) && low + |rows| <= |f| && rows == f[low..low + |rows|]
    requires Keyed(m) && seen.Keys <= m.Keys && forall k :: k in seen ==> m[k] == seen[k]
    requires forall i :: 0 <= i < |rows| && rows[i].id > after ==> rows[i].id in m && m[rows[i].id] == rows[i]
    requires forall k :: k in m && k !in seen ==> m[k] in rows
    ensures Covers(f, low + |rows|, after, m)
  {
    assert forall i :: 0 <= i < |rows| ==> rows[i] == f[low + i];
    forall i, key | 0 <= i < low + |rows| && key in m && after < f[i].id <= key
      ensures f[i].id in m && m[f[i].id] == f[i]
    {
      if key !in seen {
        var x :| 0 <= x < |rows| && rows[x] == m[key];
        assert f[low + x].id == key;
      }
      if i >= low {
        assert rows[i - low] == f[i];
      }
    }
  }

  /** A complete page ends the unread part above the cursor. */
  lemma CompletePage(repository: string, after: int, f: seq<Row>, k: nat, seen: Seen)
    requires Feed(f) && Covers(f, k * PAGE_SIZE, after, seen)
    requires Absorb(repository, after, Page(f, k), seen).Ok?
    requires |Page(f, k)| < PAGE_SIZE || Absorb(repository, after, Page(f, k), seen).value.1
    ensures Covers(f, |f|, after, Absorb(repository, after, Page(f, k), seen).value.0)
  {
    CoversPage(repository, after, f, k, seen);
    AbsorbAdds(repository, after, Page(f, k), seen);
    if |Page(f, k)| == PAGE_SIZE {
      OldRest(f, k, after);
    }
  }

  lemma OldRest(f: seq<Row>, k: nat, after: int)
    requires Feed(f) && exists x :: 0 <= x < |Page(f, k)| && Page(f, k)[x].id <= after
    ensures forall i :: Least((k + 1) * PAGE_SIZE, |f|) <= i < |f| ==> f[i].id <= after
  {
    var x :| 0 <= x < |Page(f, k)| && Page(f, k)[x].id <= after;
    assert f[Least(k * PAGE_SIZE, |f|) + x].id <= after;
  }

  lemma {:induction false} CollectCovers(repository: string, after: int, feeds: seq<seq<Row>>, pages: seq<seq<Row>>, history: seq<Row>, k: nat, seen: Seen)
    requires Reads(feeds, pages) && k <= |pages| && Feed(history)
    requires forall i :: 0 <= i < |feeds| ==> Grows(feeds[i], history)
    requires k < |pages| ==> Covers(feeds[k], k * PAGE_SIZE, after, seen)
    requires Collect(repository, after, pages, k, seen).Ok?
    ensures Covers(history, |history|, after, Collect(repository, after, pages, k, seen).value)
    decreases |pages| - k
  {
    var m, last := CollectStep(repository, after, pages, k, seen, feeds[k]);
    if last {
      CoversGrown(feeds[k], history, |history|, after, m);
    } else {
      if k + 1 < |pages| {
        CoversGrown(feeds[k], feeds[k + 1], (k + 1) * PAGE_SIZE, after, m);
      }
      CollectCovers(repository, after, feeds, pages, history, k + 1, m);
    }
  }

  /** One page of the collection: it is the last, or collection goes on with more rows covered. */
  lemma CollectStep(repository: string, after: int, pages: seq<seq<Row>>, k: nat, seen: Seen, f: seq<Row>) returns (m: Seen, last: bool)
    requires k < |pages| && Feed(f) && pages[k] == Page(f, k) && Covers(f, k * PAGE_SIZE, after, seen)
    requires Collect(repository, after, pages, k, seen).Ok?
    ensures Collect(repository, after, pages, k, seen) == if last then Ok(m) else Collect(repository, after, pages, k + 1, m)
    ensures if last then Covers(f, |f|, after, m) else Covers(f, (k + 1) * PAGE_SIZE, after, m)
  {
    var absorbed := Absorb(repository, after, pages[k], seen).value;
    m, last := absorbed.0, absorbed.1 || |pages[k]| < PAGE_SIZE;
    if last {
      CompletePage(repository, after, f, k, seen);
    } else {
      CoversPage(repository, after, f, k, seen);
    }
  }

  ghost predicate Above(m: Seen, after: int) {
    Keyed(m) && forall k :: k in m ==> k > after
  }

  /** Collection keeps what was seen, takes every new row of the page, and nothing at or below the cursor. */
  lemma {:induction false} CollectAbove(repository: string, after: int, pages: seq<seq<Row>>, k: nat, seen: Seen)
    requires k < |pages| && Above(seen, after) && Collect(repository, after, pages, k, seen).Ok?
    ensures var m := Collect(repository, after, pages, k, seen).value;
            && Above(m, after) && seen.Keys <= m.Keys
            && forall i :: 0 <= i < |pages[k]| && pages[k][i].id > after ==> pages[k][i].id in m
    decreases |pages| - k
  {
    AbsorbAdds(repository, after, pages[k], seen);
    var (m, older) := Absorb(repository, after, pages[k], seen).value;
    if !older && |pages[k]| >= PAGE_SIZE {
      CollectAbove(repository, after, pages, k + 1, m);
    }
  }

  /**
   Gap-free paging.  However much the feed grew between the reads, `activities` returns exactly the
   server's activities in (after, newest returned], and the newest returned is no older than the
   newest there was when reading began.
   */
  lemma GapFree(repository: string, after: int, feeds: seq<seq<Row>>, pages: seq<seq<Row>>, history: seq<Row>)
    requires Reads(feeds, pages) && Feed(history) && |pages| > 0
    requires forall i :: 0 <= i < |feeds| ==> Grows(feeds[i], history)
    requires Collect(repository, after, pages, 0, map[]).Ok?
    ensures var rows := Ordered(Collect(repository, after, pages, 0, map[]).value);
            && (forall row :: row in rows <==>
                  rows != [] && row in history && after < row.id <= rows[|rows| - 1].id)
            && forall row :: row in feeds[0] && row.id > after ==> row in rows
  {
    var m := Collect(repository, after, pages, 0, map[]).value;
    CollectCovers(repository, after, feeds, pages, history, 0, map[]);
    CollectAbove(repository, after, pages, 0, map[]);
    OrderedRows(m);
    var rows := Ordered(m);
    forall row | row in rows ensures row in history && after < row.id <= rows[|rows| - 1].id {
      LastIsNewest(rows, row);
    }
    forall row | rows != [] && row in history && after < row.id <= rows[|rows| - 1].id ensures row in rows {
      InCovered(history, after, m, row, rows[|rows| - 1].id);
    }
    forall row | row in feeds[0] && row.id > after ensures row in rows {
      NewestFirst(feeds[0], after, m, row);
      InCovered(history, after, m, row, feeds[0][0].id);
    }
  }

  lemma LastIsNewest(rows: seq<Row>, row: Row)
    requires row in rows && forall i, j :: 0 <= i < j < |rows| ==> rows[i].id < rows[j].id
    ensures row.id <= rows[|rows| - 1].id
  {
  }

  lemma InCovered(history: seq<Row>, after: int, m: Seen, row: Row, top: int)
    requires Covers(history, |history|, after, m) && row in history && top in m && after < row.id <= top
    ensures row.id in m && m[row.id] == row
  {
    var i :| 0 <= i < |history| && history[i] == row;
  }

  lemma NewestFirst(f: seq<Row>, after: int, m: Seen, row: Row)
    requires Feed(f) && row in f && row.id > after
    requires forall i :: 0 <= i < |Page(f, 0)| && Page(f, 0)[i].id > after ==> Page(f, 0)[i].id in m
    ensures f[0].id in m && row.id <= f[0].id
  {
    assert Page(f, 0)[0] == f[0];
  }
}
