/**
 The condition under which intake is durable is exact: as soon as two projects read the same
 repository, the first one moves the common cursor over pushes the second never records.
 */
module IngestSharing {
  import opened Prelude
  import opened SourceIntake
  import opened Ingest

  function Commit(): string {
    seq(40, _ => 'a')
  }

  function BoundaryRow(repository: string): Row {
    Row(1, repository, "create_repo", None, Empty, Missing)
  }

  function PushRow(repository: string): Row {
    Row(2, repository, "commit_repo", Some("refs/heads/main"), Push(Commit()), At(1.0, "t"))
  }

  /** Every repository has its boundary row; the shared one also has one accepted push. */
  function FeedOf(shared: string, repository: string): seq<Row> {
    if repository == shared then [PushRow(repository), BoundaryRow(repository)] else [BoundaryRow(repository)]
  }

  function PagesOf(f: seq<Row>): seq<seq<Row>> {
    seq(MAX_PAGES, k requires 0 <= k => Page(f, k))
  }

  function AnswersOf(shared: string, projects: seq<Project>): seq<seq<seq<Row>>> {
    seq(|projects|, k requires 0 <= k < |projects| => PagesOf(FeedOf(shared, projects[k].1)))
  }

  function FeedsOf(shared: string, projects: seq<Project>): seq<seq<seq<Row>>> {
    seq(|projects|, k requires 0 <= k < |projects| => seq(MAX_PAGES, _ => FeedOf(shared, projects[k].1)))
  }

  function Repositories(projects: seq<Project>): set<string> {
    set i | 0 <= i < |projects| :: projects[i].1
  }

  function HistoryOf(shared: string, projects: seq<Project>): History {
    map r | r in Repositories(projects) :: FeedOf(shared, r)
  }

  function BoundaryDisk(projects: seq<Project>): Disk {
    Disk(map r | r in Repositories(projects) :: 1, map[])
  }

  lemma PagesAreRead(f: seq<Row>)
    requires Feed(f)
    ensures Reads(seq(MAX_PAGES, _ => f), PagesOf(f))
  {
  }

  lemma FeedIsServed(shared: string, projects: seq<Project>)
    ensures Served(projects, HistoryOf(shared, projects), FeedsOf(shared, projects), AnswersOf(shared, projects))
    ensures Known(projects, HistoryOf(shared, projects), BoundaryDisk(projects))
    ensures HistoryGrows(projects, HistoryOf(shared, projects), HistoryOf(shared, projects))
  {
    var history := HistoryOf(shared, projects);
    forall i | 0 <= i < |projects|
      ensures ServedAt(projects[i].1, history, FeedsOf(shared, projects)[i], AnswersOf(shared, projects)[i])
      ensures KnownAt(projects[i].1, history, BoundaryDisk(projects)) && GrowsAt(projects[i].1, history, history)
    {
      var f := FeedOf(shared, projects[i].1);
      assert projects[i].1 in Repositories(projects);
      assert history[projects[i].1] == f && Grows(f, f);
      assert BoundaryRow(projects[i].1) in f;
      PagesAreRead(f);
    }
  }

  lemma {:induction false} AbsorbOld(repository: string, after: int, rows: seq<Row>, seen: Seen)
    requires rows != [] && forall i :: 0 <= i < |rows| ==> rows[i].repository == repository && 0 < rows[i].id <= after
    ensures Absorb(repository, after, rows, seen) == Ok((seen, true))
  {
    if |rows| == 1 {
      assert rows[1..] == [];
    } else {
      AbsorbOld(repository, after, rows[1..], seen);
    }
  }

  lemma FirstPage(f: seq<Row>)
    requires |f| <= 2
    ensures PagesOf(f)[0] == f
  {
  }

  /** A project at a cursor covering its whole feed, or without the push, changes nothing. */
  lemma NothingNew(shared: string, project: Project, p: Progress)
    requires p.running && project.1 in p.disk.cursors && p.disk.cursors[project.1] >= 1
    requires project.1 == shared ==> p.disk.cursors[shared] >= 2
    ensures IngestProject(project, 1.0, PagesOf(FeedOf(shared, project.1)), p) == p
  {
    var f := FeedOf(shared, project.1);
    FirstPage(f);
    AbsorbOld(project.1, p.disk.cursors[project.1], f, map[]);
    assert Collect(project.1, p.disk.cursors[project.1], PagesOf(f), 0, map[]) == Ok(map[]);
    assert Ordered(map[]) == [];
  }

  /** The first project of the shared repository takes the push and moves the common cursor. */
  lemma FirstTakesPush(shared: string, name: string, p: Progress)
    requires p.running && p.writes == 2 && shared in p.disk.cursors && p.disk.cursors[shared] == 1 && p.disk.events == map[]
    ensures var q := IngestProject((name, shared), 1.0, PagesOf(FeedOf(shared, shared)), p);
            q.running && q.disk.cursors == p.disk.cursors[shared := 2] && q.disk.events.Keys == {(name, 2)}
  {
    var f, push := FeedOf(shared, shared), PushRow(shared);
    var m: Seen := map[][2 := push];
    FirstPage(f);
    AbsorbOld(shared, 1, f[1..], m);
    assert Absorb(shared, 1, f, map[]) == Ok((m, true));
    assert Collect(shared, 1, PagesOf(f), 0, map[]) == Ok(m);
    OnlyPush(m, push);
    PushIsAccepted(shared, name, 1.0);
    var e := EventOf(push, shared, name, 1.0).value.value;
    var after := Progress(p.disk.(events := p.disk.events[(name, 2) := e]), 1, true);
    assert [push][1..] == [];
    assert RecordRows(name, shared, 1.0, [push], p) == RecordRows(name, shared, 1.0, [], after) == after;
  }

  lemma OnlyPush(m: Seen, push: Row)
    requires m == map[2 := push]
    ensures Ordered(m) == [push]
  {
    assert m.Keys == {2} && (m - {2}).Keys == {};
    assert Ordered(m - {2}) == [];
  }

  lemma PushIsAccepted(repository: string, name: string, now: real)
    requires now >= 1.0
    ensures EventOf(PushRow(repository), repository, name, now) ==
            Ok(Some(Event(name, repository, "refs/heads/main", Commit(), 1, 2, "t")))
  {
    assert "refs/heads/main"[5] == 'h' && PROMOTION[5] == 't';
  }

  lemma {:induction false} SkipToFirst(shared: string, projects: seq<Project>, first: nat, k: nat, p: Progress)
    requires k <= first < |projects| && p.running && p.disk == BoundaryDisk(projects)
    requires forall i :: k <= i < first ==> projects[i].1 != shared
    ensures var answers := AnswersOf(shared, projects);
            IngestFrom(projects, 1.0, answers, k, p) == IngestFrom(projects, 1.0, answers, first, p)
    decreases first - k
  {
    if k < first {
      assert projects[k].1 in Repositories(projects);
      NothingNew(shared, projects[k], p);
      SkipToFirst(shared, projects, first, k + 1, p);
    }
  }

  lemma {:induction false} SkipRest(shared: string, projects: seq<Project>, k: nat, p: Progress)
    requires k <= |projects| && p.running && p.disk.cursors == BoundaryDisk(projects).cursors[shared := 2]
    ensures IngestFrom(projects, 1.0, AnswersOf(shared, projects), k, p) == p
    decreases |projects| - k
  {
    if k < |projects| {
      assert projects[k].1 in Repositories(projects);
      NothingNew(shared, projects[k], p);
      SkipRest(shared, projects, k + 1, p);
    }
  }

  lemma FirstOf(projects: seq<Project>, shared: string, j: nat) returns (first: nat)
    requires j < |projects| && projects[j].1 == shared
    ensures first <= j && projects[first].1 == shared && forall i :: 0 <= i < first ==> projects[i].1 != shared
  {
    first := 0;
    while projects[first].1 != shared
      invariant first <= j && forall i :: 0 <= i < first ==> projects[i].1 != shared
      decreases j - first
    {
      first := first + 1;
    }
  }

  function RoundOf(shared: string, projects: seq<Project>): Round {
    Round(HistoryOf(shared, projects), FeedsOf(shared, projects), AnswersOf(shared, projects), 1.0, 2)
  }

  function AfterRound(shared: string, projects: seq<Project>): Disk {
    IngestFrom(projects, 1.0, AnswersOf(shared, projects), 0, Progress(BoundaryDisk(projects), 2, true)).disk
  }

  lemma OnlyFirstRecords(projects: seq<Project>, shared: string, first: nat)
    requires first < |projects| && projects[first].1 == shared && forall i :: 0 <= i < first ==> projects[i].1 != shared
    ensures AfterRound(shared, projects).cursors == BoundaryDisk(projects).cursors[shared := 2]
    ensures AfterRound(shared, projects).events.Keys == {(projects[first].0, 2)}
  {
    var p := Progress(BoundaryDisk(projects), 2, true);
    assert shared in Repositories(projects);
    SkipToFirst(shared, projects, first, 0, p);
    FirstTakesPush(shared, projects[first].0, p);
    var q := IngestProject(projects[first], 1.0, AnswersOf(shared, projects)[first], p);
    SkipRest(shared, projects, first + 1, q);
  }

  lemma LostPush(projects: seq<Project>, shared: string, loser: nat, disk: Disk)
    requires loser < |projects| && projects[loser].1 == shared
    requires disk.cursors == BoundaryDisk(projects).cursors[shared := 2] && (projects[loser].0, 2) !in disk.events
    ensures !Durable(projects[loser], HistoryOf(shared, projects), BoundaryDisk(projects).cursors, disk)
  {
    assert shared in Repositories(projects);
    PushIsAccepted(shared, projects[loser].0, 1.0);
    assert PushRow(shared) in HistoryOf(shared, projects)[shared];
    assert !Holds(disk, shared, projects[loser].0, PushRow(shared));
  }

  /** One complete run over one accepted push leaves a sharing project without its event file. */
  lemma SharingLosesPush(projects: seq<Project>, i: nat, j: nat)
    requires i < j < |projects| && projects[i].1 == projects[j].1 && projects[i].0 != projects[j].0
    ensures !AllDurable(projects, HistoryOf(projects[i].1, projects), BoundaryDisk(projects).cursors, AfterRound(projects[i].1, projects))
  {
    var shared := projects[i].1;
    var first := FirstOf(projects, shared, i);
    OnlyFirstRecords(projects, shared, first);
    LostPush(projects, shared, if projects[first].0 == projects[i].0 then j else i, AfterRound(shared, projects));
  }

  /** The initial disk, the run and its outcome form a legitimate sequence of rounds. */
  lemma SharingRound(projects: seq<Project>, shared: string)
    ensures Known(projects, HistoryOf(shared, projects), BoundaryDisk(projects))
    ensures Rounds(projects, HistoryOf(shared, projects), [RoundOf(shared, projects)],
                   [BoundaryDisk(projects), AfterRound(shared, projects)])
  {
    FeedIsServed(shared, projects);
  }

  /** On every sequence of runs from an audited boundary, every project stays durable. */
  ghost predicate AlwaysDurable(projects: seq<Project>) {
    forall origin: History, rounds: seq<Round>, disks: seq<Disk>, n: nat |
      Rounds(projects, origin, rounds, disks) && n <= |rounds| && Known(projects, origin, disks[0]) ::
      AllDurable(projects, HistoryAt(origin, rounds, n), disks[0].cursors, disks[n])
  }

  /** Intake is durable on every sequence of runs exactly when no two projects share a repository. */
  lemma DurableIffOwnRepositories(projects: seq<Project>)
    requires forall i, j :: 0 <= i < j < |projects| ==> projects[i].0 != projects[j].0
    ensures OwnRepositories(projects) <==> AlwaysDurable(projects)
  {
    if OwnRepositories(projects) {
      forall origin: History, rounds: seq<Round>, disks: seq<Disk>, n: nat |
        Rounds(projects, origin, rounds, disks) && n <= |rounds| && Known(projects, origin, disks[0])
        ensures AllDurable(projects, HistoryAt(origin, rounds, n), disks[0].cursors, disks[n])
      {
        DurableAtEveryCrashPoint(projects, origin, rounds, disks, n);
      }
    } else {
      var i, j :| 0 <= i < j < |projects| && projects[i].1 == projects[j].1;
      NotAlways(projects, i, j);
    }
  }

  lemma Instance(projects: seq<Project>, origin: History, rounds: seq<Round>, disks: seq<Disk>, n: nat)
    requires AlwaysDurable(projects) && Rounds(projects, origin, rounds, disks) && n <= |rounds|
    requires Known(projects, origin, disks[0])
    ensures AllDurable(projects, HistoryAt(origin, rounds, n), disks[0].cursors, disks[n])
  {
  }

  lemma NotAlways(projects: seq<Project>, i: nat, j: nat)
    requires i < j < |projects| && projects[i].1 == projects[j].1 && projects[i].0 != projects[j].0
    ensures !AlwaysDurable(projects)
  {
    if AlwaysDurable(projects) {
      var shared := projects[i].1;
      SharingRound(projects, shared);
      Instance(projects, HistoryOf(shared, projects), [RoundOf(shared, projects)],
               [BoundaryDisk(projects), AfterRound(shared, projects)], 1);
      SharingLosesPush(projects, i, j);
    }
  }
}
