/**
 The durable cursor protocol of source intake.

 The disk holds the stored cursors and the event files, keyed by project and activity number.  A
 run of ingest may stop at any durable write: `writes` is the number of writes it completes before
 the process dies.  An exception stops it as well.
 */
module Ingest {
  import opened Prelude
  import opened SourceIntake

  type Name = (string, int)
  type Project = (string, string)

  datatype Disk = Disk(cursors: map<string, int>, events: map<Name, Event>)

  datatype Progress = Progress(disk: Disk, writes: nat, running: bool)

  /** The event files of the rows of one project, oldest first. */
  function RecordRows(project: string, repository: string, now: real, rows: seq<Row>, p: Progress): Progress
    decreases |rows|
  {
    if rows == [] || !p.running then p
    else
      match EventOf(rows[0], repository, project, now)
      case Error(_) => p.(running := false)
      case Ok(None) => RecordRows(project, repository, now, rows[1..], p)
      case Ok(Some(e)) =>
        var name := (project, e.activity);
        if name in p.disk.events then
          if p.disk.events[name] != e then p.(running := false)
          else RecordRows(project, repository, now, rows[1..], p)
        else if p.writes == 0 then p.(running := false)
        else
          RecordRows(project, repository, now, rows[1..],
                     Progress(p.disk.(events := p.disk.events[name := e]), p.writes - 1, true))
  }

  /** The cursor is written after all event files of the observed rows. */
  function MoveCursor(repository: string, rows: seq<Row>, p: Progress): Progress {
    if !p.running || rows == [] then p
    else if p.writes == 0 then p.(running := false)
    else Progress(p.disk.(cursors := p.disk.cursors[repository := rows[|rows| - 1].id]), p.writes - 1, true)
  }

  function IngestProject(project: Project, now: real, pages: seq<seq<Row>>, p: Progress): Progress
  {
    var (name, repository) := project;
    if !p.running then p
    else if repository !in p.disk.cursors || p.disk.cursors[repository] < 0 then p.(running := false)
    else
      match Collect(repository, p.disk.cursors[repository], pages, 0, map[])
      case Error(_) => p.(running := false)
      case Ok(m) => MoveCursor(repository, Ordered(m), RecordRows(name, repository, now, Ordered(m), p))
  }

  /** The projects from number `k` on; `answers[k]` holds the pages the server answers for project k. */
  function IngestFrom(projects: seq<Project>, now: real, answers: seq<seq<seq<Row>>>, k: nat, p: Progress): Progress
    requires |answers| == |projects| && k <= |projects|
    decreases |projects| - k
  {
    if k == |projects| then p
    else IngestFrom(projects, now, answers, k + 1, IngestProject(projects[k], now, answers[k], p))
  }

  class Intake {
    var cursors: map<string, int>
    var events: map<Name, Event>

    function Stored(): Disk
      reads this
    {
      Disk(cursors, events)
    }

    constructor (cursors: map<string, int>, events: map<Name, Event>)
      ensures Stored() == Disk(cursors, events)
    {
      this.cursors, this.events := cursors, events;
    }

    /** The event files of the observed rows, cut off after `writes` durable writes. */
    method RecordAll(project: string, repository: string, now: real, rows: seq<Row>, writes: nat) returns (left: nat, recorded: bool)
      modifies this`events
      ensures Progress(Stored(), left, recorded) == RecordRows(project, repository, now, rows, Progress(old(Stored()), writes, true))
    {
      left := writes;
      for i := 0 to |rows|
        invariant RecordRows(project, repository, now, rows[i..], Progress(Stored(), left, true))
               == RecordRows(project, repository, now, rows, Progress(old(Stored()), writes, true))
      {
        assert rows[i..][0] == rows[i] && rows[i..][1..] == rows[i + 1..];
        var value := EventOf(rows[i], repository, project, now);
        if value.Error? {
          return left, false;
        }
        if value.value.Some? {
          var e := value.value.value;
          if (project, e.activity) in events {
            if events[(project, e.activity)] != e {
              return left, false;
            }
          } else {
            if left == 0 {
              return left, false;
            }
            events := events[(project, e.activity) := e];
            left := left - 1;
          }
        }
      }
      assert rows[|rows|..] == [];
      return left, true;
    }

    /** One run of ingest, cut off after `writes` durable writes. */
    method Ingest(projects: seq<Project>, now: real, answers: seq<seq<seq<Row>>>, writes: nat) returns (finished: bool)
      requires |answers| == |projects| && forall k :: 0 <= k < |answers| ==> |answers[k]| == MAX_PAGES
      modifies this
      ensures Stored() == IngestFrom(projects, now, answers, 0, Progress(old(Stored()), writes, true)).disk
      ensures finished <==> IngestFrom(projects, now, answers, 0, Progress(old(Stored()), writes, true)).running
    {
      var left := writes;
      ghost var start := Progress(Stored(), writes, true);
      for k := 0 to |projects|
        invariant IngestFrom(projects, now, answers, k, Progress(Stored(), left, true)) == IngestFrom(projects, now, answers, 0, start)
      {
        var (project, repository) := projects[k];
        StoppedStays(projects, now, answers, k + 1, IngestProject(projects[k], now, answers[k], Progress(Stored(), left, true)));
        if repository !in cursors {
          return false;
        }
        var r := Activities(repository, cursors[repository], answers[k]);
        if r.Error? {
          return false;
        }
        var rows := r.value;
        var recorded;
        left, recorded := RecordAll(project, repository, now, rows, left);
        if !recorded {
          return false;
        }
        if rows != [] {
          if left == 0 {
            return false;
          }
          cursors := cursors[repository := rows[|rows| - 1].id];
          left := left - 1;
        }
      }
      return true;
    }
  }

  lemma {:induction false} StoppedStays(projects: seq<Project>, now: real, answers: seq<seq<seq<Row>>>, k: nat, p: Progress)
    requires |answers| == |projects| && k <= |projects|
    ensures !p.running ==> IngestFrom(projects, now, answers, k, p) == p
    decreases |projects| - k
  {
    if k < |projects| {
      StoppedStays(projects, now, answers, k + 1, p);
    }
  }

  // ---------- Durability ----------

  /** The push a row records once its clock is not in the future. */
  function Record(row: Row, repository: string, project: string): Option<Event> {
    if !row.created.At? then None
    else match EventOf(row, repository, project, row.created.seconds)
         case Ok(v) => v
         case Error(_) => None
  }

  lemma RecordedClock(row: Row, repository: string, project: string, now: real)
    requires EventOf(row, repository, project, now).Ok?
    ensures EventOf(row, repository, project, now).value == Record(row, repository, project)
  {
  }

  type History = map<string, seq<Row>>

  ghost predicate Holds(disk: Disk, repository: string, project: string, row: Row) {
    var e := Record(row, repository, project);
    e.Some? ==> (project, row.id) in disk.events && disk.events[(project, row.id)] == e.value
  }

  /** Every accepted push above the migration boundary and at or below the cursor has its event file. */
  ghost predicate Durable(project: Project, history: History, boundary: map<string, int>, disk: Disk) {
    var (name, repository) := project;
    && repository in disk.cursors && repository in history && repository in boundary
    && forall row :: row in history[repository] && boundary[repository] < row.id <= disk.cursors[repository] ==>
                       Holds(disk, repository, name, row)
  }

  ghost predicate AllDurable(projects: seq<Project>, history: History, boundary: map<string, int>, disk: Disk) {
    forall i :: 0 <= i < |projects| ==> Durable(projects[i], history, boundary, disk)
  }

  /** The server's history of every repository is a feed, and each cursor names one of its rows. */
  ghost predicate Known(projects: seq<Project>, history: History, disk: Disk) {
    forall i :: 0 <= i < |projects| ==> KnownAt(projects[i].1, history, disk)
  }

  ghost predicate KnownAt(r: string, history: History, disk: Disk) {
    && r in history && Feed(history[r]) && r in disk.cursors
    && exists row :: row in history[r] && row.id == disk.cursors[r]
  }

  /** `feeds[k][n]` is the feed of project k when its page n + 1 is read; all precede `history`. */
  ghost predicate Served(projects: seq<Project>, history: History, feeds: seq<seq<seq<Row>>>, answers: seq<seq<seq<Row>>>) {
    && |feeds| == |answers| == |projects|
    && forall k :: 0 <= k < |projects| ==> ServedAt(projects[k].1, history, feeds[k], answers[k])
  }

  ghost predicate ServedAt(r: string, history: History, feeds: seq<seq<Row>>, pages: seq<seq<Row>>) {
    && r in history && |pages| == MAX_PAGES && Reads(feeds, pages)
    && forall n :: 0 <= n < |feeds| ==> Grows(feeds[n], history[r])
  }

  ghost predicate OwnRepositories(projects: seq<Project>) {
    forall i, j :: 0 <= i < j < |projects| ==> projects[i].1 != projects[j].1
  }

  ghost predicate Extends(a: Disk, b: Disk) {
    forall n :: n in a.events ==> n in b.events && b.events[n] == a.events[n]
  }

  lemma {:induction false} RecordRowsKeeps(project: string, repository: string, now: real, rows: seq<Row>, p: Progress)
    ensures var q := RecordRows(project, repository, now, rows, p);
            && q.disk.cursors == p.disk.cursors && Extends(p.disk, q.disk)
            && (q.running ==> p.running && forall row :: row in rows ==> Holds(q.disk, repository, project, row))
    decreases |rows|
  {
    if rows != [] && p.running && EventOf(rows[0], repository, project, now).Ok? {
      RecordedClock(rows[0], repository, project, now);
      var v := EventOf(rows[0], repository, project, now).value;
      var next := if v.None? || (project, v.value.activity) in p.disk.events || p.writes == 0 then p
                  else Progress(p.disk.(events := p.disk.events[(project, v.value.activity) := v.value]), p.writes - 1, true);
      RecordRowsKeeps(project, repository, now, rows[1..], next);
      assert forall row :: row in rows <==> row == rows[0] || row in rows[1..];
    }
  }

  /** One project: its own repository stays durable with the cursor moved. */
  lemma ProjectKeepsOwn(project: Project, history: History, boundary: map<string, int>, feeds: seq<seq<Row>>, now: real, pages: seq<seq<Row>>, p: Progress)
    requires Durable(project, history, boundary, p.disk)
    requires |pages| == MAX_PAGES && Reads(feeds, pages) && Feed(history[project.1])
    requires forall n :: 0 <= n < |feeds| ==> Grows(feeds[n], history[project.1])
    ensures Durable(project, history, boundary, IngestProject(project, now, pages, p).disk)
  {
    var (name, repository) := project;
    var cursor := p.disk.cursors[repository];
    if p.running && cursor >= 0 && Collect(repository, cursor, pages, 0, map[]).Ok? {
      var rows := Ordered(Collect(repository, cursor, pages, 0, map[]).value);
      GapFree(repository, cursor, feeds, pages, history[repository]);
      CursorKeepsOwn(project, history, boundary, now, rows, p);
    }
  }

  /** Rows without a gap above the cursor are recorded before the cursor moves to the last of them. */
  lemma CursorKeepsOwn(project: Project, history: History, boundary: map<string, int>, now: real, rows: seq<Row>, p: Progress)
    requires Durable(project, history, boundary, p.disk)
    requires forall row, top :: row in history[project.1] && top in rows && p.disk.cursors[project.1] < row.id <= top.id ==> row in rows
    ensures Durable(project, history, boundary, MoveCursor(project.1, rows, RecordRows(project.0, project.1, now, rows, p)).disk)
  {
    var (name, repository) := project;
    RecordRowsKeeps(name, repository, now, rows, p);
    var q := RecordRows(name, repository, now, rows, p);
    forall row | row in history[repository] && boundary[repository] < row.id <= p.disk.cursors[repository]
      ensures Holds(q.disk, repository, name, row)
    {
      assert Holds(p.disk, repository, name, row);
    }
    if q.running && rows != [] {
      assert rows[|rows| - 1] in rows;
    }
  }

  /** A project leaves every project of another repository as it was. */
  lemma ProjectKeepsOthers(project: Project, other: Project, history: History, boundary: map<string, int>, now: real, pages: seq<seq<Row>>, p: Progress)
    requires Durable(other, history, boundary, p.disk) && other.1 != project.1
    ensures Durable(other, history, boundary, IngestProject(project, now, pages, p).disk)
  {
    var (name, repository) := project;
    if p.running && repository in p.disk.cursors && p.disk.cursors[repository] >= 0 {
      var m := Collect(repository, p.disk.cursors[repository], pages, 0, map[]);
      if m.Ok? {
        RecordRowsKeeps(name, repository, now, Ordered(m.value), p);
        var q := RecordRows(name, repository, now, Ordered(m.value), p);
        assert forall row :: Holds(p.disk, other.1, other.0, row) ==> Holds(q.disk, other.1, other.0, row);
      }
    }
  }

  /** Cursors only move to rows of the history. */
  lemma ProjectKeepsKnown(projects: seq<Project>, k: nat, history: History, feeds: seq<seq<Row>>, now: real, pages: seq<seq<Row>>, p: Progress)
    requires k < |projects| && Known(projects, history, p.disk)
    requires |pages| == MAX_PAGES && Reads(feeds, pages)
    requires forall n :: 0 <= n < |feeds| ==> Grows(feeds[n], history[projects[k].1])
    ensures Known(projects, history, IngestProject(projects[k], now, pages, p).disk)
  {
    var (name, repository) := projects[k];
    var cursor := p.disk.cursors[repository];
    if p.running && cursor >= 0 && Collect(repository, cursor, pages, 0, map[]).Ok? {
      var rows := Ordered(Collect(repository, cursor, pages, 0, map[]).value);
      GapFree(repository, cursor, feeds, pages, history[repository]);
      RecordRowsKeeps(name, repository, now, rows, p);
      if rows != [] {
        assert rows[|rows| - 1] in rows;
      }
    }
  }

  lemma {:induction false} IngestKeeps(projects: seq<Project>, history: History, boundary: map<string, int>, feeds: seq<seq<seq<Row>>>, now: real, answers: seq<seq<seq<Row>>>, k: nat, p: Progress)
    requires OwnRepositories(projects) && Served(projects, history, feeds, answers) && k <= |projects|
    requires Known(projects, history, p.disk) && AllDurable(projects, history, boundary, p.disk)
    ensures var q := IngestFrom(projects, now, answers, k, p);
            Known(projects, history, q.disk) && AllDurable(projects, history, boundary, q.disk)
    decreases |projects| - k
  {
    if k < |projects| {
      var q := IngestProject(projects[k], now, answers[k], p);
      forall i | 0 <= i < |projects| ensures Durable(projects[i], history, boundary, q.disk) {
        if i == k {
          ProjectKeepsOwn(projects[k], history, boundary, feeds[k], now, answers[k], p);
        } else {
          ProjectKeepsOthers(projects[k], projects[i], history, boundary, now, answers[k], p);
        }
      }
      ProjectKeepsKnown(projects, k, history, feeds[k], now, answers[k], p);
      IngestKeeps(projects, history, boundary, feeds, now, answers, k + 1, q);
    }
  }

  ghost predicate HistoryGrows(projects: seq<Project>, a: History, b: History) {
    forall i :: 0 <= i < |projects| ==> GrowsAt(projects[i].1, a, b)
  }

  ghost predicate GrowsAt(r: string, a: History, b: History) {
    r in a && r in b && Feed(b[r]) && Grows(a[r], b[r])
  }

  /** New activities are above every cursor, so growth of the history endangers nothing. */
  lemma GrowthKeeps(projects: seq<Project>, a: History, b: History, boundary: map<string, int>, disk: Disk)
    requires HistoryGrows(projects, a, b) && Known(projects, a, disk) && AllDurable(projects, a, boundary, disk)
    ensures Known(projects, b, disk) && AllDurable(projects, b, boundary, disk)
  {
    forall i | 0 <= i < |projects|
      ensures Durable(projects[i], b, boundary, disk) && KnownAt(projects[i].1, b, disk)
    {
      assert GrowsAt(projects[i].1, a, b) && KnownAt(projects[i].1, a, disk) && Durable(projects[i], a, boundary, disk);
      var c :| c in a[projects[i].1] && c.id == disk.cursors[projects[i].1];
      OldRows(a[projects[i].1], b[projects[i].1], c);
    }
  }

  lemma OldRows(f: seq<Row>, g: seq<Row>, c: Row)
    requires Feed(g) && Grows(f, g) && c in f
    ensures c in g && forall row :: row in g && row.id <= c.id ==> row in f
  {
    var d := |g| - |f|;
    var x :| 0 <= x < |f| && f[x] == c;
    assert g[x + d] == g[d..][x] == c;
    forall row | row in g && row.id <= c.id ensures row in f {
      var y :| 0 <= y < |g| && g[y] == row;
      assert y >= d;
      assert g[y] == g[d..][y - d];
    }
  }

  /** One run of ingest: the history at its end, what was read when, its clock and its crash point. */
  datatype Round = Round(history: History, feeds: seq<seq<seq<Row>>>, answers: seq<seq<seq<Row>>>, now: real, writes: nat)

  /** The server's history when round `n` starts. */
  function HistoryAt(origin: History, rounds: seq<Round>, n: nat): History
    requires n <= |rounds|
  {
    if n == 0 then origin else rounds[n - 1].history
  }

  ghost predicate Rounds(projects: seq<Project>, origin: History, rounds: seq<Round>, disks: seq<Disk>) {
    && |disks| == |rounds| + 1
    && forall i :: 0 <= i < |rounds| ==>
                     && Served(projects, rounds[i].history, rounds[i].feeds, rounds[i].answers)
                     && HistoryGrows(projects, HistoryAt(origin, rounds, i), rounds[i].history)
                     && disks[i + 1] == IngestFrom(projects, rounds[i].now, rounds[i].answers, 0,
                                                   Progress(disks[i], rounds[i].writes, true)).disk
  }

  /**
   From the audited migration boundary on, after any number of interrupted or complete runs over a
   growing history, every accepted push at or below a stored cursor has its identical event file.
   */
  lemma {:induction false} DurableAtEveryCrashPoint(projects: seq<Project>, origin: History, rounds: seq<Round>, disks: seq<Disk>, n: nat)
    requires OwnRepositories(projects) && Rounds(projects, origin, rounds, disks) && n <= |rounds|
    requires Known(projects, origin, disks[0])
    ensures var history := HistoryAt(origin, rounds, n);
            Known(projects, history, disks[n]) && AllDurable(projects, history, disks[0].cursors, disks[n])
    decreases n
  {
    if n > 0 {
      var round := rounds[n - 1];
      DurableAtEveryCrashPoint(projects, origin, rounds, disks, n - 1);
      GrowthKeeps(projects, HistoryAt(origin, rounds, n - 1), round.history, disks[0].cursors, disks[n - 1]);
      IngestKeeps(projects, round.history, disks[0].cursors, round.feeds, round.now, round.answers, 0,
                  Progress(disks[n - 1], round.writes, true));
    }
  }
}
