/** The scheduler's index of jobs beside the cron library's set of live entries.  Whether an
    expression parses is the library's business, and so a parameter. */
module Scheduler {
  import opened Values
  import opened Schema
  import opened Database

  type Parser = string -> bool

  /** A live cron entry: when it fires, it runs job `job`. */
  datatype Entry = Entry(expr: string, job: int)

  datatype Index = Index(entries: map<int, nat>, live: map<nat, Entry>, nextId: nat)

  const FRESH: Index := Index(map[], map[], 0)

  // ---------------------------------------------------------------- operations

  function Schedule(s: Index, parses: Parser, id: int, expr: string): Index {
    if !parses(expr) then s
    else
      var n := s.nextId + 1;
      Index(s.entries[id := n], s.live[n := Entry(expr, id)], n)
  }

  function Remove(s: Index, id: int): Index {
    if id in s.entries then s.(entries := s.entries - {id}, live := s.live - {s.entries[id]}) else s
  }

  predicate Active(config: Config) {
    config.enabled && config.scheduleCron != ""
  }

  function ScheduleActive(s: Index, parses: Parser, id: int, config: Config): Index {
    if Active(config) then Schedule(s, parses, id, config.scheduleCron) else s
  }

  function Sync(s: Index, parses: Parser, id: int, config: Config): Index {
    ScheduleActive(Remove(s, id), parses, id, config)
  }

  /** `Start` over the rows of the jobs table. */
  function StartOn(s: Index, parses: Parser, rows: seq<Listed>): Index {
    if rows == [] then s
    else
      var last := rows[|rows| - 1];
      ScheduleActive(StartOn(s, parses, rows[..|rows| - 1]), parses, last.id, last.row.config)
  }

  // ---------------------------------------------------------------- what the index promises

  /** Each entry is live and fires the job it is keyed by, and nothing else is live. */
  ghost predicate Consistent(s: Index) {
    && (forall id :: id in s.entries ==> s.entries[id] in s.live && s.live[s.entries[id]].job == id)
    && (forall n :: n in s.live ==> n <= s.nextId && s.live[n].job in s.entries && s.entries[s.live[n].job] == n)
  }

  /** The expression the job is scheduled under. */
  function ScheduledAt(s: Index, id: int): Option<string> {
    if id in s.entries && s.entries[id] in s.live then Some(s.live[s.entries[id]].expr) else None
  }

  /** The expression the configuration asks for: enabled, not empty, and it parses. */
  function Wanted(parses: Parser, config: Config): Option<string> {
    if config.enabled && config.scheduleCron != "" && parses(config.scheduleCron)
    then Some(config.scheduleCron) else None
  }

  function WantedAt(parses: Parser, jobs: map<int, JobRow>, id: int): Option<string> {
    if id in jobs then Wanted(parses, jobs[id].config) else None
  }

  /** The scheduled jobs and their expressions are exactly what the table asks for. */
  ghost predicate Agrees(s: Index, parses: Parser, jobs: map<int, JobRow>) {
    forall id :: ScheduledAt(s, id) == WantedAt(parses, jobs, id)
  }

  function Scheduled(s: Index): map<int, string> {
    map id | id in s.entries && s.entries[id] in s.live :: s.live[s.entries[id]].expr
  }

  /** A consistent index is injective and its values are exactly the live entries. */
  lemma ConsistentMeans(s: Index)
    requires Consistent(s)
    ensures forall i, j :: i in s.entries && j in s.entries && s.entries[i] == s.entries[j] ==> i == j
    ensures s.entries.Values == s.live.Keys
    ensures s.entries.Keys == Scheduled(s).Keys
  {
    forall n ensures n in s.entries.Values <==> n in s.live.Keys {
      if n in s.live { assert s.entries[s.live[n].job] == n; }
    }
  }

  /** Scheduling a job that is already indexed leaks its old entry; that is the only way to
      lose consistency. */
  lemma ScheduleConsistentIff(s: Index, parses: Parser, id: int, expr: string)
    requires Consistent(s)
    ensures Consistent(Schedule(s, parses, id, expr)) <==> id !in s.entries || !parses(expr)
  {
    var t := Schedule(s, parses, id, expr);
    if id in s.entries && parses(expr) {
      assert s.entries[id] in t.live && t.entries[id] != s.entries[id];
    }
  }

  lemma RemoveKeepsConsistent(s: Index, id: int)
    requires Consistent(s)
    ensures Consistent(Remove(s, id)) && id !in Remove(s, id).entries && Remove(s, id).nextId == s.nextId
    ensures ScheduledAt(Remove(s, id), id) == None
    ensures forall j :: j != id ==> ScheduledAt(Remove(s, id), j) == ScheduledAt(s, j)
    ensures Remove(s, id).entries.Keys <= s.entries.Keys
  {}

  lemma ScheduleIs(s: Index, parses: Parser, id: int, config: Config)
    requires Consistent(s) && id !in s.entries
    ensures var t := ScheduleActive(s, parses, id, config);
      && Consistent(t) && t.entries.Keys <= s.entries.Keys + {id}
      && ScheduledAt(t, id) == Wanted(parses, config)
      && forall j :: j != id ==> ScheduledAt(t, j) == ScheduledAt(s, j)
  {}

  /** Synchronising a job schedules exactly what its configuration asks for and touches no
      other job, whatever was scheduled for it before. */
  lemma SyncIs(s: Index, parses: Parser, id: int, config: Config)
    requires Consistent(s)
    ensures var t := Sync(s, parses, id, config);
      && Consistent(t) && t.entries.Keys <= s.entries.Keys + {id}
      && ScheduledAt(t, id) == Wanted(parses, config)
      && forall j :: j != id ==> ScheduledAt(t, j) == ScheduledAt(s, j)
  {
    RemoveKeepsConsistent(s, id);
    ScheduleIs(Remove(s, id), parses, id, config);
  }

  // ---------------------------------------------------------------- start

  ghost predicate DistinctIds(rows: seq<Listed>) {
    forall i, k :: 0 <= i < k < |rows| ==> rows[i].id != rows[k].id
  }

  ghost predicate Listing(rows: seq<Listed>, id: int) {
    exists i :: 0 <= i < |rows| && rows[i].id == id
  }

  lemma ListingSnoc(rows: seq<Listed>, id: int)
    requires rows != []
    ensures Listing(rows, id) <==> Listing(rows[..|rows| - 1], id) || id == rows[|rows| - 1].id
  {
    var before := rows[..|rows| - 1];
    if Listing(before, id) {
      var i :| 0 <= i < |before| && before[i].id == id;
      assert rows[i].id == id;
    }
    if Listing(rows, id) && id != rows[|rows| - 1].id {
      var i :| 0 <= i < |rows| && rows[i].id == id;
      assert before[i].id == id;
    }
  }

  /** What `Start` schedules beside what was there. */
  lemma {:induction false} StartIs(s: Index, parses: Parser, rows: seq<Listed>)
    requires Consistent(s) && DistinctIds(rows)
    requires forall i :: 0 <= i < |rows| ==> rows[i].id !in s.entries
    ensures var t := StartOn(s, parses, rows);
      && Consistent(t)
      && (forall i :: 0 <= i < |rows| ==> ScheduledAt(t, rows[i].id) == Wanted(parses, rows[i].row.config))
      && (forall id :: !Listing(rows, id) ==>
           (id in t.entries <==> id in s.entries) && ScheduledAt(t, id) == ScheduledAt(s, id))
  {
    if rows != [] {
      var n := |rows| - 1;
      var before, last := rows[..n], rows[n];
      assert !Listing(before, last.id);
      hide Consistent, ScheduledAt, Wanted, ScheduleActive, Listing;
      StartIs(s, parses, before);
      var u := StartOn(s, parses, before);
      ScheduleIs(u, parses, last.id, last.row.config);
      forall id ensures Listing(rows, id) <==> Listing(before, id) || id == last.id { ListingSnoc(rows, id); }
    }
  }

  /** `Start` on a fresh scheduler schedules exactly what the table asks for. */
  lemma StartAgrees(parses: Parser, rows: seq<Listed>, jobs: map<int, JobRow>)
    requires Lists(rows, jobs)
    ensures Consistent(StartOn(FRESH, parses, rows)) && Agrees(StartOn(FRESH, parses, rows), parses, jobs)
  {
    var t := StartOn(FRESH, parses, rows);
    StartIs(FRESH, parses, rows);
    forall id ensures ScheduledAt(t, id) == WantedAt(parses, jobs, id) {
      if id in jobs {
        var i: nat :| i < |rows| && rows[i] == Listed(id, jobs[id]);
      } else {
        assert !Listing(rows, id);
      }
    }
  }

  /** Indices that agree with the same table schedule the same jobs under the same expressions. */
  lemma AgreesIsUnique(a: Index, b: Index, parses: Parser, jobs: map<int, JobRow>)
    requires Agrees(a, parses, jobs) && Agrees(b, parses, jobs)
    ensures Scheduled(a) == Scheduled(b)
  {
    forall id ensures id in Scheduled(a) <==> id in Scheduled(b) { assert ScheduledAt(a, id) == ScheduledAt(b, id); }
    forall id | id in Scheduled(a) ensures Scheduled(a)[id] == Scheduled(b)[id] {
      assert ScheduledAt(a, id) == ScheduledAt(b, id);
    }
  }

  /** An entry that is live but not indexed stays so while jobs are scheduled. */
  lemma {:induction false} LeakStays(s: Index, parses: Parser, rows: seq<Listed>, n: nat)
    requires n in s.live && n <= s.nextId && n !in s.entries.Values
    ensures !Consistent(StartOn(s, parses, rows)) && n <= StartOn(s, parses, rows).nextId
    ensures n in StartOn(s, parses, rows).live && n !in StartOn(s, parses, rows).entries.Values
  {
    if rows != [] { LeakStays(s, parses, rows[..|rows| - 1], n); }
    var t := StartOn(s, parses, rows);
    assert t.live[n].job in t.entries ==> t.entries[t.live[n].job] in t.entries.Values;
  }

  /** A second `Start` is harmless exactly when it schedules no job that is already indexed:
      `Start`, unlike `SyncJob`, does not remove the entry it replaces. */
  lemma {:induction false} StartConsistentIff(s: Index, parses: Parser, rows: seq<Listed>)
    requires Consistent(s) && DistinctIds(rows)
    ensures Consistent(StartOn(s, parses, rows)) <==>
      forall i :: 0 <= i < |rows| && rows[i].id in s.entries ==> Wanted(parses, rows[i].row.config) == None
    ensures Consistent(StartOn(s, parses, rows)) ==>
      forall id :: !Listing(rows, id) ==> (id in StartOn(s, parses, rows).entries <==> id in s.entries)
  {
    if rows != [] {
      var n := |rows| - 1;
      var before, last := rows[..n], rows[n];
      assert !Listing(before, last.id);
      hide Consistent, Listing;
      StartConsistentIff(s, parses, before);
      var u := StartOn(s, parses, before);
      if !Consistent(u) {
        var k: nat :| k < n && before[k].id in s.entries && Wanted(parses, before[k].row.config) != None;
        assert rows[k].id in s.entries && Wanted(parses, rows[k].row.config) != None;
        hide Wanted;
        BrokenStaysBroken(s, parses, rows);
      } else {
        assert last.id in u.entries <==> last.id in s.entries;
        LastConsistentIff(u, parses, last);
        forall id ensures Listing(rows, id) <==> Listing(before, id) || id == last.id { ListingSnoc(rows, id); }
        hide Wanted, ScheduleActive;
      }
    }
  }

  lemma LastConsistentIff(u: Index, parses: Parser, last: Listed)
    requires Consistent(u)
    ensures var t := ScheduleActive(u, parses, last.id, last.row.config);
      && (Consistent(t) <==> (last.id in u.entries ==> Wanted(parses, last.row.config) == None))
      && forall id :: id != last.id ==> (id in t.entries <==> id in u.entries)
  {
    hide Consistent;
    ScheduleConsistentIff(u, parses, last.id, last.row.config.scheduleCron);
  }

  /** Once `Start` has leaked an entry, going on does not repair it. */
  lemma {:induction false} BrokenStaysBroken(s: Index, parses: Parser, rows: seq<Listed>)
    requires Consistent(s) && rows != [] && !Consistent(StartOn(s, parses, rows[..|rows| - 1]))
    ensures !Consistent(StartOn(s, parses, rows))
  {
    var n := LeakExists(s, parses, rows[..|rows| - 1]);
    var last := rows[|rows| - 1];
    var u := StartOn(s, parses, rows[..|rows| - 1]);
    assert StartOn(s, parses, rows) == StartOn(u, parses, [last]);
    LeakStays(u, parses, [last], n);
  }

  /** What `Start` breaks, it breaks by leaking. */
  lemma {:induction false} LeakExists(s: Index, parses: Parser, rows: seq<Listed>) returns (n: nat)
    requires Consistent(s) && !Consistent(StartOn(s, parses, rows))
    ensures var t := StartOn(s, parses, rows);
      n in t.live && n <= t.nextId && n !in t.entries.Values
  {
    var last := rows[|rows| - 1];
    var u := StartOn(s, parses, rows[..|rows| - 1]);
    if Consistent(u) {
      ScheduleConsistentIff(u, parses, last.id, last.row.config.scheduleCron);
      n := u.entries[last.id];
      assert forall j :: j in u.entries && u.entries[j] == n ==> j == last.id;
    } else {
      n := LeakExists(s, parses, rows[..|rows| - 1]);
    }
  }

  // ---------------------------------------------------------------- the objects

  class Cron {
    const parses: Parser
    var live: map<nat, Entry>
    var nextId: nat

    constructor (parses: Parser)
      ensures this.parses == parses && live == map[] && nextId == 0
    {
      this.parses, live, nextId := parses, map[], 0;
    }

    method AddFunc(expr: string, job: int) returns (id: Option<nat>)
      modifies this
      ensures id.Some? <==> parses(expr)
      ensures id.Some? ==> id.value == nextId == old(nextId) + 1 && live == old(live)[nextId := Entry(expr, job)]
      ensures id.None? ==> nextId == old(nextId) && live == old(live)
    {
      if !parses(expr) { return None; }
      nextId := nextId + 1;
      live := live[nextId := Entry(expr, job)];
      id := Some(nextId);
    }

    method Remove(id: nat)
      modifies this
      ensures live == old(live) - {id} && nextId == old(nextId)
    {
      live := live - {id};
    }
  }

  class JobScheduler {
    const cron: Cron
    const db: DB
    var entries: map<int, nat>

    ghost function View(): Index
      reads this, cron
    {
      Index(entries, cron.live, cron.nextId)
    }

    constructor (db: DB, parses: Parser)
      ensures fresh(cron) && this.db == db && cron.parses == parses && View() == FRESH && Consistent(View())
    {
      cron := new Cron(parses);
      this.db, entries := db, map[];
    }

    method ScheduleJob(id: int, expr: string)
      modifies this, cron
      ensures View() == Schedule(old(View()), cron.parses, id, expr)
    {
      var entry := cron.AddFunc(expr, id);
      if entry.Some? { entries := entries[id := entry.value]; }
    }

    /** Every row is scheduled on top of what was there; a fresh scheduler then agrees with
        the table. */
    method Start() returns (ghost rows: seq<Listed>)
      requires db.Valid()
      modifies this, cron
      ensures Lists(rows, db.jobs) && View() == StartOn(old(View()), cron.parses, rows)
      ensures old(View()) == FRESH ==> Consistent(View()) && Agrees(View(), cron.parses, db.jobs)
    {
      ghost var before := View();
      var listed := db.GetJobs();
      rows := listed;
      var i := 0;
      while i < |listed|
        invariant 0 <= i <= |listed|
        invariant View() == StartOn(before, cron.parses, listed[..i])
      {
        assert listed[..i + 1][..i] == listed[..i];
        if listed[i].row.config.enabled && listed[i].row.config.scheduleCron != "" {
          ScheduleJob(listed[i].id, listed[i].row.config.scheduleCron);
        }
        i := i + 1;
      }
      assert listed[..i] == listed;
      StartAgrees(cron.parses, rows, db.jobs);
    }

    method SyncJob(job: BackupJob)
      modifies this, cron
      ensures View() == Sync(old(View()), cron.parses, job.id, job.config)
    {
      RemoveJob(job.id);
      if job.config.enabled && job.config.scheduleCron != "" {
        ScheduleJob(job.id, job.config.scheduleCron);
      }
    }

    method RemoveJob(id: int)
      modifies this, cron
      ensures View() == Remove(old(View()), id)
    {
      if id in entries {
        cron.Remove(entries[id]);
        entries := entries - {id};
      }
    }
  }
}
