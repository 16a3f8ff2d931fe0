/** The two tables of internal/database/db.go as values, and what every interleaving of
    writes leaves in them. */
module Schema {
  import opened Values

  /** The columns of `backup_jobs` that `UpdateJob` writes; `port` is `postgres_port`,
      and `rest` stands for the container columns and the textual connection columns. */
  datatype Config = Config(
    name: string, dbType: string, scheduleCron: string, schedulePreset: string,
    rcloneRemote: string, rclonePath: string, retentionCount: int, retentionDays: int,
    port: int, enabled: bool, rest: seq<string>)

  /** The columns `UpdateJobRunStatus` writes. */
  datatype RunInfo = RunInfo(status: string, at: Option<int>, durationMs: int, sizeBytes: int)

  const NEVER_RUN: RunInfo := RunInfo("", None, 0, 0)

  datatype JobRow = JobRow(config: Config, run: RunInfo, createdAt: int, updatedAt: int)

  datatype HistoryRow = HistoryRow(
    id: int, jobId: int, jobName: string, status: string, sizeBytes: int, durationMs: int,
    filename: string, logs: string, trigger: string, createdAt: int)

  /** A job as a query returns it. */
  datatype Listed = Listed(id: int, row: JobRow)

  /** `rows` are the rows of the table, in descending order of id. */
  ghost predicate Lists(rows: seq<Listed>, jobs: map<int, JobRow>) {
    && (forall i, k :: 0 <= i < k < |rows| ==> rows[i].id > rows[k].id)
    && (forall i :: 0 <= i < |rows| ==> rows[i].id in jobs && rows[i].row == jobs[rows[i].id])
    && (forall id :: id in jobs ==> Listed(id, jobs[id]) in rows)
  }

  lemma ListsSnoc(rows: seq<Listed>, jobs: map<int, JobRow>, id: int, row: JobRow)
    requires Lists(rows, jobs) && forall x :: x in jobs ==> x > id
    ensures Lists(rows + [Listed(id, row)], jobs[id := row])
  {
    var more := rows + [Listed(id, row)];
    var table := jobs[id := row];
    forall x | x in table ensures Listed(x, table[x]) in more {
      if x == id { assert more[|rows|] == Listed(id, row); }
    }
  }

  /** `jobSeq` is the AUTOINCREMENT counter; history rows are never deleted by the program,
      so row `k` of `history` has id `k + 1`. */
  datatype Tables = Tables(jobs: map<int, JobRow>, jobSeq: nat, history: seq<HistoryRow>)

  const EMPTY: Tables := Tables(map[], 0, [])

  // ---------------------------------------------------------------- statements

  function InsertJob(t: Tables, config: Config, run: RunInfo, now: int): Tables {
    t.(jobs := t.jobs[t.jobSeq + 1 := JobRow(config, run, now, now)], jobSeq := t.jobSeq + 1)
  }

  function SetConfig(t: Tables, id: int, config: Config, now: int): Tables {
    if id in t.jobs then t.(jobs := t.jobs[id := t.jobs[id].(config := config, updatedAt := now)]) else t
  }

  function SetStatus(t: Tables, id: int, status: string, durationMs: int, sizeBytes: int, now: int): Tables {
    if id in t.jobs
    then
      var run := RunInfo(status, Some(now), durationMs, sizeBytes);
      t.(jobs := t.jobs[id := t.jobs[id].(run := run, updatedAt := now)])
    else t
  }

  function RemoveJob(t: Tables, id: int): Tables {
    t.(jobs := t.jobs - {id})
  }

  /** The id and the time of the row are assigned by the insertion. */
  function InsertHistory(t: Tables, row: HistoryRow, now: int): Tables {
    t.(history := t.history + [row.(id := |t.history| + 1, createdAt := now)])
  }

  datatype Write =
    | Create(config: Config, run: RunInfo, now: int)
    | Configure(id: int, config: Config, now: int)
    | Report(id: int, status: string, durationMs: int, sizeBytes: int, now: int)
    | Delete(id: int)
    | Log(row: HistoryRow, now: int)

  function Apply(t: Tables, w: Write): Tables {
    match w
    case Create(config, run, now) => InsertJob(t, config, run, now)
    case Configure(id, config, now) => SetConfig(t, id, config, now)
    case Report(id, status, d, s, now) => SetStatus(t, id, status, d, s, now)
    case Delete(id) => RemoveJob(t, id)
    case Log(row, now) => InsertHistory(t, row, now)
  }

  /** The tables after the writes of `ws`, in order. */
  function Exec(ws: seq<Write>): Tables {
    if ws == [] then EMPTY else Apply(Exec(ws[..|ws| - 1]), ws[|ws| - 1])
  }

  // ---------------------------------------------------------------- who wrote last

  function Creations(ws: seq<Write>): nat {
    if ws == [] then 0 else Creations(ws[..|ws| - 1]) + if ws[|ws| - 1].Create? then 1 else 0
  }

  /** The `id`-th creation, when the last write of `ws` is it. */
  predicate CreatesLast(ws: seq<Write>, id: int)
    requires ws != []
  {
    ws[|ws| - 1].Create? && id == Creations(ws)
  }

  /** The configuration written last to job `id`, looking only at configuration writes;
      `None` before its creation and after its deletion. */
  function LastConfig(ws: seq<Write>, id: int): Option<Config> {
    if ws == [] then None
    else
      var before, w := LastConfig(ws[..|ws| - 1], id), ws[|ws| - 1];
      if CreatesLast(ws, id) then Some(w.config)
      else if w == Delete(id) then None
      else if w.Configure? && w.id == id && before.Some? then Some(w.config)
      else before
  }

  /** The run information written last to job `id`, looking only at status writes. */
  function LastRun(ws: seq<Write>, id: int): Option<RunInfo> {
    if ws == [] then None
    else
      var before, w := LastRun(ws[..|ws| - 1], id), ws[|ws| - 1];
      if CreatesLast(ws, id) then Some(w.run)
      else if w == Delete(id) then None
      else if w.Report? && w.id == id && before.Some?
      then Some(RunInfo(w.status, Some(w.now), w.durationMs, w.sizeBytes))
      else before
  }

  lemma {:induction false} SequenceCounts(ws: seq<Write>)
    ensures Exec(ws).jobSeq == Creations(ws)
    ensures forall id :: id in Exec(ws).jobs ==> 1 <= id <= Exec(ws).jobSeq
  {
    if ws != [] { SequenceCounts(ws[..|ws| - 1]); }
  }

  /** In every interleaving of writes, a job's configuration is the one written last by a
      configuration write and its run information the one written last by a status write:
      neither kind of write clobbers the other. */
  lemma {:induction false} WritesDoNotClobber(ws: seq<Write>, id: int)
    ensures id in Exec(ws).jobs <==> LastConfig(ws, id).Some?
    ensures id in Exec(ws).jobs <==> LastRun(ws, id).Some?
    ensures id in Exec(ws).jobs ==>
      Exec(ws).jobs[id].config == LastConfig(ws, id).value && Exec(ws).jobs[id].run == LastRun(ws, id).value
  {
    if ws != [] {
      WritesDoNotClobber(ws[..|ws| - 1], id);
      SequenceCounts(ws[..|ws| - 1]);
    }
  }

  /** An id that has been given out and deleted never comes back, whatever is written later. */
  lemma {:induction false} IdsAreNotReused(ws: seq<Write>, more: seq<Write>, id: int)
    requires 1 <= id <= Exec(ws).jobSeq && id !in Exec(ws).jobs
    ensures id !in Exec(ws + more).jobs && id <= Exec(ws + more).jobSeq
  {
    if more == [] {
      assert ws + more == ws;
    } else {
      IdsAreNotReused(ws, more[..|more| - 1], id);
      assert (ws + more)[..|ws + more| - 1] == ws + more[..|more| - 1];
    }
  }

  /** A created job gets an id no job had before. */
  lemma NewIdsAreFresh(ws: seq<Write>, k: nat, w: Write)
    requires k <= |ws| && w.Create?
    ensures var id := Exec(ws).jobSeq + 1;
      id in Exec(ws + [w]).jobs && id !in Exec(ws[..k]).jobs && Exec(ws[..k]).jobSeq < id
  {
    hide Exec, Creations;
    SequenceCounts(ws[..k]);
    SequenceGrows(ws, k);
    ExecSnoc(ws, w);
  }

  lemma ExecSnoc(ws: seq<Write>, w: Write)
    ensures Exec(ws + [w]) == Apply(Exec(ws), w)
  {
    assert (ws + [w])[..|ws|] == ws;
  }

  lemma {:induction false} SequenceGrows(ws: seq<Write>, k: nat)
    requires k <= |ws|
    ensures Exec(ws[..k]).jobSeq <= Exec(ws).jobSeq
  {
    if k == |ws| {
      assert ws[..k] == ws;
    } else {
      SequenceGrows(ws[..|ws| - 1], k);
      assert ws[..|ws| - 1][..k] == ws[..k];
    }
  }

  // ---------------------------------------------------------------- history queries

  predicate Matches(row: HistoryRow, job: Option<int>) {
    job.None? || row.jobId == job.value
  }

  /** The matching rows among the first `n`, newest first; a negative limit is no limit. */
  function NewestUpTo(rows: seq<HistoryRow>, n: nat, job: Option<int>, limit: int): (r: seq<HistoryRow>)
    requires n <= |rows|
    ensures limit >= 0 ==> |r| <= limit
  {
    if n == 0 || limit == 0 then []
    else if Matches(rows[n - 1], job) then [rows[n - 1]] + NewestUpTo(rows, n - 1, job, limit - 1)
    else NewestUpTo(rows, n - 1, job, limit)
  }

  /** `ORDER BY id DESC LIMIT ?`. */
  function Newest(rows: seq<HistoryRow>, job: Option<int>, limit: int): seq<HistoryRow> {
    NewestUpTo(rows, |rows|, job, limit)
  }

  ghost predicate IdsAscend(rows: seq<HistoryRow>) {
    forall i, j :: 0 <= i < j < |rows| ==> rows[i].id < rows[j].id
  }

  ghost predicate IdsDescend(rows: seq<HistoryRow>) {
    forall i, j :: 0 <= i < j < |rows| ==> rows[i].id > rows[j].id
  }

  lemma {:induction false} NewestWithin(rows: seq<HistoryRow>, n: nat, job: Option<int>, limit: int)
    requires n <= |rows|
    ensures forall x :: x in NewestUpTo(rows, n, job, limit) ==> x in rows[..n] && Matches(x, job)
  {
    if n > 0 && limit != 0 {
      NewestWithin(rows, n - 1, job, if Matches(rows[n - 1], job) then limit - 1 else limit);
      assert rows[..n] == rows[..n - 1] + [rows[n - 1]];
    }
  }

  /** The query returns matching rows in descending order of id. */
  lemma {:induction false} NewestDescends(rows: seq<HistoryRow>, n: nat, job: Option<int>, limit: int)
    requires IdsAscend(rows) && n <= |rows|
    ensures IdsDescend(NewestUpTo(rows, n, job, limit))
    ensures forall x :: x in NewestUpTo(rows, n, job, limit) ==> x in rows[..n] && Matches(x, job)
  {
    NewestWithin(rows, n, job, limit);
    if n > 0 && limit != 0 {
      var rest := NewestUpTo(rows, n - 1, job, if Matches(rows[n - 1], job) then limit - 1 else limit);
      NewestDescends(rows, n - 1, job, if Matches(rows[n - 1], job) then limit - 1 else limit);
      forall j | 0 <= j < |rest| ensures rows[n - 1].id > rest[j].id { assert rest[j] in rows[..n - 1]; }
    }
  }

  /** It leaves a matching row out only if it is full and all it returns is newer. */
  lemma {:induction false} NewestIsNewest(rows: seq<HistoryRow>, n: nat, job: Option<int>, limit: int, k: nat)
    requires IdsAscend(rows) && k < n <= |rows| && Matches(rows[k], job) && rows[k] !in NewestUpTo(rows, n, job, limit)
    ensures limit >= 0 && |NewestUpTo(rows, n, job, limit)| == limit
    ensures forall y :: y in NewestUpTo(rows, n, job, limit) ==> y.id > rows[k].id
  {
    if limit != 0 {
      var rest := if Matches(rows[n - 1], job) then limit - 1 else limit;
      assert k < n - 1;
      assert rows[k] !in NewestUpTo(rows, n - 1, job, rest);
      NewestIsNewest(rows, n - 1, job, rest, k);
    }
  }
}
