/** The `DB` object and the records its methods read and write back into. */
module Database {
  import opened Values
  import opened Schema

  class BackupJob {
    var id: int
    var config: Config
    var run: RunInfo
    var createdAt: int
    var updatedAt: int

    constructor (id: int, config: Config, run: RunInfo, createdAt: int, updatedAt: int)
      ensures this.id == id && this.config == config && this.run == run
      ensures this.createdAt == createdAt && this.updatedAt == updatedAt
    {
      this.id, this.config, this.run, this.createdAt, this.updatedAt := id, config, run, createdAt, updatedAt;
    }
  }

  class BackupHistory {
    var row: HistoryRow

    constructor (jobId: int, jobName: string, status: string, filename: string, trigger: string)
      ensures row == HistoryRow(0, jobId, jobName, status, 0, 0, filename, "", trigger, 0)
    {
      row := HistoryRow(0, jobId, jobName, status, 0, 0, filename, "", trigger, 0);
    }
  }

  class DB {
    var jobs: map<int, JobRow>
    var jobSeq: nat
    var history: seq<HistoryRow>

    ghost function View(): Tables
      reads this
    {
      Tables(jobs, jobSeq, history)
    }

    /** Every stored id was given out by the counter. */
    ghost predicate Valid()
      reads this
    {
      forall id :: id in jobs ==> 1 <= id <= jobSeq
    }

    constructor ()
      ensures View() == EMPTY && Valid()
    {
      jobs, jobSeq, history := map[], 0, [];
    }

    method GetJob(id: int) returns (j: BackupJob?)
      ensures j == null <==> id !in jobs
      ensures j != null ==> fresh(j) && j.id == id && JobRow(j.config, j.run, j.createdAt, j.updatedAt) == jobs[id]
    {
      if id !in jobs { return null; }
      var row := jobs[id];
      j := new BackupJob(id, row.config, row.run, row.createdAt, row.updatedAt);
    }

    /** All rows, newest first. */
    method GetJobs() returns (rows: seq<Listed>)
      requires Valid()
      ensures Lists(rows, jobs)
    {
      rows := [];
      var id := jobSeq;
      while id > 0
        invariant Lists(rows, Above(jobs, id))
      {
        if id in jobs {
          ListsSnoc(rows, Above(jobs, id), id, jobs[id]);
          assert Above(jobs, id - 1) == Above(jobs, id)[id := jobs[id]];
          rows := rows + [Listed(id, jobs[id])];
        } else {
          assert Above(jobs, id - 1) == Above(jobs, id);
        }
        id := id - 1;
      }
      assert Above(jobs, 0) == jobs;
    }

    method CreateJob(j: BackupJob, now: int)
      requires Valid()
      modifies this, j
      ensures Valid() && View() == InsertJob(old(View()), old(j.config), old(j.run), now)
      ensures j.id == jobSeq && j.config == old(j.config) && j.run == old(j.run) && j.createdAt == j.updatedAt == now
    {
      j.createdAt, j.updatedAt := now, now;
      jobSeq := jobSeq + 1;
      jobs := jobs[jobSeq := JobRow(j.config, j.run, j.createdAt, j.updatedAt)];
      j.id := jobSeq;
    }

    method UpdateJob(j: BackupJob, now: int)
      requires Valid()
      modifies this, j
      ensures Valid() && View() == SetConfig(old(View()), j.id, j.config, now)
      ensures j.id == old(j.id) && j.config == old(j.config) && j.run == old(j.run)
      ensures j.createdAt == old(j.createdAt) && j.updatedAt == now
    {
      j.updatedAt := now;
      if j.id in jobs {
        jobs := jobs[j.id := jobs[j.id].(config := j.config, updatedAt := j.updatedAt)];
      }
    }

    method UpdateJobRunStatus(id: int, status: string, durationMs: int, sizeBytes: int, now: int)
      requires Valid()
      modifies this
      ensures Valid() && View() == SetStatus(old(View()), id, status, durationMs, sizeBytes, now)
    {
      if id in jobs {
        jobs := jobs[id := jobs[id].(run := RunInfo(status, Some(now), durationMs, sizeBytes), updatedAt := now)];
      }
    }

    method DeleteJob(id: int)
      requires Valid()
      modifies this
      ensures Valid() && View() == RemoveJob(old(View()), id)
    {
      jobs := jobs - {id};
    }

    /** The time and the new id are written back into the record. */
    method CreateHistory(h: BackupHistory, now: int)
      requires Valid()
      modifies this, h
      ensures Valid() && View() == InsertHistory(old(View()), old(h.row), now)
      ensures h.row == old(h.row).(id := |history|, createdAt := now)
    {
      h.row := h.row.(createdAt := now);
      h.row := h.row.(id := |history| + 1);
      history := history + [h.row];
    }

    method GetRecentHistory(limit: int) returns (rows: seq<HistoryRow>)
      ensures rows == Newest(history, None, limit)
    {
      rows := Scan(history, None, limit);
    }

    method GetHistoryByJob(jobId: int, limit: int) returns (rows: seq<HistoryRow>)
      ensures rows == Newest(history, Some(jobId), limit)
    {
      rows := Scan(history, Some(jobId), limit);
    }
  }

  ghost function Above(jobs: map<int, JobRow>, id: int): map<int, JobRow> {
    map x | x in jobs && x > id :: jobs[x]
  }

  lemma NewestStep(rows: seq<HistoryRow>, table: seq<HistoryRow>, i: nat, job: Option<int>, limit: int)
    requires i < |table| && |rows| != limit
    ensures var more := if Matches(table[i], job) then rows + [table[i]] else rows;
      more + NewestUpTo(table, i, job, limit - |more|) == rows + NewestUpTo(table, i + 1, job, limit - |rows|)
  {
    if Matches(table[i], job) {
      var rest := NewestUpTo(table, i, job, limit - |rows| - 1);
      assert rows + [table[i]] + rest == rows + ([table[i]] + rest);
    }
  }

  /** The accumulating loop of the history queries. */
  method Scan(table: seq<HistoryRow>, job: Option<int>, limit: int) returns (rows: seq<HistoryRow>)
    ensures rows == Newest(table, job, limit)
  {
    rows := [];
    var i := |table|;
    while i > 0 && |rows| != limit
      invariant 0 <= i <= |table|
      invariant Newest(table, job, limit) == rows + NewestUpTo(table, i, job, limit - |rows|)
    {
      i := i - 1;
      NewestStep(rows, table, i, job, limit);
      if Matches(table[i], job) { rows := rows + [table[i]]; }
    }
  }
}
