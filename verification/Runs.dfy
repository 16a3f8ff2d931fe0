/** Any number of overlapping backup runs over the two tables.  Every database call of
    `RunBackup` and `handleFailure` is one atomic step of its run; nothing keeps two runs of
    a job, or a run and an edit of its job, apart. */
module Runs {
  import opened Values
  import opened Schema
  import Archive

  /** Where a run stands: it has loaded its job; reported "running"; inserted its first
      history row; finished its work; reported its outcome; inserted its last row. */
  datatype Pc = Loaded | Marked | Logged | Finished | Closing | Done

  datatype Outcome = DumpFailed | StatFailed | UploadFailed(size: int) | Succeeded(size: int)

  /** `first` and `last` are the ids of the history rows it inserted, 0 before. */
  datatype Run = Run(
    job: int, name: string, dbType: string, trigger: string, filename: string,
    pc: Pc, outcome: Outcome, durationMs: int, logs: string, first: nat, last: nat)

  /** History: `writer` maps a job to the run that reported its status last, and `owners[k]`
      is the run that inserted history row `k`. */
  datatype State = State(tables: Tables, runs: seq<Run>, writer: map<int, nat>, owners: seq<nat>)

  datatype Event =
    | Begin(job: int, trigger: string, clock: Archive.Clock)
    | Advance(run: nat, outcome: Outcome, durationMs: int, logs: string, now: int)
    | Edit(write: Write)

  const INIT: State := State(EMPTY, [], map[], [])

  // ---------------------------------------------------------------- what a run writes

  function StatusText(o: Outcome): string {
    if o.Succeeded? then "success" else "failed"
  }

  /** Only a successful run reports a size on its job. */
  function JobSize(o: Outcome): int {
    match o case Succeeded(size) => size case _ => 0
  }

  /** The history keeps the size of an archive that was built but not uploaded. */
  function HistorySize(o: Outcome): int {
    match o case Succeeded(size) => size case UploadFailed(size) => size case _ => 0
  }

  function RunningRow(r: Run): HistoryRow {
    HistoryRow(0, r.job, r.name, "running", 0, 0, r.filename, "", r.trigger, 0)
  }

  function FinalRow(r: Run): HistoryRow {
    RunningRow(r).(status := StatusText(r.outcome), sizeBytes := HistorySize(r.outcome), durationMs := r.durationMs,
      logs := r.logs)
  }

  predicate Supported(dbType: string) {
    dbType == "postgres" || dbType == "sqlite"
  }

  // ---------------------------------------------------------------- steps

  function DoBegin(s: State, job: int, trigger: string, clock: Archive.Clock): State
    requires job in s.tables.jobs && clock.Valid()
  {
    var config := s.tables.jobs[job].config;
    var filename := Archive.ArchiveName(config.name, config.dbType, clock);
    s.(runs := s.runs + [Run(job, config.name, config.dbType, trigger, filename, Loaded, DumpFailed, 0, "", 0, 0)])
  }

  function DoAdvance(s: State, i: nat, outcome: Outcome, durationMs: int, logs: string, now: int): State
    requires i < |s.runs|
  {
    var r := s.runs[i];
    match r.pc
    case Loaded =>
      s.(tables := SetStatus(s.tables, r.job, "running", 0, 0, now), writer := s.writer[r.job := i],
         runs := s.runs[i := r.(pc := Marked)])
    case Marked =>
      s.(tables := InsertHistory(s.tables, RunningRow(r), now), owners := s.owners + [i],
         runs := s.runs[i := r.(pc := Logged, first := |s.tables.history| + 1)])
    case Logged =>
      var o := if Supported(r.dbType) then outcome else DumpFailed;
      s.(runs := s.runs[i := r.(pc := Finished, outcome := o, durationMs := durationMs, logs := logs)])
    case Finished =>
      s.(tables := SetStatus(s.tables, r.job, StatusText(r.outcome), r.durationMs, JobSize(r.outcome), now),
         writer := s.writer[r.job := i], runs := s.runs[i := r.(pc := Closing)])
    case Closing =>
      s.(tables := InsertHistory(s.tables, FinalRow(r), now), owners := s.owners + [i],
         runs := s.runs[i := r.(pc := Done, last := |s.tables.history| + 1)])
    case Done => s
  }

  /** The web handlers create jobs that never ran, configure jobs and delete them. */
  predicate ByHandler(w: Write) {
    match w
    case Create(_, run, _) => run == NEVER_RUN
    case Configure(_, _, _) => true
    case Delete(_) => true
    case _ => false
  }

  /** One event; an event that is not possible in `s` leaves it unchanged. */
  function Step(s: State, e: Event): State {
    match e
    case Begin(job, trigger, clock) =>
      if job in s.tables.jobs && clock.Valid() then DoBegin(s, job, trigger, clock) else s
    case Advance(i, o, d, l, now) => if i < |s.runs| then DoAdvance(s, i, o, d, l, now) else s
    case Edit(w) => if ByHandler(w) then s.(tables := Apply(s.tables, w)) else s
  }

  function Exec(es: seq<Event>): State {
    if es == [] then INIT else Step(Exec(es[..|es| - 1]), es[|es| - 1])
  }

  // ---------------------------------------------------------------- conservation of history

  function CountRows(rows: seq<HistoryRow>, job: int, status: string): nat {
    if rows == [] then 0
    else CountRows(rows[..|rows| - 1], job, status)
         + if rows[|rows| - 1].jobId == job && rows[|rows| - 1].status == status then 1 else 0
  }

  /** The run has inserted a row with this status. */
  predicate HasRow(r: Run, status: string) {
    || (status == "running" && (r.pc.Logged? || r.pc.Finished? || r.pc.Closing? || r.pc.Done?))
    || (r.pc.Done? && status == StatusText(r.outcome))
  }

  function CountRuns(runs: seq<Run>, job: int, status: string): nat {
    if runs == [] then 0
    else CountRuns(runs[..|runs| - 1], job, status)
         + if runs[|runs| - 1].job == job && HasRow(runs[|runs| - 1], status) then 1 else 0
  }

  function One(b: bool): nat { if b then 1 else 0 }

  lemma {:induction false} CountRunsUpdate(runs: seq<Run>, i: nat, r: Run, job: int, status: string)
    requires i < |runs|
    ensures CountRuns(runs[i := r], job, status) + One(runs[i].job == job && HasRow(runs[i], status))
         == CountRuns(runs, job, status) + One(r.job == job && HasRow(r, status))
  {
    var n := |runs| - 1;
    if i == n {
      assert runs[i := r][..n] == runs[..n];
    } else {
      CountRunsUpdate(runs[..n], i, r, job, status);
      assert runs[i := r][..n] == runs[..n][i := r];
    }
  }

  lemma CountRunsSnoc(runs: seq<Run>, r: Run, job: int, status: string)
    ensures CountRuns(runs + [r], job, status) == CountRuns(runs, job, status) + One(r.job == job && HasRow(r, status))
  {
    assert (runs + [r])[..|runs|] == runs;
  }

  lemma CountRowsSnoc(rows: seq<HistoryRow>, x: HistoryRow, job: int, status: string)
    ensures CountRows(rows + [x], job, status)
      == CountRows(rows, job, status) + One(x.jobId == job && x.status == status)
  {
    assert (rows + [x])[..|rows|] == rows;
  }

  /** A run changes and at most one row is added: the balance is kept if the run counts for
      the row it adds. */
  lemma Balance(rows: seq<HistoryRow>, added: seq<HistoryRow>, runs: seq<Run>, i: nat, r: Run, job: int, status: string)
    requires i < |runs| && |added| <= 1 && r.job == runs[i].job
    requires CountRows(rows, job, status) == CountRuns(runs, job, status)
    requires added != [] ==> added[0].jobId == r.job
    requires HasRow(r, status) <==> HasRow(runs[i], status) || (added != [] && added[0].status == status)
    requires added != [] && added[0].status == status ==> !HasRow(runs[i], status)
    ensures CountRows(rows + added, job, status) == CountRuns(runs[i := r], job, status)
  {
    CountRunsUpdate(runs, i, r, job, status);
    if added == [] { assert rows + added == rows; }
    else { CountRowsSnoc(rows, added[0], job, status); assert rows + added == rows + [added[0]]; }
  }

  /** What one step of run `i` does to the history and to the runs. */
  lemma AdvanceAdds(s: State, i: nat, e: Event) returns (added: seq<HistoryRow>)
    requires i < |s.runs| && e.Advance? && e.run == i
    ensures var t, r := Step(s, e), s.runs[i];
      && |t.runs| == |s.runs| && t.runs == s.runs[i := t.runs[i]] && t.tables.history == s.tables.history + added
      && t.runs[i].job == r.job && |added| <= 1 && t.owners == s.owners + seq(|added|, _ => i)
      && (added != [] ==> added[0].jobId == r.job)
      && (added != [] ==> added[0].status == if r.pc.Marked? then "running" else StatusText(r.outcome))
      && (added != [] <==> r.pc.Marked? || r.pc.Closing?)
      && t.runs[i].pc == NextPc(r.pc) && (r.pc.Logged? || t.runs[i].outcome == r.outcome)
  {
    added := Step(s, e).tables.history[|s.tables.history|..];
  }

  function NextPc(pc: Pc): Pc {
    match pc
    case Loaded => Marked
    case Marked => Logged
    case Logged => Finished
    case Finished => Closing
    case Closing => Done
    case Done => Done
  }

  lemma StepConserves(s: State, e: Event, job: int, status: string)
    requires CountRows(s.tables.history, job, status) == CountRuns(s.runs, job, status)
    ensures CountRows(Step(s, e).tables.history, job, status) == CountRuns(Step(s, e).runs, job, status)
  {
    match e
    case Begin(j, trigger, clock) =>
      if j in s.tables.jobs && clock.Valid() {
        var t := Step(s, e);
        assert t.runs == s.runs + [t.runs[|s.runs|]];
        BeginHasNoRow(s, e, status);
        hide Step, CountRows, CountRuns, HasRow;
        CountRunsSnoc(s.runs, t.runs[|s.runs|], job, status);
      }
    case Advance(i, o, d, l, now) =>
      if i < |s.runs| { hide *; AdvanceConserves(s, e, job, status); }
    case Edit(w) => hide CountRows, CountRuns;
  }

  lemma AdvanceConserves(s: State, e: Event, job: int, status: string)
    requires e.Advance? && e.run < |s.runs|
    requires CountRows(s.tables.history, job, status) == CountRuns(s.runs, job, status)
    ensures CountRows(Step(s, e).tables.history, job, status) == CountRuns(Step(s, e).runs, job, status)
  {
    hide Step, CountRows, CountRuns, Apply;
    var added := AdvanceAdds(s, e.run, e);
    Balance(s.tables.history, added, s.runs, e.run, Step(s, e).runs[e.run], job, status);
  }

  lemma BeginHasNoRow(s: State, e: Event, status: string)
    requires e.Begin? && e.job in s.tables.jobs && e.clock.Valid()
    ensures var t := Step(s, e);
      |t.runs| == |s.runs| + 1 && !HasRow(t.runs[|s.runs|], status) && t.tables == s.tables
  {
    hide Archive.ArchiveName;
  }

  /** In every interleaving, for every job and status, there are exactly as many history rows
      as runs that have inserted one: a "running" row for every run past its first insert, a
      "success" or "failed" row for every run past its last. */
  lemma {:induction false} HistoryIsConserved(es: seq<Event>, job: int, status: string)
    ensures CountRows(Exec(es).tables.history, job, status) == CountRuns(Exec(es).runs, job, status)
  {
    if es != [] {
      HistoryIsConserved(es[..|es| - 1], job, status);
      StepConserves(Exec(es[..|es| - 1]), es[|es| - 1], job, status);
    }
  }

  /** History rows are never changed or removed: a run's "running" row stays for good. */
  lemma {:induction false} HistoryOnlyGrows(es: seq<Event>, more: seq<Event>)
    ensures Exec(es).tables.history <= Exec(es + more).tables.history
  {
    if more == [] {
      assert es + more == es;
    } else {
      var init, e := more[..|more| - 1], more[|more| - 1];
      assert es + more == (es + init) + [e];
      hide *;
      var s := Exec(es + init);
      HistoryOnlyGrows(es, init);
      ExecSnoc(es + init, e);
      StepGrows(s, e);
      PrefixChain(Exec(es).tables.history, s.tables.history, Step(s, e).tables.history);
    }
  }

  lemma ExecSnoc(es: seq<Event>, e: Event)
    ensures Exec(es + [e]) == Step(Exec(es), e)
  {
    assert (es + [e])[..|es|] == es;
  }

  lemma PrefixChain(a: seq<HistoryRow>, b: seq<HistoryRow>, c: seq<HistoryRow>)
    requires a <= b && b <= c
    ensures a <= c
  {}

  lemma StepGrows(s: State, e: Event)
    ensures s.tables.history <= Step(s, e).tables.history
  {
    hide Archive.ArchiveName;
  }

  // ---------------------------------------------------------------- rows and their runs

  /** A row is the given one but for the id and time of its insertion. */
  predicate IsRow(rows: seq<HistoryRow>, id: nat, row: HistoryRow) {
    1 <= id <= |rows| && rows[id - 1] == row.(id := id, createdAt := rows[id - 1].createdAt)
  }

  /** What run `i` has left in the history so far. */
  ghost predicate RowsOk(s: State, i: nat)
    requires i < |s.runs|
  {
    var r := s.runs[i];
    && (HasRow(r, "running") ==>
         IsRow(s.tables.history, r.first, RunningRow(r)) && r.first <= |s.owners| && s.owners[r.first - 1] == i)
    && (r.pc.Done? ==>
          && IsRow(s.tables.history, r.last, FinalRow(r))
          && r.first < r.last <= |s.owners| && s.owners[r.last - 1] == i)
  }

  /** Row `k` belongs to one run, which inserted it first or last. */
  ghost predicate OwnerOk(s: State, k: nat)
    requires k < |s.owners|
  {
    s.owners[k] < |s.runs| && (s.runs[s.owners[k]].first == k + 1 || s.runs[s.owners[k]].last == k + 1)
  }

  ghost predicate LedgerOk(s: State) {
    && |s.owners| == |s.tables.history|
    && (forall i :: 0 <= i < |s.runs| ==> RowsOk(s, i) && Unset(s.runs[i]))
    && (forall k :: 0 <= k < |s.owners| ==> OwnerOk(s, k))
  }

  /** Runs without a row have no row id. */
  ghost predicate Unset(r: Run) {
    (!HasRow(r, "running") ==> r.first == 0) && (!r.pc.Done? ==> r.last == 0)
  }

  lemma RowsStay(s: State, t: State, i: nat)
    requires i < |s.runs| && i < |t.runs| && t.runs[i] == s.runs[i] && RowsOk(s, i)
    requires s.tables.history <= t.tables.history && s.owners <= t.owners
    ensures RowsOk(t, i)
  {}

  lemma OwnStepRowsOk(s: State, e: Event, i: nat)
    requires |s.owners| == |s.tables.history| && i < |s.runs| && e.Advance? && e.run == i
    requires RowsOk(s, i) && Unset(s.runs[i])
    ensures RowsOk(Step(s, e), i) && Unset(Step(s, e).runs[i])
  {
    assert Step(s, e).runs[i].pc == NextPc(s.runs[i].pc);
  }

  lemma StepRowsOk(s: State, e: Event, i: nat)
    requires |s.owners| == |s.tables.history| && i < |Step(s, e).runs|
    requires i < |s.runs| ==> RowsOk(s, i) && Unset(s.runs[i])
    ensures RowsOk(Step(s, e), i) && Unset(Step(s, e).runs[i])
  {
    if i < |s.runs| {
      if e.Advance? && e.run == i {
        OwnStepRowsOk(s, e, i);
      } else {
        if e.Advance? && e.run < |s.runs| { var added := AdvanceAdds(s, e.run, e); }
        RowsStay(s, Step(s, e), i);
      }
    }
  }

  lemma StepOwnerOk(s: State, e: Event, k: nat)
    requires |s.owners| == |s.tables.history| && k < |Step(s, e).owners|
    requires k < |s.owners| ==> OwnerOk(s, k)
    requires forall i :: 0 <= i < |s.runs| ==> Unset(s.runs[i])
    ensures OwnerOk(Step(s, e), k)
  {}

  lemma StepKeepsLedger(s: State, e: Event)
    requires LedgerOk(s)
    ensures LedgerOk(Step(s, e))
  {
    var t := Step(s, e);
    assert |t.owners| == |t.tables.history|;
    forall i | 0 <= i < |t.runs| ensures RowsOk(t, i) && Unset(t.runs[i]) { StepRowsOk(s, e, i); }
    forall k | 0 <= k < |t.owners| ensures OwnerOk(t, k) { StepOwnerOk(s, e, k); }
  }

  lemma {:induction false} ExecLedger(es: seq<Event>)
    ensures LedgerOk(Exec(es))
  {
    if es != [] {
      ExecLedger(es[..|es| - 1]);
      StepKeepsLedger(Exec(es[..|es| - 1]), es[|es| - 1]);
    }
  }

  /** In every interleaving each history row was inserted by exactly one run. */
  lemma RowsBelongToRuns(es: seq<Event>, k: nat)
    requires k < |Exec(es).tables.history|
    ensures var s := Exec(es);
      && |s.owners| == |s.tables.history| && s.owners[k] < |s.runs|
      && forall j :: 0 <= j < |s.runs| ==> (k + 1 == s.runs[j].first || k + 1 == s.runs[j].last <==> j == s.owners[k])
  {
    ExecLedger(es);
    OneOwner(Exec(es), k);
  }

  lemma OneOwner(s: State, k: nat)
    requires LedgerOk(s) && k < |s.owners|
    ensures s.owners[k] < |s.runs|
    ensures forall j :: 0 <= j < |s.runs| ==>
      (k + 1 == s.runs[j].first || k + 1 == s.runs[j].last <==> j == s.owners[k])
  {
    assert OwnerOk(s, k);
    forall j | 0 <= j < |s.runs| && (k + 1 == s.runs[j].first || k + 1 == s.runs[j].last) ensures j == s.owners[k] {
      assert RowsOk(s, j) && Unset(s.runs[j]);
    }
  }

  /** In every interleaving a finished run has inserted exactly two rows, "running" first, and
      both describe the same job, file and trigger. */
  lemma FinishedRunHasTwoRows(es: seq<Event>, i: nat)
    requires i < |Exec(es).runs| && Exec(es).runs[i].pc.Done?
    ensures var s, r := Exec(es), Exec(es).runs[i];
      && 1 <= r.first < r.last <= |s.tables.history| == |s.owners|
      && IsRow(s.tables.history, r.first, RunningRow(r)) && IsRow(s.tables.history, r.last, FinalRow(r))
      && forall k :: 0 <= k < |s.owners| ==> (s.owners[k] == i <==> k + 1 == r.first || k + 1 == r.last)
  {
    ExecLedger(es);
    var s := Exec(es);
    assert RowsOk(s, i);
    forall k | 0 <= k < |s.owners| ensures s.owners[k] == i <==> k + 1 == s.runs[i].first || k + 1 == s.runs[i].last {
      OneOwner(s, k);
    }
  }

  // ---------------------------------------------------------------- the status of a job

  /** The status the run reported last. */
  function Reported(r: Run): RunInfo
    requires !r.pc.Loaded?
  {
    if r.pc.Closing? || r.pc.Done? then RunInfo(StatusText(r.outcome), None, r.durationMs, JobSize(r.outcome))
    else RunInfo("running", None, 0, 0)
  }

  ghost predicate StatusOk(s: State, id: int)
    requires id in s.tables.jobs
  {
    if id in s.writer then
      && s.writer[id] < |s.runs|
      && var r := s.runs[s.writer[id]];
         r.job == id && !r.pc.Loaded? && s.tables.jobs[id].run.(at := None) == Reported(r)
    else s.tables.jobs[id].run == NEVER_RUN
  }

  ghost predicate Tracked(s: State) {
    && (forall id :: id in s.tables.jobs ==> 1 <= id <= s.tables.jobSeq && StatusOk(s, id))
    && (forall id :: id in s.writer ==> id <= s.tables.jobSeq)
    && (forall i :: 0 <= i < |s.runs| ==> s.runs[i].job <= s.tables.jobSeq)
    && (forall i :: 0 <= i < |s.runs| && !s.runs[i].pc.Loaded? ==> s.runs[i].job in s.writer)
  }

  lemma StepStatusOk(s: State, e: Event, id: int)
    requires Tracked(s) && id in Step(s, e).tables.jobs
    ensures 1 <= id <= Step(s, e).tables.jobSeq && StatusOk(Step(s, e), id)
  {
    if id in s.tables.jobs { assert StatusOk(s, id); }
    match e
    case Begin(job, trigger, clock) =>
    case Advance(i, o, d, l, now) => if i < |s.runs| { AdvanceStatusOk(s, e, id); }
    case Edit(w) => if ByHandler(w) { EditStatusOk(s, w, id); }
  }

  lemma EditStatusOk(s: State, w: Write, id: int)
    requires Tracked(s) && ByHandler(w) && id in Apply(s.tables, w).jobs
    ensures StatusOk(Step(s, Edit(w)), id)
  {
    if id in s.tables.jobs { assert StatusOk(s, id); }
  }

  /** The step reports the status of its run on the job. */
  predicate Reports(r: Run) {
    r.pc.Loaded? || r.pc.Finished?
  }

  /** What a step of run `i` does to who reported what. */
  lemma AdvanceReports(s: State, i: nat, e: Event, id: int)
    requires i < |s.runs| && e.Advance? && e.run == i
    ensures var t, r := Step(s, e), s.runs[i];
      && (id in t.tables.jobs <==> id in s.tables.jobs) && t.tables.jobSeq == s.tables.jobSeq
      && t.writer == (if Reports(r) then s.writer[r.job := i] else s.writer)
      && |t.runs| == |s.runs| && t.runs == s.runs[i := t.runs[i]] && t.runs[i].job == r.job && !t.runs[i].pc.Loaded?
      && (!Reports(r) ==> Reported(t.runs[i]) == Reported(r))
      && (id in s.tables.jobs ==>
            if Reports(r) && id == r.job then t.tables.jobs[id].run.(at := None) == Reported(t.runs[i])
            else t.tables.jobs[id].run == s.tables.jobs[id].run)
  {}

  lemma AdvanceStatusOk(s: State, e: Event, id: int)
    requires Tracked(s) && e.Advance? && e.run < |s.runs| && id in Step(s, e).tables.jobs
    ensures 1 <= id <= Step(s, e).tables.jobSeq && StatusOk(Step(s, e), id)
  {
    hide Step, Reported;
    AdvanceReports(s, e.run, e, id);
    assert StatusOk(s, id);
    hide Tracked;
  }

  lemma StepKeepsTracked(s: State, e: Event)
    requires Tracked(s)
    ensures Tracked(Step(s, e))
  {
    var t := Step(s, e);
    forall id | id in t.tables.jobs ensures 1 <= id <= t.tables.jobSeq && StatusOk(t, id) { StepStatusOk(s, e, id); }
    StepKeepsJobs(s, e);
  }

  /** Runs and reports concern ids that have been given out. */
  lemma StepKeepsJobs(s: State, e: Event)
    requires Tracked(s)
    ensures var t := Step(s, e);
      && (forall id :: id in t.writer ==> id <= t.tables.jobSeq)
      && (forall i :: 0 <= i < |t.runs| ==> t.runs[i].job <= t.tables.jobSeq)
      && (forall i :: 0 <= i < |t.runs| && !t.runs[i].pc.Loaded? ==> t.runs[i].job in t.writer)
  {
    if e.Advance? && e.run < |s.runs| {
      hide Step, StatusOk;
      AdvanceReports(s, e.run, e, 0);
      assert s.runs[e.run].job <= s.tables.jobSeq;
    } else {
      hide StatusOk, Archive.ArchiveName;
    }
  }

  lemma {:induction false} ExecTracked(es: seq<Event>)
    ensures Tracked(Exec(es))
  {
    if es != [] {
      ExecTracked(es[..|es| - 1]);
      StepKeepsTracked(Exec(es[..|es| - 1]), es[|es| - 1]);
    }
  }

  ghost predicate Active(s: State, id: int) {
    exists i :: 0 <= i < |s.runs| && s.runs[i].job == id && !s.runs[i].pc.Done?
  }

  ghost predicate HasRun(s: State, id: int) {
    exists i :: 0 <= i < |s.runs| && s.runs[i].job == id
  }

  /** In every interleaving, when no run of a still existing job is under way and the job has
      been run, its status is the outcome of the run that reported last, "success" or
      "failed"; a job that never ran has no status. */
  lemma QuietJobShowsLastOutcome(es: seq<Event>, id: int)
    requires id in Exec(es).tables.jobs && !Active(Exec(es), id)
    ensures var s := Exec(es);
      && (HasRun(s, id) ==>
            && id in s.writer && s.writer[id] < |s.runs| && s.runs[s.writer[id]].job == id
            && s.tables.jobs[id].run.status == StatusText(s.runs[s.writer[id]].outcome)
            && s.tables.jobs[id].run.sizeBytes == JobSize(s.runs[s.writer[id]].outcome)
            && s.tables.jobs[id].run.status in {"success", "failed"})
      && (!HasRun(s, id) ==> s.tables.jobs[id].run == NEVER_RUN)
  {
    ExecTracked(es);
    var s := Exec(es);
    assert StatusOk(s, id);
  }

  /** In every interleaving a job shows "running" exactly when the run that reported last has
      not reported its outcome yet. */
  lemma ShowsRunningIff(es: seq<Event>, id: int)
    requires id in Exec(es).tables.jobs
    ensures var s := Exec(es);
      s.tables.jobs[id].run.status == "running" <==>
        id in s.writer && s.writer[id] < |s.runs| && s.runs[s.writer[id]].pc in {Marked, Logged, Finished}
  {
    ExecTracked(es);
    assert StatusOk(Exec(es), id);
  }

  /** So an overlapping run can hide another one: when `j` reports its outcome, the job shows
      it although `i` is still under way. */
  lemma OverlapHidesRunning(s: State, i: nat, j: nat, e: Event)
    requires i < |s.runs| && j < |s.runs| && i != j && s.runs[i].job == s.runs[j].job && s.runs[i].job in s.tables.jobs
    requires s.runs[i].pc.Logged? && s.runs[j].pc.Finished? && e.Advance? && e.run == j
    ensures var t, id := Step(s, e), s.runs[i].job;
      && Active(t, id) && id in t.tables.jobs && t.tables.jobs[id].run.status == StatusText(s.runs[j].outcome)
  {
    assert Step(s, e).runs[i] == s.runs[i];
  }

  /** Job 1 has two runs, which stand at `p` and `q`. */
  ghost predicate TwoRuns(s: State, p: Pc, q: Pc) {
    && |s.runs| == 2 && s.runs[0].job == s.runs[1].job == 1 && 1 in s.tables.jobs
    && s.runs[0].pc == p && s.runs[1].pc == q
  }

  /** Where a run stands after its next step. */
  function Next(p: Pc): Pc {
    match p
    case Loaded => Marked
    case Marked => Logged
    case Logged => Finished
    case Finished => Closing
    case Closing => Done
    case Done => Done
  }

  lemma TwoRunsAdvance(s: State, p: Pc, q: Pc, e: Event)
    requires TwoRuns(s, p, q) && e.Advance? && e.run < 2
    ensures if e.run == 0 then TwoRuns(Step(s, e), Next(p), q) else TwoRuns(Step(s, e), p, Next(q))
    ensures q.Logged? && e.run == 1 ==>
      Step(s, e).runs[1].outcome == if Supported(s.runs[1].dbType) then e.outcome else DumpFailed
    ensures s.runs[1].dbType == Step(s, e).runs[1].dbType
  {}

  /** A job is created and started twice. */
  function Started(config: Config, clock: Archive.Clock, trigger: string): seq<Event> {
    [Edit(Create(config, NEVER_RUN, 0))] + [Begin(1, trigger, clock)] + [Begin(1, trigger, clock)]
  }

  lemma BothStarted(config: Config, clock: Archive.Clock, trigger: string)
    requires clock.Valid()
    ensures TwoRuns(Exec(Started(config, clock, trigger)), Loaded, Loaded)
    ensures Exec(Started(config, clock, trigger)).runs[1].dbType == config.dbType
  {
    var w := Edit(Create(config, NEVER_RUN, 0));
    assert [] + [w] == [w] && Exec([]) == INIT;
    ExecSnoc([], w);
    ExecSnoc([w], Begin(1, trigger, clock));
    ExecSnoc([w] + [Begin(1, trigger, clock)], Begin(1, trigger, clock));
    hide Exec, Archive.ArchiveName;
  }

  /** A run that comes to it: of two runs of any job the second reports its outcome while the
      first is still at work, and the job no longer shows "running". */
  lemma OverlapIsReached(config: Config, clock: Archive.Clock, trigger: string, outcome: Outcome, d: int,
                         logs: string, now: int)
    requires clock.Valid()
    ensures var a, b := Advance(0, outcome, d, logs, now), Advance(1, outcome, d, logs, now);
      var s := Exec(Started(config, clock, trigger) + [a] + [a] + [b] + [b] + [b] + [b]);
      && TwoRuns(s, Logged, Closing) && Active(s, 1)
      && s.tables.jobs[1].run.status == StatusText(if Supported(config.dbType) then outcome else DumpFailed)
  {
    var a, b := Advance(0, outcome, d, logs, now), Advance(1, outcome, d, logs, now);
    var es := Started(config, clock, trigger);
    BothStarted(config, clock, trigger);
    hide *;
    TwoRunsMore(es, Loaded, Loaded, a, config.dbType);
    TwoRunsMore(es + [a], Marked, Loaded, a, config.dbType);
    TwoRunsMore(es + [a] + [a], Logged, Loaded, b, config.dbType);
    TwoRunsMore(es + [a] + [a] + [b], Logged, Marked, b, config.dbType);
    TwoRunsMore(es + [a] + [a] + [b] + [b], Logged, Logged, b, config.dbType);
    LastReports(es + [a] + [a] + [b] + [b] + [b], b);
  }

  lemma TwoRunsMore(es: seq<Event>, p: Pc, q: Pc, e: Event, dbType: string)
    requires TwoRuns(Exec(es), p, q) && Exec(es).runs[1].dbType == dbType && e.Advance? && e.run < 2 && !p.Done?
      && !q.Done?
    ensures var s := Exec(es + [e]);
      && TwoRuns(s, if e.run == 0 then Next(p) else p, if e.run == 1 then Next(q) else q) && s.runs[1].dbType == dbType
      && (q.Logged? && e.run == 1 ==> s.runs[1].outcome == if Supported(dbType) then e.outcome else DumpFailed)
  {
    TwoRunsAdvance(Exec(es), p, q, e);
    ExecSnoc(es, e);
  }

  lemma LastReports(es: seq<Event>, e: Event)
    requires TwoRuns(Exec(es), Logged, Finished) && e.Advance? && e.run == 1
    ensures var s := Exec(es + [e]);
      && TwoRuns(s, Logged, Closing) && Active(s, 1)
      && s.tables.jobs[1].run.status == StatusText(Exec(es).runs[1].outcome)
  {
    ExecSnoc(es, e);
    TwoRunsAdvance(Exec(es), Logged, Finished, e);
    OverlapHidesRunning(Exec(es), 0, 1, e);
  }

  // ---------------------------------------------------------------- one run by itself

  /** The tables after a run that nothing interleaves with. */
  function SerialRun(t: Tables, r: Run, outcome: Outcome, durationMs: int, logs: string,
                     marked: int, logged: int, reported: int, closed: int): Tables
  {
    var done := r.(outcome := if Supported(r.dbType) then outcome else DumpFailed,
                   durationMs := durationMs, logs := logs);
    var t1 := SetStatus(t, r.job, "running", 0, 0, marked);
    var t2 := InsertHistory(t1, RunningRow(r), logged);
    var t3 := SetStatus(t2, r.job, StatusText(done.outcome), durationMs, JobSize(done.outcome), reported);
    InsertHistory(t3, FinalRow(done), closed)
  }

  /** A run by itself is the five steps of the state machine in a row. */
  lemma SerialRunIsFiveSteps(s: State, i: nat, outcome: Outcome, durationMs: int, logs: string,
                             marked: int, logged: int, reported: int, closed: int)
    requires i < |s.runs| && s.runs[i].pc.Loaded?
    ensures var s1 := Step(s, Advance(i, outcome, durationMs, logs, marked));
      var s2 := Step(s1, Advance(i, outcome, durationMs, logs, logged));
      var s3 := Step(s2, Advance(i, outcome, durationMs, logs, 0));
      var s4 := Step(s3, Advance(i, outcome, durationMs, logs, reported));
      var s5 := Step(s4, Advance(i, outcome, durationMs, logs, closed));
      && s5.tables == SerialRun(s.tables, s.runs[i], outcome, durationMs, logs, marked, logged, reported, closed)
      && i < |s5.runs| && s5.runs[i].pc.Done?
  {
    var r := s.runs[i];
    var o := if Supported(r.dbType) then outcome else DumpFailed;
    var s1 := Step(s, Advance(i, outcome, durationMs, logs, marked));
    assert s1.runs[i] == r.(pc := Marked);
    assert RunningRow(s1.runs[i]) == RunningRow(r);
    var s2 := Step(s1, Advance(i, outcome, durationMs, logs, logged));
    var s3 := Step(s2, Advance(i, outcome, durationMs, logs, 0));
    assert s3.runs[i].outcome == o && s3.runs[i].pc == Finished && s3.tables == s2.tables;
    var s4 := Step(s3, Advance(i, outcome, durationMs, logs, reported));
    assert FinalRow(s4.runs[i]) == FinalRow(r.(outcome := o, durationMs := durationMs, logs := logs));
  }
}
