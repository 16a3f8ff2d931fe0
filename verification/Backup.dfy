/** `RunBackup` and `handleFailure` as one uninterrupted call.  Docker, the file system, the
    clock and rclone are replaced by their outcomes. */
module Backup {
  import opened Values
  import opened Schema
  import opened Database
  import opened Runs
  import opened LogWriter
  import Archive
  import EventStream
  import Fanout
  import FanoutDelivery
  import GoText
  import LogEngine
  import Retention
  import RetentionFailures
  import Rclone

  /** Everything the call reads from its environment. */
  datatype Env = Env(
    clock: Archive.Clock, stamp: string,
    dumpWrites: seq<string>, dumpOk: bool,
    size: Option<int>,
    uploadWrites: seq<string>, uploadOk: bool, left: Option<Retention.Meta>, uploadTime: int,
    listOk: bool, fails: set<string>, now: int,
    error: string, durationMs: int, durationText: string,
    marked: int, logged: int, reported: int, closed: int)

  function OutcomeOf(dbType: string, env: Env): Outcome {
    if !Supported(dbType) || !env.dumpOk then DumpFailed
    else if env.size.None? then StatFailed
    else if !env.uploadOk then UploadFailed(env.size.value)
    else Succeeded(env.size.value)
  }

  function FileName(config: Config, env: Env): string
    requires env.clock.Valid()
  {
    Archive.ArchiveName(config.name, config.dbType, env.clock)
  }

  function PolicyOf(config: Config): Retention.Policy {
    Retention.Policy(config.retentionCount, config.retentionDays)
  }

  function LoadedRun(id: int, config: Config, trigger: string, env: Env): Run
    requires env.clock.Valid()
  {
    Run(id, config.name, config.dbType, trigger, FileName(config, env), Loaded, DumpFailed, 0, "", 0, 0)
  }

  // ---------------------------------------------------------------- the remote directory

  /** The directory once the archive has been uploaded. */
  function Stored(dir: Retention.Dir, config: Config, env: Env, size: int): Retention.Dir
    requires env.clock.Valid()
  {
    dir[FileName(config, env) := Retention.Meta(env.uploadTime, false, size)]
  }

  /** What a run makes of the remote directory. */
  ghost predicate RemoteEffect(dir: Retention.Dir, after: Retention.Dir, config: Config, env: Env)
    requires env.clock.Valid()
  {
    match OutcomeOf(config.dbType, env)
    case DumpFailed => after == dir
    case StatFailed => after == dir
    case UploadFailed(_) => after == if env.left.Some? then dir[FileName(config, env) := env.left.value] else dir
    case Succeeded(size) =>
      var stored := Stored(dir, config, env, size);
      if PolicyOf(config).Active() && !env.listOk then after == stored
      else Retention.Pass(stored, env.now, PolicyOf(config), env.fails, after)
  }

  /** The commands a run gives to rclone: none, or a failed upload, or a successful upload of
      its archive followed only by deletions of files that were there after the upload. */
  ghost predicate RunOps(added: seq<Rclone.RemoteOp>, dir: Retention.Dir, config: Config, env: Env)
    requires env.clock.Valid()
  {
    match OutcomeOf(config.dbType, env)
    case DumpFailed => added == []
    case StatFailed => added == []
    case UploadFailed(_) => added == [Rclone.Uploaded(FileName(config, env), false)]
    case Succeeded(size) =>
      && added != [] && added[0] == Rclone.Uploaded(FileName(config, env), true)
      && DeletionsWithin(added[1..], Stored(dir, config, env, size))
  }

  /** Without a policy there is nothing to do. */
  lemma NoPolicy(config: Config, env: Env, dir: Retention.Dir)
    ensures config.retentionCount <= 0 && config.retentionDays <= 0 ==>
      !PolicyOf(config).Active() && Retention.Pass(dir, env.now, PolicyOf(config), env.fails, dir)
    ensures DeletionsWithin([], dir)
  {}

  ghost predicate DeletionsWithin(ops: seq<Rclone.RemoteOp>, dir: Retention.Dir) {
    forall i :: 0 <= i < |ops| ==> ops[i].Deleted? && Retention.IsFile(dir, ops[i].name)
  }

  lemma DeletionsAre(ops: seq<Rclone.RemoteOp>, from: nat, dir: Retention.Dir)
    requires from <= |ops| && forall i :: from <= i < |ops| ==> ops[i].Deleted? && Retention.IsFile(dir, ops[i].name)
    ensures DeletionsWithin(ops[from..], dir)
  {}

  /** The remote directory and the commands given so far. */
  datatype Remote = Remote(dir: Retention.Dir, ops: seq<Rclone.RemoteOp>)

  /** One run as the remote sees it; `config` is `None` when the job does not exist. */
  ghost predicate RemoteStep(r: Remote, config: Option<Config>, env: Env, after: Remote)
    requires env.clock.Valid()
  {
    if config.None? then after == r
    else
      && RemoteEffect(r.dir, after.dir, config.value, env)
      && r.ops <= after.ops && RunOps(after.ops[|r.ops|..], r.dir, config.value, env)
  }

  // ---------------------------------------------------------------- runs in series

  datatype RemoteRun = RemoteRun(config: Option<Config>, env: Env)

  /** `trace[i]` is the remote before run `i`. */
  ghost predicate Series(trace: seq<Remote>, runs: seq<RemoteRun>) {
    && |trace| == |runs| + 1
    && forall i :: 0 <= i < |runs| ==>
         runs[i].env.clock.Valid() && RemoteStep(trace[i], runs[i].config, runs[i].env, trace[i + 1])
  }

  lemma SeriesPrefix(trace: seq<Remote>, runs: seq<RemoteRun>)
    requires Series(trace, runs) && runs != []
    ensures Series(trace[..|runs|], runs[..|runs| - 1])
  {
    hide RemoteStep;
  }

  /** Commands are never taken back. */
  lemma {:induction false} OpsGrow(trace: seq<Remote>, runs: seq<RemoteRun>, i: nat)
    requires Series(trace, runs) && i <= |runs|
    ensures trace[i].ops <= trace[|runs|].ops
  {
    if i < |runs| {
      var n := |runs| - 1;
      SeriesPrefix(trace, runs);
      OpsGrow(trace[..|runs|], runs[..n], i);
      assert RemoteStep(trace[n], runs[n].config, runs[n].env, trace[n + 1]);
      hide RunOps, RemoteEffect;
    }
  }

  /** Which run gave command `k`. */
  lemma {:induction false} CommandOfRun(trace: seq<Remote>, runs: seq<RemoteRun>, k: nat) returns (i: nat)
    requires Series(trace, runs) && |trace[0].ops| <= k < |trace[|runs|].ops|
    ensures i < |runs| && |trace[i].ops| <= k < |trace[i + 1].ops|
  {
    var n := |runs| - 1;
    if k < |trace[n].ops| {
      SeriesPrefix(trace, runs);
      i := CommandOfRun(trace[..|runs|], runs[..n], k);
    } else {
      i := n;
    }
  }

  /** Over any runs in series, every remote deletion belongs to a run that uploaded its own
      archive successfully before it, with nothing but deletions in between, and deletes a
      file that was there after that upload. */
  lemma DeletionsFollowOwnUpload(trace: seq<Remote>, runs: seq<RemoteRun>, k: nat) returns (i: nat)
    requires Series(trace, runs)
    requires |trace[0].ops| <= k < |trace[|runs|].ops| && trace[|runs|].ops[k].Deleted?
    ensures i < |runs| && runs[i].config.Some? && |trace[i].ops| < k < |trace[i + 1].ops|
    ensures var ops, config, env := trace[|runs|].ops, runs[i].config.value, runs[i].env;
      && env.clock.Valid() && OutcomeOf(config.dbType, env).Succeeded?
      && |trace[i].ops| < |ops| && ops[|trace[i].ops|] == Rclone.Uploaded(FileName(config, env), true)
      && (forall j :: |trace[i].ops| < j < k ==> ops[j].Deleted?)
      && Retention.IsFile(Stored(trace[i].dir, config, env, OutcomeOf(config.dbType, env).size), ops[k].name)
  {
    i := CommandOfRun(trace, runs, k);
    OpsGrow(trace, runs, i + 1);
    SeriesAt(trace, runs, i);
    hide RemoteStep, Series, Stored, FileName, OutcomeOf;
    DeletionInStep(trace[i], runs[i].config, runs[i].env, trace[i + 1], trace[|runs|].ops, k);
  }

  /** The same for the run that gave the command. */
  lemma DeletionInStep(r: Remote, config: Option<Config>, env: Env, after: Remote, ops: seq<Rclone.RemoteOp>, k: nat)
    requires env.clock.Valid() && RemoteStep(r, config, env, after) && after.ops <= ops
    requires |r.ops| <= k < |after.ops| && ops[k].Deleted?
    ensures config.Some? && OutcomeOf(config.value.dbType, env).Succeeded?
    ensures |r.ops| < k && ops[|r.ops|] == Rclone.Uploaded(FileName(config.value, env), true)
    ensures forall j :: |r.ops| < j < k ==> ops[j].Deleted?
    ensures Retention.IsFile(Stored(r.dir, config.value, env, OutcomeOf(config.value.dbType, env).size), ops[k].name)
  {
    OpsGrowInStep(r, config, env, after);
    hide RemoteStep, Stored, FileName, OutcomeOf, RunOps;
    var added := after.ops[|r.ops|..];
    CommandAt(r.ops, after.ops, ops, k);
    CommandAt(r.ops, after.ops, ops, |r.ops|);
    OwnUpload(added, r.dir, config.value, env, k - |r.ops|);
    forall j | |r.ops| < j < k ensures ops[j].Deleted? { CommandAt(r.ops, after.ops, ops, j); }
  }

  lemma OpsGrowInStep(r: Remote, config: Option<Config>, env: Env, after: Remote)
    requires env.clock.Valid() && RemoteStep(r, config, env, after)
    ensures r.ops <= after.ops && (|r.ops| < |after.ops| ==> config.Some?)
    ensures config.Some? ==> RunOps(after.ops[|r.ops|..], r.dir, config.value, env)
  {
    hide RemoteEffect, RunOps;
  }

  /** Command `k` of all is a command of the run that added it. */
  lemma CommandAt(before: seq<Rclone.RemoteOp>, after: seq<Rclone.RemoteOp>, ops: seq<Rclone.RemoteOp>, k: nat)
    requires before <= after <= ops && |before| <= k < |after|
    ensures ops[k] == after[|before|..][k - |before|]
  {
    assert after[k] == ops[k];
  }

  lemma OwnUpload(added: seq<Rclone.RemoteOp>, dir: Retention.Dir, config: Config, env: Env, k: nat)
    requires env.clock.Valid() && RunOps(added, dir, config, env) && k < |added| && added[k].Deleted?
    ensures k > 0 && OutcomeOf(config.dbType, env).Succeeded?
      && added[0] == Rclone.Uploaded(FileName(config, env), true)
    ensures forall j :: 0 < j < |added| ==> added[j].Deleted?
    ensures Retention.IsFile(Stored(dir, config, env, OutcomeOf(config.dbType, env).size), added[k].name)
  {
    hide Stored, FileName;
    assert forall j :: 0 < j < |added| ==> added[j] == added[1..][j - 1];
  }

  /** A file that is lost over runs in series was lost in a run that had uploaded. */
  lemma LostFile(trace: seq<Remote>, runs: seq<RemoteRun>, n: string) returns (i: nat)
    requires Series(trace, runs) && n in trace[0].dir && n !in trace[|runs|].dir
    ensures i < |runs| && n in trace[i].dir && n !in trace[i + 1].dir
    ensures runs[i].config.Some? && OutcomeOf(runs[i].config.value.dbType, runs[i].env).Succeeded?
  {
    SeriesLength(trace, runs);
    hide *;
    i := LostBefore(trace, runs, n, |runs|);
  }

  lemma {:induction false} LostBefore(trace: seq<Remote>, runs: seq<RemoteRun>, n: string, k: nat) returns (i: nat)
    requires Series(trace, runs) && k <= |runs| < |trace| && n in trace[0].dir && n !in trace[k].dir
    ensures i < |runs| && n in trace[i].dir && n !in trace[i + 1].dir
    ensures runs[i].config.Some? && OutcomeOf(runs[i].config.value.dbType, runs[i].env).Succeeded?
  {
    hide *;
    if n in trace[k - 1].dir {
      i := k - 1;
      SeriesAt(trace, runs, i);
      StepLoses(trace[i], runs[i].config, runs[i].env, trace[i + 1], n);
    } else {
      i := LostBefore(trace, runs, n, k - 1);
    }
  }

  lemma SeriesLength(trace: seq<Remote>, runs: seq<RemoteRun>)
    requires Series(trace, runs)
    ensures |trace| == |runs| + 1
  {
    hide RemoteStep;
  }

  lemma SeriesAt(trace: seq<Remote>, runs: seq<RemoteRun>, i: nat)
    requires Series(trace, runs) && i < |runs|
    ensures i + 1 < |trace| && runs[i].env.clock.Valid()
      && RemoteStep(trace[i], runs[i].config, runs[i].env, trace[i + 1])
  {
    hide RemoteStep;
  }

  lemma StepLoses(r: Remote, config: Option<Config>, env: Env, after: Remote, n: string)
    requires env.clock.Valid() && RemoteStep(r, config, env, after) && n in r.dir && n !in after.dir
    ensures config.Some? && OutcomeOf(config.value.dbType, env).Succeeded?
  {
    hide RemoteEffect, RunOps, OutcomeOf;
    if config.Some? && !OutcomeOf(config.value.dbType, env).Succeeded? {
      FailedRunRemovesNothing(r.dir, after.dir, config.value, env);
    }
  }

  /** The files other than the new archive that a failed run leaves: all of them. */
  lemma FailedRunRemovesNothing(dir: Retention.Dir, after: Retention.Dir, config: Config, env: Env)
    requires env.clock.Valid() && RemoteEffect(dir, after, config, env)
    requires !OutcomeOf(config.dbType, env).Succeeded?
    ensures dir.Keys <= after.Keys && forall n :: n in dir && n != FileName(config, env) ==> after[n] == dir[n]
  {}

  /** After a successful run with a positive count whose deletions succeed, at most that many
      files are left, and the new archive is one of them if it is strictly newest and not
      older than the age limit. */
  lemma SuccessfulRunBounds(dir: Retention.Dir, after: Retention.Dir, config: Config, env: Env)
    requires env.clock.Valid() && RemoteEffect(dir, after, config, env)
    requires OutcomeOf(config.dbType, env).Succeeded? && env.listOk
    ensures config.retentionCount > 0 && env.fails == {} ==> |RetentionFailures.Files(after)| <= config.retentionCount
    ensures
      && (forall n :: Retention.IsFile(dir, n) && n != FileName(config, env) ==> dir[n].modTime < env.uploadTime)
      && (config.retentionDays > 0 ==> !Retention.Expired(env.now, env.uploadTime, config.retentionDays))
      ==> Retention.IsFile(after, FileName(config, env))
  {
    var name, p := FileName(config, env), PolicyOf(config);
    var stored := Stored(dir, config, env, OutcomeOf(config.dbType, env).size);
    if config.retentionCount > 0 && env.fails == {} { RetentionFailures.CountIsBound(stored, env.now, p, after); }
    if (forall n :: Retention.IsFile(dir, n) && n != name ==> dir[n].modTime < env.uploadTime)
       && (config.retentionDays > 0 ==> !Retention.Expired(env.now, env.uploadTime, config.retentionDays)) {
      forall n | Retention.IsFile(stored, n) && n != name ensures stored[n].modTime < stored[name].modTime {
        assert Retention.IsFile(dir, n);
      }
      RetentionFailures.NewestSurvives(stored, env.now, p, env.fails, after, name);
    }
  }

  // ---------------------------------------------------------------- the log

  function Line(env: Env, text: string): (r: string)
    ensures NewlineTerminated(r)
  {
    "[" + env.stamp + "] " + text + "\n"
  }

  const FAILURE: string := "ERREUR : "

  const RETENTION: string := "Application des politiques de rétention..."

  /** Whatever the error says, the first message a failure broadcasts is shown as an error. */
  lemma FailureIsShownAsError(env: Env, error: string)
    requires '\n' !in env.stamp
    ensures var msgs := Messages(Line(env, FAILURE + error));
      msgs != [] && EventStream.LineClass(msgs[0]) == "log-error"
  {
    var front, rest := "[" + env.stamp + "] ", error + "\n";
    assert Line(env, FAILURE + error) == (front + FAILURE) + rest;
    assert '\n' !in front + FAILURE && front != "" && front[0] == '[';
    FailureWord();
    hide Line, FAILURE, EventStream.LineClass;
    FirstMessage(front + FAILURE, rest);
    EventStream.ErrorOutweighs(front, FAILURE, GoText.FirstLine(rest));
  }

  lemma FailureWord()
    ensures EventStream.LineClass(FAILURE) == "log-error"
  {
    assert GoText.FoundAt(FAILURE, "ERREUR", 0);
  }

  /** A write that starts with newline-free text is broadcast from that text on. */
  lemma FirstMessage(head: string, rest: string)
    requires '\n' !in head && head != "" && head[0] == '['
    ensures var msgs := Messages(head + rest);
      msgs != [] && msgs[0] == head + GoText.FirstLine(rest)
  {
    GoText.SplitConcat(head, rest, '\n');
    GoText.SplitNone(head, '\n');
    GoText.BlankIff(head + GoText.FirstLine(rest));
    assert (head + GoText.FirstLine(rest))[0] == '[';
  }

  /** The writer has written `done` since the engine was in state `start`. */
  ghost predicate Progress(w: SseWriter, start: Fanout.State, done: seq<string>)
    reads w, w.engine, w.engine.backing
  {
    && w.Ready() && w.buf == Buffer(done)
    && Fanout.WellFormed(start) && w.engine.View() == BroadcastAll(start, w.jobID, Stream(done))
  }

  lemma BufferIs(w: SseWriter, start: Fanout.State, done: seq<string>)
    requires Progress(w, start, done)
    ensures w.buf == Buffer(done)
  {}

  method Say(w: SseWriter, p: string, ghost start: Fanout.State, ghost done: seq<string>)
    requires Progress(w, start, done)
    modifies w, w.engine
    ensures Progress(w, start, done + [p]) && w.engine.backing == old(w.engine.backing)
    ensures w.buf == Buffer(done + [p])
  {
    BroadcastAllConcat(start, w.jobID, Stream(done), Messages(p));
    WriteSnoc(done, p);
    w.Write(p);
  }

  /** The writes of a subprocess or of a called function, one after the other. */
  method SayAll(w: SseWriter, ps: seq<string>, ghost start: Fanout.State, ghost done: seq<string>)
    requires Progress(w, start, done)
    modifies w, w.engine
    ensures Progress(w, start, done + ps) && w.engine.backing == old(w.engine.backing)
    decreases |ps|
  {
    hide *;
    if ps == [] {
      assert done + ps == done;
    } else {
      Say(w, ps[0], start, done);
      SayAll(w, ps[1..], start, done + [ps[0]]);
      assert done + [ps[0]] + ps[1..] == done + ps;
    }
  }

  /** The two lines `ApplyRetention` may write for each deletion. */
  function RetentionLines(ops: seq<Rclone.RemoteOp>, env: Env): seq<string> {
    if ops == [] then []
    else
      ["[Retention] Suppressing old backup: " + ops[0].name + "\n"]
      + (if ops[0].ok then [] else ["[Retention Error] Failed to delete " + ops[0].name + ": " + env.error + "\n"])
      + RetentionLines(ops[1..], env)
  }

  /** The log a run stores: a failed run stores everything written, a successful one all but
      its closing line. */
  function StoredLog(outcome: Outcome, writes: seq<string>): string
    requires writes != []
  {
    if outcome.Succeeded? then Buffer(writes[..|writes| - 1]) else Buffer(writes)
  }

  // ---------------------------------------------------------------- the run

  class BackupEngine {
    const db: DB
    const remote: Rclone.RcloneService
    const logs: LogEngine.Engine

    constructor (db: DB, remote: Rclone.RcloneService, logs: LogEngine.Engine)
      ensures this.db == db && this.remote == remote && this.logs == logs
    {
      this.db, this.remote, this.logs := db, remote, logs;
    }

    /** `handleFailure`. */
    method HandleFailure(id: int, h: BackupHistory, w: SseWriter, env: Env, ghost start: Fanout.State,
                         ghost done: seq<string>)
      returns (ghost writes: seq<string>)
      requires db.Valid() && Progress(w, start, done)
      modifies db, h, w, w.engine
      ensures db.Valid() && Progress(w, start, writes) && |writes| == |done| + 1
        && w.engine.backing == old(w.engine.backing)
      ensures var row := old(h.row).(durationMs := env.durationMs, status := "failed", logs := Buffer(writes));
        db.View() == InsertHistory(SetStatus(old(db.View()), id, "failed", env.durationMs, 0, env.reported),
                                   row, env.closed)
    {
      hide *;
      h.row := h.row.(durationMs := env.durationMs, status := "failed");
      Say(w, Line(env, FAILURE + env.error), start, done);
      writes := done + [Line(env, FAILURE + env.error)];
      h.row := h.row.(logs := w.buf);
      db.UpdateJobRunStatus(id, "failed", h.row.durationMs, 0, env.reported);
      db.CreateHistory(h, env.closed);
    }

    /** The end of a successful run: the log is taken before the closing line is written. */
    method Finish(id: int, h: BackupHistory, w: SseWriter, env: Env, ghost start: Fanout.State, ghost done: seq<string>)
      returns (ghost writes: seq<string>)
      requires db.Valid() && Progress(w, start, done) && w.buf == Buffer(done)
      modifies db, h, w, w.engine
      ensures db.Valid() && Progress(w, start, writes) && |writes| == |done| + 1 && writes[..|done|] == done
      ensures w.engine.backing == old(w.engine.backing)
      ensures var row := old(h.row).(durationMs := env.durationMs, status := "success", logs := Buffer(done));
        var reported := SetStatus(old(db.View()), id, "success", env.durationMs, row.sizeBytes, env.reported);
        db.View() == InsertHistory(reported, row, env.closed)
    {
      hide *;
      h.row := h.row.(durationMs := env.durationMs, status := "success", logs := w.buf);
      var line := Line(env, "Sauvegarde terminée avec succès en " + env.durationText + "s !");
      Say(w, line, start, done);
      writes := done + [line];
      db.UpdateJobRunStatus(id, "success", h.row.durationMs, h.row.sizeBytes, env.reported);
      db.CreateHistory(h, env.closed);
    }

    /** The call of `ApplyRetention`, whose error is discarded, and the commands it gave. */
    method Purge(config: Config, env: Env) returns (given: seq<Rclone.RemoteOp>)
      modifies remote
      ensures if PolicyOf(config).Active() && !env.listOk then remote.dir == old(remote.dir)
              else Retention.Pass(old(remote.dir), env.now, PolicyOf(config), env.fails, remote.dir)
      ensures old(remote.ops) <= remote.ops && given == remote.ops[|old(remote.ops)|..]
      ensures DeletionsWithin(given, old(remote.dir))
    {
      hide *;
      var before := |remote.ops|;
      var r := remote.ApplyRetention(PolicyOf(config), env.now, env.listOk, env.fails);
      DeletionsAre(remote.ops, before, old(remote.dir));
      given := remote.ops[before..];
    }

    /** The retention step. */
    method Retain(config: Config, w: SseWriter, env: Env, ghost start: Fanout.State, ghost done: seq<string>)
      returns (ghost writes: seq<string>)
      requires Progress(w, start, done)
      modifies remote, w, w.engine
      ensures Progress(w, start, writes) && w.engine.backing == old(w.engine.backing)
      ensures if PolicyOf(config).Active() && !env.listOk then remote.dir == old(remote.dir)
              else Retention.Pass(old(remote.dir), env.now, PolicyOf(config), env.fails, remote.dir)
      ensures old(remote.ops) <= remote.ops && DeletionsWithin(remote.ops[|old(remote.ops)|..], old(remote.dir))
    {
      hide *;
      writes := done;
      NoPolicy(config, env, remote.dir);
      if config.retentionCount > 0 || config.retentionDays > 0 {
        var line := Line(env, RETENTION);
        Say(w, line, start, done);
        var given := Purge(config, env);
        var lines := RetentionLines(given, env);
        SayAll(w, lines, start, done + [line]);
        writes := done + [line] + lines;
      } else {
        assert remote.ops[|old(remote.ops)|..] == [];
      }
    }

    /** From the dump to the retention step. */
    method Work(config: Config, h: BackupHistory, w: SseWriter, env: Env, ghost start: Fanout.State,
                ghost done: seq<string>)
      returns (outcome: Outcome, ghost writes: seq<string>)
      requires env.clock.Valid() && Progress(w, start, done) && h.row.sizeBytes == 0
      modifies remote, h, w, w.engine
      ensures outcome == OutcomeOf(config.dbType, env)
      ensures h.row == old(h.row).(sizeBytes := HistorySize(outcome))
      ensures Progress(w, start, writes) && w.engine.backing == old(w.engine.backing)
      ensures RemoteStep(old(Remote(remote.dir, remote.ops)), Some(config), env, Remote(remote.dir, remote.ops))
    {
      hide Progress, DeletionsWithin, Retention.Pass, Archive.ArchiveName, Line;
      writes := done;
      if !Supported(config.dbType) { return DumpFailed, writes; }
      SayAll(w, env.dumpWrites, start, writes);
      writes := writes + env.dumpWrites;
      if !env.dumpOk { return DumpFailed, writes; }
      if env.size.None? { return StatFailed, writes; }
      var size, name := env.size.value, FileName(config, env);
      h.row := h.row.(sizeBytes := size);
      var lines := [Line(env, "Archive locale générée : " + name), Line(env, "Envoi vers rclone...")]
        + env.uploadWrites;
      SayAll(w, lines, start, writes);
      writes := writes + lines;
      remote.Upload(name, Retention.Meta(env.uploadTime, false, size), env.uploadOk, env.left);
      if !env.uploadOk { return UploadFailed(size), writes; }
      var line := Line(env, "Envoi rclone réussi avec succès !");
      Say(w, line, start, writes);
      writes := writes + [line];
      ghost var uploaded := remote.ops;
      writes := Retain(config, w, env, start, writes);
      assert remote.ops[|old(remote.ops)|..][1..] == remote.ops[|uploaded|..];
      outcome := Succeeded(size);
    }

    /** `RunBackup`. */
    method RunBackup(id: int, trigger: string, env: Env)
      returns (h: BackupHistory?, ok: bool, ghost writes: seq<string>)
      requires db.Valid() && env.clock.Valid() && Idle()
      modifies db, remote, logs
      ensures db.Valid() && Idle()
      ensures id !in old(db.jobs) ==>
        h == null && !ok && db.View() == old(db.View()) && remote.dir == old(remote.dir)
          && remote.ops == old(remote.ops)
        && logs.View() == old(logs.View())
      ensures id in old(db.jobs) ==>
        var config := old(db.jobs)[id].config;
        var outcome := OutcomeOf(config.dbType, env);
        && h != null && ok == outcome.Succeeded? && writes != []
        && db.View() == SerialRun(old(db.View()), LoadedRun(id, config, trigger, env), outcome, env.durationMs,
                                  StoredLog(outcome, writes), env.marked, env.logged, env.reported, env.closed)
        && logs.View() == BroadcastAll(old(logs.View()), id, Stream(writes))
      ensures RemoteStep(old(Remote(remote.dir, remote.ops)),
                         if id in old(db.jobs) then Some(old(db.jobs)[id].config) else None,
                         env, Remote(remote.dir, remote.ops))
    {
      var job := db.GetJob(id);
      if job == null { return null, false, []; }
      h, ok, writes := RunLoaded(job, trigger, env);
    }

    /** The fan-out is in a state of its invariant and has not panicked. */
    ghost predicate Idle()
      reads logs, logs.backing
    {
      logs.Valid() && FanoutDelivery.Ledger(logs.View()) && logs.fault == Fanout.NoFault
    }

    method NewWriter(id: int) returns (w: SseWriter)
      requires Idle()
      ensures fresh(w) && w.engine == logs && w.jobID == id && Progress(w, logs.View(), [])
    {
      w := new SseWriter(id, logs);
    }

    /** What the writer's progress means for the engine. */
    lemma ProgressIs(w: SseWriter, start: Fanout.State, done: seq<string>)
      requires w.engine == logs && Progress(w, start, done)
      ensures Idle() && w.buf == Buffer(done)
      ensures Fanout.WellFormed(start) && logs.View() == BroadcastAll(start, w.jobID, Stream(done))
    {}

    /** `RunBackup` once the job is loaded. */
    method RunLoaded(job: BackupJob, trigger: string, env: Env)
      returns (h: BackupHistory, ok: bool, ghost writes: seq<string>)
      requires db.Valid() && env.clock.Valid() && Idle()
      modifies db, remote, logs
      ensures db.Valid() && Idle() && fresh(h) && writes != []
      ensures var config := old(job.config);
        var outcome := OutcomeOf(config.dbType, env);
        && ok == outcome.Succeeded?
        && db.View() == SerialRun(old(db.View()), LoadedRun(old(job.id), config, trigger, env), outcome, env.durationMs,
                                  StoredLog(outcome, writes), env.marked, env.logged, env.reported, env.closed)
        && logs.View() == BroadcastAll(old(logs.View()), old(job.id), Stream(writes))
      ensures RemoteStep(old(Remote(remote.dir, remote.ops)), Some(old(job.config)), env,
        Remote(remote.dir, remote.ops))
    {
      ghost var start, tables := logs.View(), db.View();
      hide *;
      var id, config := job.id, job.config;
      var w := NewWriter(id);
      ghost var row;
      h, ok, writes, row := Perform(id, config, trigger, w, env, start);
      ProgressIs(w, start, writes);
      SerialRunIs(tables, id, config, trigger, env, row, StoredLog(OutcomeOf(config.dbType, env), writes));
    }

    /** The run proper, from its first line to its last history row. */
    method Perform(id: int, config: Config, trigger: string, w: SseWriter, env: Env, ghost start: Fanout.State)
      returns (h: BackupHistory, ok: bool, ghost writes: seq<string>, ghost row: HistoryRow)
      requires db.Valid() && env.clock.Valid() && Progress(w, start, [])
      modifies db, remote, w, w.engine
      ensures db.Valid() && fresh(h) && writes != [] && Progress(w, start, writes)
        && w.engine.backing == old(w.engine.backing)
      ensures ok == OutcomeOf(config.dbType, env).Succeeded?
      ensures OpenRow(row, id, config, trigger, env)
      ensures var outcome := OutcomeOf(config.dbType, env);
        db.View() == CloseTables(OpenTables(old(db.View()), id, config, trigger, env), id,
                                 row.(sizeBytes := HistorySize(outcome)), outcome, StoredLog(outcome, writes), env)
      ensures RemoteStep(old(Remote(remote.dir, remote.ops)), Some(config), env, Remote(remote.dir, remote.ops))
    {
      hide *;
      ghost var done;
      h, done := Open(id, config, trigger, w, env, start);
      row := h.row;
      var outcome;
      outcome, done := Work(config, h, w, env, start, done);
      ok := outcome.Succeeded?;
      writes := Close(outcome, id, h, w, env, start, done);
    }

    /** From the first line to the first history row. */
    method Open(id: int, config: Config, trigger: string, w: SseWriter, env: Env, ghost start: Fanout.State)
      returns (h: BackupHistory, ghost done: seq<string>)
      requires db.Valid() && env.clock.Valid() && Progress(w, start, [])
      modifies db, w, w.engine
      ensures db.Valid() && fresh(h) && Progress(w, start, done) && w.engine.backing == old(w.engine.backing)
      ensures OpenRow(h.row, id, config, trigger, env) && h.row.sizeBytes == 0
      ensures db.View() == OpenTables(old(db.View()), id, config, trigger, env)
    {
      hide Progress, Line, FileName, SetStatus, InsertHistory;
      var line := Line(env, "Démarrage du backup '" + config.name + "' (Déclenchement: " + trigger + ")");
      Say(w, line, start, []);
      done := [] + [line];
      db.UpdateJobRunStatus(id, "running", 0, 0, env.marked);
      h := new BackupHistory(id, config.name, "running", FileName(config, env), trigger);
      db.CreateHistory(h, env.logged);
    }

    /** The outcome is reported and the last history row inserted. */
    method Close(outcome: Outcome, id: int, h: BackupHistory, w: SseWriter, env: Env, ghost start: Fanout.State,
                 ghost done: seq<string>)
      returns (ghost writes: seq<string>)
      requires db.Valid() && Progress(w, start, done)
      modifies db, h, w, w.engine
      ensures db.Valid() && Progress(w, start, writes) && writes != [] && w.engine.backing == old(w.engine.backing)
      ensures db.View() == CloseTables(old(db.View()), id, old(h.row), outcome, StoredLog(outcome, writes), env)
    {
      hide Progress, SetStatus, InsertHistory, Buffer, StoredLog;
      if !outcome.Succeeded? {
        writes := HandleFailure(id, h, w, env, start, done);
      } else {
        BufferIs(w, start, done);
        writes := Finish(id, h, w, env, start, done);
      }
      StoredLogIs(outcome, done, writes);
    }
  }

  lemma StoredLogIs(outcome: Outcome, done: seq<string>, writes: seq<string>)
    requires writes != []
    ensures outcome.Succeeded? && writes[..|writes| - 1] == done ==> StoredLog(outcome, writes) == Buffer(done)
    ensures !outcome.Succeeded? ==> StoredLog(outcome, writes) == Buffer(writes)
  {}

  // ---------------------------------------------------------------- the statements of a run

  ghost predicate OpenRow(row: HistoryRow, id: int, config: Config, trigger: string, env: Env)
    requires env.clock.Valid()
  {
    row == HistoryRow(row.id, id, config.name, "running", 0, 0, FileName(config, env), "", trigger, row.createdAt)
  }

  function OpenTables(t: Tables, id: int, config: Config, trigger: string, env: Env): Tables
    requires env.clock.Valid()
  {
    InsertHistory(SetStatus(t, id, "running", 0, 0, env.marked),
                  HistoryRow(0, id, config.name, "running", 0, 0, FileName(config, env), "", trigger, 0), env.logged)
  }

  function CloseTables(t: Tables, id: int, row: HistoryRow, outcome: Outcome, logs: string, env: Env): Tables {
    var status := if outcome.Succeeded? then "success" else "failed";
    var size := if outcome.Succeeded? then row.sizeBytes else 0;
    InsertHistory(SetStatus(t, id, status, env.durationMs, size, env.reported),
                  row.(durationMs := env.durationMs, status := status, logs := logs), env.closed)
  }

  /** The statements of `RunLoaded` are those of a serial run. */
  lemma SerialRunIs(t: Tables, id: int, config: Config, trigger: string, env: Env, row: HistoryRow, logs: string)
    requires env.clock.Valid() && OpenRow(row, id, config, trigger, env)
    ensures var o := OutcomeOf(config.dbType, env);
      SerialRun(t, LoadedRun(id, config, trigger, env), o, env.durationMs, logs, env.marked, env.logged, env.reported,
        env.closed)
      == CloseTables(OpenTables(t, id, config, trigger, env), id, row.(sizeBytes := HistorySize(o)), o, logs, env)
  {
    hide FileName, SetStatus;
  }
}
