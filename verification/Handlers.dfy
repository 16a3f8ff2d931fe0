/** The job handlers of the web server: each changes the jobs table, then the scheduler. */
module Handlers {
  import opened Values
  import opened Schema
  import Database
  import GoText
  import S = Scheduler

  /** The fields of a submitted job form; a missing field is "". */
  datatype Form = Form(
    name: string, dbType: string, schedulePreset: string, scheduleCron: string,
    rcloneRemote: string, rclonePath: string, retentionCount: string, retentionDays: string,
    port: string, enabled: string, rest: seq<string>)

  datatype Response = BadRequest | NotFound | Redirect

  /** A request, with the id as it stands in the path; `None` is a body that does not parse. */
  datatype Request =
    | Create(form: Option<Form>)
    | Update(idText: string, form: Option<Form>)
    | Delete(idText: string)
    | Toggle(idText: string)

  // ---------------------------------------------------------------- forms

  const DAILY: string := "0 3 * * *"

  const PRESETS: set<string> := {"hourly", "every_6h", "every_12h", "daily_3am", "weekly", "custom"}

  /** `parseScheduleForm`. */
  function ParseScheduleForm(preset: string, cron: string): (r: (string, string))
    ensures r.0 != ""
    ensures r.1 == if preset in PRESETS then preset else "daily_3am"
    ensures r.1 == "custom" && cron != "" ==> r.0 == cron
  {
    match preset
    case "hourly" => ("0 * * * *", preset)
    case "every_6h" => ("0 */6 * * *", preset)
    case "every_12h" => ("0 */12 * * *", preset)
    case "daily_3am" => ("0 3 * * *", preset)
    case "weekly" => ("0 3 * * 0", preset)
    case "custom" => (if cron == "" then DAILY else cron, "custom")
    case _ => (DAILY, "daily_3am")
  }

  /** No port, or 0, means the default one. */
  function PortOf(text: string): (port: int)
    ensures port != 0
  {
    var port := GoText.AtoiOrZero(text);
    if port == 0 then 5432 else port
  }

  function ConfigOf(f: Form): Config {
    var (cron, preset) := ParseScheduleForm(f.schedulePreset, f.scheduleCron);
    Config(f.name, f.dbType, cron, preset, f.rcloneRemote, f.rclonePath,
           GoText.AtoiOrZero(f.retentionCount), GoText.AtoiOrZero(f.retentionDays), PortOf(f.port),
           f.enabled == "on" || f.enabled == "true", f.rest)
  }

  /** The form the edit dialog shows for a stored job and submits unless it is changed.  It
      shows 7, 30 and 5432 for numbers that are not positive, and a default for an empty path. */
  function FormOf(c: Config): Form {
    Form(c.name, if c.dbType == "sqlite" then "sqlite" else "postgres",
         c.schedulePreset, c.scheduleCron, c.rcloneRemote,
         if c.rclonePath == "" then "backups/" else c.rclonePath,
         if c.retentionCount > 0 then GoText.IntText(c.retentionCount) else "7",
         if c.retentionDays > 0 then GoText.IntText(c.retentionDays) else "30",
         if c.port > 0 then GoText.IntText(c.port) else "5432",
         if c.enabled then "on" else "", c.rest)
  }

  /** A schedule read from a form reads back unchanged. */
  lemma ScheduleStable(preset: string, cron: string)
    ensures var r := ParseScheduleForm(preset, cron);
      ParseScheduleForm(r.1, r.0) == r
  {}

  lemma CountStable(s: string, shown: string, default: string, value: int)
    requires shown == if GoText.AtoiOrZero(s) > 0 then GoText.IntText(GoText.AtoiOrZero(s)) else default
    requires GoText.AtoiOrZero(default) == value > 0
    ensures GoText.AtoiOrZero(shown) == if GoText.AtoiOrZero(s) > 0 then GoText.AtoiOrZero(s) else value
  {
    hide GoText.IntText;
    AtoiInRange(s);
    GoText.ParseIntText(GoText.AtoiOrZero(s));
    AtoiInRange(shown);
  }

  lemma AtoiInRange(s: string)
    ensures MIN_INT64 <= GoText.AtoiOrZero(s) <= MAX_INT64
    ensures GoText.ParseInt64(s).Some? ==> GoText.AtoiOrZero(s) == GoText.ParseInt64(s).value
  {}

  lemma Defaults()
    ensures GoText.AtoiOrZero("7") == 7 && GoText.AtoiOrZero("30") == 30
  {
    assert GoText.IntText(7) == "7";
    assert GoText.IntText(30) == "30" by { assert GoText.NatText(3) == "3"; }
    hide *;
    GoText.ParseIntText(7);
    GoText.ParseIntText(30);
    AtoiInRange("7");
    AtoiInRange("30");
  }

  lemma DefaultPort()
    ensures GoText.AtoiOrZero("5432") == 5432
  {
    assert GoText.NatText(5) == "5";
    assert GoText.NatText(54) == "54";
    assert GoText.NatText(543) == "543";
    assert GoText.IntText(5432) == "5432";
    hide *;
    GoText.ParseIntText(5432);
    AtoiInRange("5432");
  }

  lemma PortStable(text: string, shown: string)
    requires shown == if PortOf(text) > 0 then GoText.IntText(PortOf(text)) else "5432"
    ensures PortOf(shown) == if PortOf(text) > 0 then PortOf(text) else 5432
  {
    hide GoText.IntText, GoText.ParseInt64, GoText.AtoiOrZero;
    AtoiInRange(text);
    AtoiInRange(shown);
    DefaultPort();
    if PortOf(text) > 0 { GoText.ParseIntText(PortOf(text)); }
  }

  /** What submitting the edit dialog of a stored job without touching it stores. */
  lemma EditWithoutChange(f: Form)
    ensures var c := ConfigOf(f);
      ConfigOf(FormOf(c)) == c.(
        dbType := if c.dbType == "sqlite" then "sqlite" else "postgres",
        rclonePath := if c.rclonePath == "" then "backups/" else c.rclonePath,
        retentionCount := if c.retentionCount > 0 then c.retentionCount else 7,
        retentionDays := if c.retentionDays > 0 then c.retentionDays else 30,
        port := if c.port > 0 then c.port else 5432)
  {
    hide ParseScheduleForm, GoText.AtoiOrZero, GoText.IntText, PortOf;
    var c := ConfigOf(f);
    ScheduleStable(f.schedulePreset, f.scheduleCron);
    Defaults();
    CountStable(f.retentionCount, FormOf(c).retentionCount, "7", 7);
    CountStable(f.retentionDays, FormOf(c).retentionDays, "30", 30);
    PortStable(f.port, FormOf(c).port);
  }

  /** The dialog is faithful exactly to jobs with both retention rules on, a positive port, a
      path and a known database type: a stored "unlimited" (0) comes back as 7 backups or 30 days. */
  lemma EditDialogRoundTripIff(f: Form)
    ensures var c := ConfigOf(f);
      ConfigOf(FormOf(c)) == c <==>
        c.retentionCount > 0 && c.retentionDays > 0 && c.port > 0 && c.rclonePath != ""
          && c.dbType in {"postgres", "sqlite"}
  {
    hide ConfigOf, FormOf;
    EditWithoutChange(f);
  }

  // ---------------------------------------------------------------- one request

  datatype World = World(tables: Tables, index: S.Index)

  function Configured(w: World, parses: S.Parser, id: int, config: Config, now: int): World {
    World(SetConfig(w.tables, id, config, now), S.Sync(w.index, parses, id, config))
  }

  function Flipped(c: Config): Config {
    c.(enabled := !c.enabled)
  }

  /** The effect of one request served on its own. */
  function Serve(w: World, parses: S.Parser, r: Request, now: int): (World, Response) {
    match r
    case Create(form) =>
      if form.None? then (w, BadRequest)
      else
        var t := InsertJob(w.tables, ConfigOf(form.value), NEVER_RUN, now);
        (World(t, S.Sync(w.index, parses, t.jobSeq, ConfigOf(form.value))), Redirect)
    case Update(idText, form) =>
      var id := GoText.ParseInt64(idText);
      if id.None? then (w, BadRequest)
      else if id.value !in w.tables.jobs then (w, NotFound)
      else if form.None? then (w, BadRequest)
      else (Configured(w, parses, id.value, ConfigOf(form.value), now), Redirect)
    case Delete(idText) =>
      var id := GoText.ParseInt64(idText);
      if id.None? then (w, BadRequest)
      else (World(RemoveJob(w.tables, id.value), S.Remove(w.index, id.value)), Redirect)
    case Toggle(idText) =>
      var id := GoText.ParseInt64(idText);
      if id.None? then (w, BadRequest)
      else if id.value !in w.tables.jobs then (w, NotFound)
      else (Configured(w, parses, id.value, Flipped(w.tables.jobs[id.value].config), now), Redirect)
  }

  ghost predicate Synced(w: World, parses: S.Parser) {
    && S.Consistent(w.index) && S.Agrees(w.index, parses, w.tables.jobs)
    && (forall id :: id in w.tables.jobs ==> 1 <= id <= w.tables.jobSeq)
  }

  lemma ConfiguredKeepsSynced(w: World, parses: S.Parser, id: int, config: Config, now: int)
    requires Synced(w, parses) && id in w.tables.jobs
    ensures Synced(Configured(w, parses, id, config, now), parses)
  {
    hide S.Consistent, S.Sync, S.ScheduledAt;
    S.SyncIs(w.index, parses, id, config);
  }

  /** A request served on its own keeps scheduler and table in agreement. */
  lemma ServeKeepsSynced(w: World, parses: S.Parser, r: Request, now: int)
    requires Synced(w, parses)
    ensures Synced(Serve(w, parses, r, now).0, parses)
  {
    hide S.Consistent, S.Sync, S.Remove, S.ScheduledAt, ConfigOf, GoText.ParseInt64;
    match r
    case Create(form) =>
      if form.Some? { S.SyncIs(w.index, parses, w.tables.jobSeq + 1, ConfigOf(form.value)); }
    case Update(idText, form) =>
      var id := GoText.ParseInt64(idText);
      if id.Some? && id.value in w.tables.jobs && form.Some? {
        ConfiguredKeepsSynced(w, parses, id.value, ConfigOf(form.value), now);
      }
    case Delete(idText) =>
      var id := GoText.ParseInt64(idText);
      if id.Some? { S.RemoveKeepsConsistent(w.index, id.value); }
    case Toggle(idText) =>
      var id := GoText.ParseInt64(idText);
      if id.Some? && id.value in w.tables.jobs {
        ConfiguredKeepsSynced(w, parses, id.value, Flipped(w.tables.jobs[id.value].config), now);
      }
  }

  /** Requests served one after the other, each at its time. */
  function ServeAll(w: World, parses: S.Parser, rs: seq<(Request, int)>): World {
    if rs == [] then w
    else Serve(ServeAll(w, parses, rs[..|rs| - 1]), parses, rs[|rs| - 1].0, rs[|rs| - 1].1).0
  }

  lemma {:induction false} ServeAllKeepsSynced(w: World, parses: S.Parser, rs: seq<(Request, int)>)
    requires Synced(w, parses)
    ensures Synced(ServeAll(w, parses, rs), parses)
  {
    hide Synced, Serve;
    if rs != [] {
      ServeAllKeepsSynced(w, parses, rs[..|rs| - 1]);
      ServeKeepsSynced(ServeAll(w, parses, rs[..|rs| - 1]), parses, rs[|rs| - 1].0, rs[|rs| - 1].1);
    }
  }

  /** After `Start` on a fresh scheduler and any requests in series, the scheduled jobs and
      their expressions are exactly the enabled jobs whose expression is not empty and
      parses, and exactly what a fresh `Start` on the current table would schedule. */
  lemma SchedulerRefinesTable(t: Tables, rows: seq<Listed>, parses: S.Parser, rs: seq<(Request, int)>, now: seq<Listed>)
    requires Lists(rows, t.jobs) && forall id :: id in t.jobs ==> 1 <= id <= t.jobSeq
    requires Lists(now, ServeAll(World(t, S.StartOn(S.FRESH, parses, rows)), parses, rs).tables.jobs)
    ensures var w := ServeAll(World(t, S.StartOn(S.FRESH, parses, rows)), parses, rs);
      && Synced(w, parses)
      && S.Scheduled(w.index) == S.Scheduled(S.StartOn(S.FRESH, parses, now))
  {
    hide S.Consistent, S.Agrees, S.StartOn, S.Scheduled, Serve, ServeAll, Lists;
    S.StartAgrees(parses, rows, t.jobs);
    var start := World(t, S.StartOn(S.FRESH, parses, rows));
    ServeAllKeepsSynced(start, parses, rs);
    var w := ServeAll(start, parses, rs);
    S.StartAgrees(parses, now, w.tables.jobs);
    S.AgreesIsUnique(w.index, S.StartOn(S.FRESH, parses, now), parses, w.tables.jobs);
  }

  // ---------------------------------------------------------------- the handlers

  class Handler {
    const db: Database.DB
    const sched: S.JobScheduler

    constructor (db: Database.DB, sched: S.JobScheduler)
      ensures this.db == db && this.sched == sched
    {
      this.db, this.sched := db, sched;
    }

    ghost function View(): World
      reads db, sched, sched.cron
    {
      World(db.View(), sched.View())
    }

    method HandleJobCreate(form: Option<Form>, now: int) returns (r: Response)
      requires db.Valid()
      modifies db, sched, sched.cron
      ensures db.Valid() && (View(), r) == Serve(old(View()), sched.cron.parses, Request.Create(form), now)
    {
      hide S.Sync, ConfigOf;
      if form.None? { return BadRequest; }
      var job := new Database.BackupJob(0, ConfigOf(form.value), NEVER_RUN, 0, 0);
      db.CreateJob(job, now);
      sched.SyncJob(job);
      r := Redirect;
    }

    method HandleJobUpdate(idText: string, form: Option<Form>, now: int) returns (r: Response)
      requires db.Valid()
      modifies db, sched, sched.cron
      ensures db.Valid() && (View(), r) == Serve(old(View()), sched.cron.parses, Update(idText, form), now)
    {
      hide S.Sync, ConfigOf, GoText.ParseInt64;
      var id := GoText.ParseInt64(idText);
      if id.None? { return BadRequest; }
      var job := db.GetJob(id.value);
      if job == null { return NotFound; }
      if form.None? { return BadRequest; }
      job.config := ConfigOf(form.value);
      db.UpdateJob(job, now);
      sched.SyncJob(job);
      r := Redirect;
    }

    method HandleJobDelete(idText: string) returns (r: Response)
      requires db.Valid()
      modifies db, sched, sched.cron
      ensures db.Valid() && (View(), r) == Serve(old(View()), sched.cron.parses, Request.Delete(idText), 0)
    {
      hide S.Remove, GoText.ParseInt64;
      var id := GoText.ParseInt64(idText);
      if id.None? { return BadRequest; }
      sched.RemoveJob(id.value);
      db.DeleteJob(id.value);
      r := Redirect;
    }

    method HandleJobToggle(idText: string, now: int) returns (r: Response)
      requires db.Valid()
      modifies db, sched, sched.cron
      ensures db.Valid() && (View(), r) == Serve(old(View()), sched.cron.parses, Toggle(idText), now)
    {
      hide S.Sync, GoText.ParseInt64;
      var id := GoText.ParseInt64(idText);
      if id.None? { return BadRequest; }
      var job := db.GetJob(id.value);
      if job == null { return NotFound; }
      job.config := job.config.(enabled := !job.config.enabled);
      db.UpdateJob(job, now);
      sched.SyncJob(job);
      r := Redirect;
    }
  }
}
