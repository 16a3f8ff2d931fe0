/** Handlers, firing cron entries and backup runs interleaved.  Each handler is a thread
    whose steps are its calls into the database and the scheduler; the scheduler's lock and
    the single database connection make each call atomic, and nothing else is. */
module Interleaving {
  import opened Values
  import opened Schema
  import opened Scheduler
  import Handlers
  import Runs
  import Archive
  import GoText

  datatype Change = SetTo(config: Config) | Flip

  /** What a thread does next. */
  datatype Thread =
    | Creating(config: Config)              // insert the row, then synchronise
    | Loading(id: int, change: Change)      // load the row to update or toggle it
    | Writing(id: int, config: Config)      // write the configuration
    | Syncing(id: int, config: Config)      // synchronise the scheduler with it
    | Unscheduling(id: int)                 // remove the job from the scheduler
    | Deleting(id: int)                     // delete the row
    | Starting(job: int)                    // a fired entry about to run its job
    | Ended

  datatype State = State(runs: Runs.State, index: Index, threads: seq<Thread>)

  datatype Event =
    | Restart(rows: seq<Listed>)
    | Arrive(thread: Thread)
    | Fire(entry: nat)
    | Move(k: nat, now: int, clock: Archive.Clock)
    | Work(event: Runs.Event)

  const INIT: State := State(Runs.INIT, FRESH, [])

  function Jobs(s: State): map<int, JobRow> { s.runs.tables.jobs }

  function Seq(s: State): nat { s.runs.tables.jobSeq }

  function Edited(s: State, w: Write): Runs.State {
    Runs.Step(s.runs, Runs.Edit(w))
  }

  function Changed(config: Config, change: Change): Config {
    match change case SetTo(c) => c case Flip => Handlers.Flipped(config)
  }

  function DoMove(s: State, parses: Parser, k: nat, now: int, clock: Archive.Clock): (r: State)
    requires k < |s.threads|
    ensures |r.threads| == |s.threads|
  {
    match s.threads[k]
    case Creating(c) =>
      State(Edited(s, Create(c, NEVER_RUN, now)), s.index, s.threads[k := Syncing(Seq(s) + 1, c)])
    case Loading(id, change) =>
      s.(threads := s.threads[k := if id in Jobs(s) then Writing(id, Changed(Jobs(s)[id].config, change)) else Ended])
    case Writing(id, c) => State(Edited(s, Configure(id, c, now)), s.index, s.threads[k := Syncing(id, c)])
    case Syncing(id, c) => s.(index := Sync(s.index, parses, id, c), threads := s.threads[k := Ended])
    case Unscheduling(id) => s.(index := Remove(s.index, id), threads := s.threads[k := Deleting(id)])
    case Deleting(id) => State(Edited(s, Delete(id)), s.index, s.threads[k := Ended])
    case Starting(job) =>
      State(Runs.Step(s.runs, Runs.Begin(job, "scheduled", clock)), s.index, s.threads[k := Ended])
    case Ended => s
  }

  /** One event; an event that is not possible in `s` leaves it unchanged. */
  ghost function Step(s: State, parses: Parser, e: Event): State {
    match e
    case Restart(rows) => if Lists(rows, Jobs(s)) then s.(index := StartOn(FRESH, parses, rows), threads := []) else s
    case Arrive(t) => if t.Creating? || t.Loading? || t.Unscheduling? then s.(threads := s.threads + [t]) else s
    case Fire(n) => if n in s.index.live then s.(threads := s.threads + [Starting(s.index.live[n].job)]) else s
    case Move(k, now, clock) => if k < |s.threads| then DoMove(s, parses, k, now, clock) else s
    case Work(e) => if e.Edit? then s else s.(runs := Runs.Step(s.runs, e))
  }

  ghost function ExecFrom(s: State, parses: Parser, es: seq<Event>): State {
    if es == [] then s else Step(ExecFrom(s, parses, es[..|es| - 1]), parses, es[|es| - 1])
  }

  ghost function Exec(parses: Parser, es: seq<Event>): State {
    ExecFrom(INIT, parses, es)
  }

  // ---------------------------------------------------------------- safety of the scheduler

  ghost predicate ThreadOk(t: Thread, top: nat) {
    match t
    case Writing(id, _) => 1 <= id <= top
    case Syncing(id, _) => 1 <= id <= top
    case Starting(id) => 1 <= id <= top
    case _ => true
  }

  ghost predicate IdsOk(jobs: map<int, JobRow>, entries: map<int, nat>, top: nat) {
    && (forall id :: id in jobs ==> 1 <= id <= top)
    && (forall id :: id in entries ==> 1 <= id <= top)
  }

  ghost predicate Sound(s: State) {
    && Consistent(s.index)
    && IdsOk(Jobs(s), s.index.entries, Seq(s))
    && forall k :: 0 <= k < |s.threads| ==> ThreadOk(s.threads[k], Seq(s))
  }

  /** No step of a run touches ids or configurations. */
  lemma RunStepFrame(r: Runs.State, e: Runs.Event)
    requires !e.Edit?
    ensures var t := Runs.Step(r, e).tables;
      && t.jobs.Keys == r.tables.jobs.Keys && t.jobSeq == r.tables.jobSeq
      && forall id :: id in t.jobs ==> t.jobs[id].config == r.tables.jobs[id].config
  {
    hide Archive.ArchiveName;
  }

  lemma ThreadsGrow(threads: seq<Thread>, later: seq<Thread>, k: nat, top: nat, more: nat)
    requires k < |threads| == |later| && top <= more && later == threads[k := later[k]] && ThreadOk(later[k], more)
    requires forall i :: 0 <= i < |threads| ==> ThreadOk(threads[i], top)
    ensures forall i :: 0 <= i < |later| ==> ThreadOk(later[i], more)
  {}

  lemma MoveKeepsIds(s: State, parses: Parser, k: nat, now: int, clock: Archive.Clock)
    requires Sound(s) && k < |s.threads|
    ensures var t := DoMove(s, parses, k, now, clock);
      Consistent(t.index) && IdsOk(Jobs(t), t.index.entries, Seq(t)) && Seq(s) <= Seq(t)
      && |t.threads| == |s.threads| && ThreadOk(t.threads[k], Seq(t)) && t.threads == s.threads[k := t.threads[k]]
  {
    hide Consistent, Sync, Remove;
    assert ThreadOk(s.threads[k], Seq(s));
    match s.threads[k]
    case Syncing(id, c) => SyncIs(s.index, parses, id, c);
    case Unscheduling(id) => RemoveKeepsConsistent(s.index, id);
    case Starting(job) => RunStepFrame(s.runs, Runs.Begin(job, "scheduled", clock));
    case _ =>
  }

  lemma RestartKeepsSound(s: State, parses: Parser, rows: seq<Listed>)
    requires Sound(s) && Lists(rows, Jobs(s))
    ensures Sound(Step(s, parses, Restart(rows)))
    ensures Agrees(Step(s, parses, Restart(rows)).index, parses, Jobs(s))
  {
    StartAgrees(parses, rows, Jobs(s));
    var index := StartOn(FRESH, parses, rows);
    forall id | id in index.entries ensures id in Jobs(s) {
      assert ScheduledAt(index, id) == WantedAt(parses, Jobs(s), id);
    }
  }

  lemma StepKeepsSound(s: State, parses: Parser, e: Event)
    requires Sound(s)
    ensures Sound(Step(s, parses, e))
  {
    match e
    case Restart(rows) => if Lists(rows, Jobs(s)) { RestartKeepsSound(s, parses, rows); }
    case Arrive(t) =>
    case Fire(n) =>
    case Move(k, now, clock) =>
      if k < |s.threads| {
        hide Consistent, IdsOk, DoMove;
        var t := DoMove(s, parses, k, now, clock);
        MoveKeepsIds(s, parses, k, now, clock);
        ThreadsGrow(s.threads, t.threads, k, Seq(s), Seq(t));
      }
    case Work(r) =>
      if !r.Edit? {
        hide Consistent, Runs.Step;
        RunStepFrame(s.runs, r);
      }
  }

  /** In every interleaving: the index is injective, its values are exactly the live cron
      entries, each entry fires the job it is keyed by, and only ids that were given out are
      scheduled. */
  lemma {:induction false} SchedulerSafety(parses: Parser, es: seq<Event>)
    ensures Sound(Exec(parses, es))
  {
    if es != [] {
      hide Sound, Step;
      SchedulerSafety(parses, es[..|es| - 1]);
      StepKeepsSound(Exec(parses, es[..|es| - 1]), parses, es[|es| - 1]);
    } else {
      assert Sound(INIT);
    }
  }

  // ---------------------------------------------------------------- the runs inside

  /** The event of the runs that `e` is, if any. */
  ghost function RunEvent(s: State, e: Event): seq<Runs.Event> {
    match e
    case Move(k, now, clock) =>
      if k >= |s.threads| then []
      else (match s.threads[k]
        case Creating(c) => [Runs.Edit(Create(c, NEVER_RUN, now))]
        case Writing(id, c) => [Runs.Edit(Configure(id, c, now))]
        case Deleting(id) => [Runs.Edit(Delete(id))]
        case Starting(job) => [Runs.Begin(job, "scheduled", clock)]
        case _ => [])
    case Work(r) => if r.Edit? then [] else [r]
    case _ => []
  }

  ghost function Project(parses: Parser, es: seq<Event>): seq<Runs.Event> {
    if es == [] then []
    else Project(parses, es[..|es| - 1]) + RunEvent(Exec(parses, es[..|es| - 1]), es[|es| - 1])
  }

  lemma StepIsRunEvent(s: State, parses: Parser, e: Event)
    ensures var r := RunEvent(s, e);
      Step(s, parses, e).runs == if r == [] then s.runs else Runs.Step(s.runs, r[0])
    ensures |RunEvent(s, e)| <= 1
  {
    hide Runs.Step, Sync, Remove, StartOn;
  }

  /** Seen through its tables and runs alone, every interleaving is a run of the machine of
      module `Runs`: all that is proved there holds beside handlers and the scheduler. */
  lemma {:induction false} RunsAreRuns(parses: Parser, es: seq<Event>)
    ensures Exec(parses, es).runs == Runs.Exec(Project(parses, es))
  {
    if es != [] {
      var before := es[..|es| - 1];
      var s, e := Exec(parses, before), es[|es| - 1];
      RunsAreRuns(parses, before);
      var r := RunEvent(s, e);
      hide RunEvent, Step, Runs.Step, Runs.Exec;
      StepIsRunEvent(s, parses, e);
      if r == [] {
        assert Project(parses, es) == Project(parses, before);
      } else {
        assert r == [r[0]];
        Runs.ExecSnoc(Project(parses, before), r[0]);
      }
    } else {
      assert Runs.Exec([]) == Runs.INIT;
    }
  }

  /** A fired entry whose job row is gone changes neither table and starts no run. */
  lemma OrphanDoesNothing(s: State, parses: Parser, k: nat, now: int, clock: Archive.Clock)
    requires k < |s.threads| && s.threads[k].Starting? && s.threads[k].job !in Jobs(s)
    ensures Step(s, parses, Move(k, now, clock)) == s.(threads := s.threads[k := Ended])
  {}

  ghost predicate Gone(s: State, id: int) {
    1 <= id <= Seq(s) && id !in Jobs(s)
  }

  function RunsOf(runs: seq<Runs.Run>, id: int): nat {
    if runs == [] then 0 else RunsOf(runs[..|runs| - 1], id) + if runs[|runs| - 1].job == id then 1 else 0
  }

  lemma {:induction false} RunsOfUpdate(runs: seq<Runs.Run>, i: nat, r: Runs.Run, id: int)
    requires i < |runs| && r.job == runs[i].job
    ensures RunsOf(runs[i := r], id) == RunsOf(runs, id)
  {
    var n := |runs| - 1;
    if i == n { assert runs[i := r][..n] == runs[..n]; }
    else {
      RunsOfUpdate(runs[..n], i, r, id);
      assert runs[i := r][..n] == runs[..n][i := r];
    }
  }

  lemma RunsOfSnoc(runs: seq<Runs.Run>, r: Runs.Run, id: int)
    ensures RunsOf(runs + [r], id) == RunsOf(runs, id) + if r.job == id then 1 else 0
  {
    assert (runs + [r])[..|runs|] == runs;
  }

  lemma RunStepGone(r: Runs.State, e: Runs.Event, id: int)
    requires 1 <= id <= r.tables.jobSeq && id !in r.tables.jobs
    ensures var t := Runs.Step(r, e);
      id <= t.tables.jobSeq && id !in t.tables.jobs && RunsOf(t.runs, id) == RunsOf(r.runs, id)
  {
    hide Archive.ArchiveName;
    match e
    case Begin(job, trigger, clock) =>
      if job in r.tables.jobs && clock.Valid() {
        var t := Runs.Step(r, e);
        RunsOfSnoc(r.runs, t.runs[|r.runs|], id);
      }
    case Advance(i, o, d, l, now) =>
      if i < |r.runs| {
        hide RunsOf;
        var t := Runs.Step(r, e);
        RunsOfUpdate(r.runs, i, t.runs[i], id);
        assert t.runs == r.runs[i := t.runs[i]];
      }
    case Edit(w) =>
  }

  /** Once a job's row is gone no run of it ever begins again, whatever fires and whichever
      handlers are still on their way. */
  lemma {:induction false} GoneJobNeverRuns(s: State, parses: Parser, es: seq<Event>, id: int)
    requires Gone(s, id)
    ensures var t := ExecFrom(s, parses, es);
      Gone(t, id) && RunsOf(t.runs.runs, id) == RunsOf(s.runs.runs, id)
  {
    if es != [] {
      var u, e := ExecFrom(s, parses, es[..|es| - 1]), es[|es| - 1];
      GoneJobNeverRuns(s, parses, es[..|es| - 1], id);
      StepIsRunEvent(u, parses, e);
      var r := RunEvent(u, e);
      hide Step, RunEvent, Runs.Step, RunsOf;
      if r != [] { RunStepGone(u.runs, r[0], id); }
    }
  }

  // ---------------------------------------------------------------- agreement, job by job

  predicate Concerns(t: Thread, id: int) {
    match t
    case Loading(j, _) => j == id
    case Writing(j, _) => j == id
    case Syncing(j, _) => j == id
    case Unscheduling(j) => j == id
    case Deleting(j) => j == id
    case _ => false
  }

  /** No two handlers are at work on this job. */
  ghost predicate AtMostOne(s: State, id: int) {
    forall i, k :: 0 <= i < k < |s.threads| ==> !(Concerns(s.threads[i], id) && Concerns(s.threads[k], id))
  }

  ghost predicate Idle(s: State, id: int) {
    forall k :: 0 <= k < |s.threads| ==> !Concerns(s.threads[k], id)
  }

  /** Scheduler and table agree about this job. */
  ghost predicate AgreesOn(s: State, parses: Parser, id: int) {
    ScheduledAt(s.index, id) == WantedAt(parses, Jobs(s), id)
  }

  /** What holds of the job while a handler is at this point of its work on it. */
  ghost predicate Phase(s: State, parses: Parser, t: Thread, id: int) {
    match t
    case Loading(_, _) => AgreesOn(s, parses, id)
    case Writing(_, _) => AgreesOn(s, parses, id) && id in Jobs(s)
    case Syncing(_, c) => id in Jobs(s) && Jobs(s)[id].config == c
    case Unscheduling(_) => AgreesOn(s, parses, id)
    case Deleting(_) => ScheduledAt(s.index, id) == None
    case _ => true
  }

  ghost predicate Tracks(s: State, parses: Parser, id: int) {
    && (forall k :: 0 <= k < |s.threads| && Concerns(s.threads[k], id) ==> Phase(s, parses, s.threads[k], id))
    && (Idle(s, id) ==> AgreesOn(s, parses, id))
  }

  /** Nothing about job `id` differs between `s` and `t`. */
  ghost predicate SameJob(s: State, t: State, id: int) {
    && (id in Jobs(s) <==> id in Jobs(t))
    && (id in Jobs(s) ==> Jobs(s)[id].config == Jobs(t)[id].config)
    && ScheduledAt(s.index, id) == ScheduledAt(t.index, id)
  }

  /** The same handlers are at the same point of their work on the job, besides new ones that
      have not begun. */
  ghost predicate SameThreads(s: State, t: State, id: int) {
    && |s.threads| <= |t.threads|
    && (forall k :: 0 <= k < |s.threads| ==>
          t.threads[k] == s.threads[k] || !(Concerns(s.threads[k], id) || Concerns(t.threads[k], id)))
    && (forall k :: |s.threads| <= k < |t.threads| ==>
          t.threads[k].Loading? || t.threads[k].Unscheduling? || !Concerns(t.threads[k], id))
  }

  lemma PhaseSame(s: State, t: State, parses: Parser, th: Thread, id: int)
    requires SameJob(s, t, id)
    ensures Phase(s, parses, th, id) <==> Phase(t, parses, th, id)
    ensures AgreesOn(s, parses, id) <==> AgreesOn(t, parses, id)
  {}

  lemma SameTracks(s: State, t: State, parses: Parser, id: int)
    requires Tracks(s, parses, id) && SameJob(s, t, id) && SameThreads(s, t, id) && AtMostOne(t, id)
    ensures Tracks(t, parses, id)
  {
    hide SameJob, AgreesOn;
    forall th ensures Phase(s, parses, th, id) <==> Phase(t, parses, th, id) { PhaseSame(s, t, parses, th, id); }
    PhaseSame(s, t, parses, Ended, id);
    if Idle(t, id) {
      assert Idle(s, id) by {
        forall k | 0 <= k < |s.threads| ensures !Concerns(s.threads[k], id) { assert !Concerns(t.threads[k], id); }
      }
    }
    forall k | 0 <= k < |t.threads| && Concerns(t.threads[k], id) ensures Phase(t, parses, t.threads[k], id) {
      if k >= |s.threads| {
        assert Idle(s, id) by {
          forall i | 0 <= i < |s.threads| ensures !Concerns(s.threads[i], id) { assert 0 <= i < k < |t.threads|; }
        }
      }
    }
  }

  /** A step of a handler on another job, or of no handler. */
  lemma OtherMove(s: State, parses: Parser, k: nat, now: int, clock: Archive.Clock, id: int)
    requires Sound(s) && k < |s.threads| && !Concerns(s.threads[k], id)
    requires s.threads[k].Creating? ==> id != Seq(s) + 1
    ensures var t := DoMove(s, parses, k, now, clock);
      SameJob(s, t, id) && SameThreads(s, t, id)
  {
    hide Consistent, Sync, Remove, ScheduledAt, Runs.DoBegin;
    match s.threads[k]
    case Syncing(j, c) => SyncIs(s.index, parses, j, c);
    case Unscheduling(j) => RemoveKeepsConsistent(s.index, j);
    case Starting(job) => RunStepFrame(s.runs, Runs.Begin(job, "scheduled", clock));
    case _ =>
  }

  /** A step of the one handler at work on the job. */
  lemma OwnMove(s: State, parses: Parser, k: nat, now: int, clock: Archive.Clock, id: int)
    requires Sound(s) && k < |s.threads| && Concerns(s.threads[k], id) && Phase(s, parses, s.threads[k], id)
    ensures var t := DoMove(s, parses, k, now, clock);
      && t.threads == s.threads[k := t.threads[k]]
      && (if Concerns(t.threads[k], id) then Phase(t, parses, t.threads[k], id) else AgreesOn(t, parses, id))
  {
    hide Consistent, Sync, Remove, ScheduledAt;
    match s.threads[k]
    case Syncing(j, c) => SyncIs(s.index, parses, j, c);
    case Unscheduling(j) => RemoveKeepsConsistent(s.index, j);
    case _ =>
  }

  lemma OwnMoveTracks(s: State, t: State, parses: Parser, k: nat, id: int)
    requires k < |s.threads| && Concerns(s.threads[k], id) && AtMostOne(s, id)
    requires |t.threads| == |s.threads| && t.threads == s.threads[k := t.threads[k]]
    requires if Concerns(t.threads[k], id) then Phase(t, parses, t.threads[k], id) else AgreesOn(t, parses, id)
    ensures Tracks(t, parses, id)
  {
    hide Phase, AgreesOn;
    forall i | 0 <= i < |t.threads| && i != k ensures !Concerns(t.threads[i], id) {
      if i < k { assert 0 <= i < k < |s.threads|; } else { assert 0 <= k < i < |s.threads|; }
    }
  }

  /** A job is created: nothing was known under its id before. */
  lemma Created(s: State, parses: Parser, k: nat, now: int, clock: Archive.Clock)
    requires Sound(s) && k < |s.threads| && s.threads[k].Creating?
    requires AtMostOne(DoMove(s, parses, k, now, clock), Seq(s) + 1)
    ensures Tracks(DoMove(s, parses, k, now, clock), parses, Seq(s) + 1)
  {
    hide Consistent, AgreesOn;
    var t, id := DoMove(s, parses, k, now, clock), Seq(s) + 1;
    assert t.threads[k] == Syncing(id, s.threads[k].config);
    forall i | 0 <= i < |t.threads| && i != k ensures !Concerns(t.threads[i], id) {
      if i < k { assert 0 <= i < k < |t.threads|; } else { assert 0 <= k < i < |t.threads|; }
    }
  }

  lemma MoveKeepsTracks(s: State, parses: Parser, k: nat, now: int, clock: Archive.Clock, id: int)
    requires Sound(s) && k < |s.threads| && Tracks(s, parses, id) && AtMostOne(s, id)
    requires AtMostOne(DoMove(s, parses, k, now, clock), id)
    ensures Tracks(DoMove(s, parses, k, now, clock), parses, id)
  {
    var t := DoMove(s, parses, k, now, clock);
    if Concerns(s.threads[k], id) {
      hide DoMove, Sound, AtMostOne;
      OwnMove(s, parses, k, now, clock, id);
      OwnMoveTracks(s, t, parses, k, id);
    } else if s.threads[k].Creating? && id == Seq(s) + 1 {
      hide DoMove, Sound, Tracks, AtMostOne;
      Created(s, parses, k, now, clock);
    } else {
      hide DoMove, Sound, Tracks, AtMostOne;
      OtherMove(s, parses, k, now, clock, id);
      SameTracks(s, t, parses, id);
    }
  }

  lemma StepKeepsTracks(s: State, parses: Parser, e: Event, id: int)
    requires Sound(s) && Tracks(s, parses, id) && AtMostOne(s, id) && AtMostOne(Step(s, parses, e), id)
    ensures Tracks(Step(s, parses, e), parses, id)
  {
    var t := Step(s, parses, e);
    match e
    case Restart(rows) =>
      if Lists(rows, Jobs(s)) { RestartKeepsSound(s, parses, rows); }
    case Arrive(th) => hide Sound, Tracks, AtMostOne; SameTracks(s, t, parses, id);
    case Fire(n) => hide Sound, Tracks, AtMostOne; SameTracks(s, t, parses, id);
    case Move(k, now, clock) =>
      if k < |s.threads| { hide DoMove, Sound, Tracks, AtMostOne; MoveKeepsTracks(s, parses, k, now, clock, id); }
    case Work(r) =>
      if !r.Edit? {
        hide Sound, Tracks, AtMostOne, Runs.Step;
        RunStepFrame(s.runs, r);
        SameTracks(s, t, parses, id);
      }
  }

  lemma {:induction false} ExecTracks(parses: Parser, es: seq<Event>, id: int)
    requires forall n :: 0 <= n <= |es| ==> AtMostOne(Exec(parses, es[..n]), id)
    ensures Tracks(Exec(parses, es), parses, id)
  {
    if es == [] {
      assert Exec(parses, es) == INIT;
    } else {
      var before := es[..|es| - 1];
      forall n | 0 <= n <= |before| ensures AtMostOne(Exec(parses, before[..n]), id) { assert before[..n] == es[..n]; }
      assert es[..|es|] == es;
      assert AtMostOne(Exec(parses, es[..|es| - 1]), id) && AtMostOne(Exec(parses, es[..|es|]), id);
      hide Tracks, AtMostOne, Step, Sound;
      ExecTracks(parses, before, id);
      SchedulerSafety(parses, before);
      StepKeepsTracks(Exec(parses, before), parses, es[|es| - 1], id);
    }
  }

  /** If no two handlers ever overlap on a job, then whenever none is at work on it the
      scheduler has it under exactly the expression its row asks for, however handlers of
      other jobs, firing entries and runs interleave. */
  lemma JobAgrees(parses: Parser, es: seq<Event>, id: int)
    requires forall n :: 0 <= n <= |es| ==> AtMostOne(Exec(parses, es[..n]), id)
    requires Idle(Exec(parses, es), id)
    ensures ScheduledAt(Exec(parses, es).index, id) == WantedAt(parses, Jobs(Exec(parses, es)), id)
  {
    hide Exec, Idle;
    ExecTracks(parses, es, id);
  }

  /** If no two handlers ever overlap on any job, a scheduler left alone is what a fresh
      `Start` on its current table would build. */
  lemma QuietSchedulerIsFreshStart(parses: Parser, es: seq<Event>, rows: seq<Listed>)
    requires forall n, id :: 0 <= n <= |es| ==> AtMostOne(Exec(parses, es[..n]), id)
    requires forall id :: Idle(Exec(parses, es), id)
    requires Lists(rows, Jobs(Exec(parses, es)))
    ensures Scheduled(Exec(parses, es).index) == Scheduled(StartOn(FRESH, parses, rows))
  {
    hide Exec, Idle, AtMostOne, StartOn, ScheduledAt, WantedAt, Scheduled, Lists;
    var s := Exec(parses, es);
    forall id ensures ScheduledAt(s.index, id) == WantedAt(parses, Jobs(s), id) { JobAgrees(parses, es, id); }
    StartAgrees(parses, rows, Jobs(s));
    AgreesIsUnique(s.index, StartOn(FRESH, parses, rows), parses, Jobs(s));
  }

  // ---------------------------------------------------------------- a handler on its own

  /** The thread that serves a request once its id and form have been read. */
  function ThreadOf(r: Handlers.Request): Thread {
    match r
    case Create(form) => if form.Some? then Creating(Handlers.ConfigOf(form.value)) else Ended
    case Update(idText, form) =>
      var id := GoText.ParseInt64(idText);
      if id.Some? && form.Some? then Loading(id.value, SetTo(Handlers.ConfigOf(form.value))) else Ended
    case Delete(idText) =>
      var id := GoText.ParseInt64(idText);
      if id.Some? then Unscheduling(id.value) else Ended
    case Toggle(idText) =>
      var id := GoText.ParseInt64(idText);
      if id.Some? then Loading(id.value, Flip) else Ended
  }

  function WorldOf(s: State): Handlers.World {
    Handlers.World(s.runs.tables, s.index)
  }

  /** The steps of an undisturbed handler amount to the request served as a whole. */
  lemma ServedAlone(s: State, parses: Parser, k: nat, r: Handlers.Request, now: int, clock: Archive.Clock)
    requires k < |s.threads| && s.threads[k] == ThreadOf(r)
    ensures var t := DoMove(s, parses, k, now, clock);
      var u := DoMove(DoMove(t, parses, k, now, clock), parses, k, now, clock);
      u.threads[k] == Ended && WorldOf(u) == Handlers.Serve(WorldOf(s), parses, r, now).0
  {
    hide Sync, Remove, Handlers.ConfigOf, GoText.ParseInt64;
  }

  // ---------------------------------------------------------------- agreement, exactly

  /** What the last operation on the index that concerned `id` asked for: a synchronisation,
      an unscheduling, or a restart. */
  ghost function LastAsked(parses: Parser, es: seq<Event>, id: int): Option<string> {
    if es == [] then None
    else
      var init := es[..|es| - 1];
      Asked(Exec(parses, init), parses, es[|es| - 1], id, LastAsked(parses, init, id))
  }

  ghost function Asked(s: State, parses: Parser, e: Event, id: int, before: Option<string>): Option<string> {
    match e
    case Restart(rows) => if Lists(rows, Jobs(s)) then WantedAt(parses, Jobs(s), id) else before
    case Move(k, _, _) =>
      if k < |s.threads| && s.threads[k].Syncing? && s.threads[k].id == id then Wanted(parses, s.threads[k].config)
      else if k < |s.threads| && s.threads[k] == Unscheduling(id) then None
      else before
    case _ => before
  }

  /** The configuration the last write to row `id` left; `None` when there is no row. */
  ghost function LastWritten(parses: Parser, es: seq<Event>, id: int): Option<Config> {
    if es == [] then None
    else
      var init := es[..|es| - 1];
      Written(Exec(parses, init), es[|es| - 1], id, LastWritten(parses, init, id))
  }

  ghost function Written(s: State, e: Event, id: int, before: Option<Config>): Option<Config> {
    if !e.Move? || e.k >= |s.threads| then before
    else match s.threads[e.k]
      case Creating(c) => if id == Seq(s) + 1 then Some(c) else before
      case Writing(j, c) => if j == id && before.Some? then Some(c) else before
      case Deleting(j) => if j == id then None else before
      case _ => before
  }

  lemma StepAsked(s: State, parses: Parser, e: Event, id: int, before: Option<string>)
    requires Sound(s) && ScheduledAt(s.index, id) == before
    ensures ScheduledAt(Step(s, parses, e).index, id) == Asked(s, parses, e, id, before)
  {
    match e
    case Restart(rows) => if Lists(rows, Jobs(s)) { StartAgrees(parses, rows, Jobs(s)); }
    case Move(k, now, clock) =>
      if k < |s.threads| {
        hide Sync, Remove, ScheduledAt, Runs.Step, Consistent;
        match s.threads[k]
        case Syncing(j, c) => SyncIs(s.index, parses, j, c);
        case Unscheduling(j) => RemoveKeepsConsistent(s.index, j);
        case _ =>
      }
    case _ =>
  }

  /** In every interleaving the scheduler has a job under what the last operation on its
      index asked for. */
  lemma {:induction false} ScheduledIsLastAsked(parses: Parser, es: seq<Event>, id: int)
    ensures ScheduledAt(Exec(parses, es).index, id) == LastAsked(parses, es, id)
  {
    if es != [] {
      var init := es[..|es| - 1];
      hide Step, Sound, ScheduledAt, Asked;
      ScheduledIsLastAsked(parses, init, id);
      SchedulerSafety(parses, init);
      StepAsked(Exec(parses, init), parses, es[|es| - 1], id, LastAsked(parses, init, id));
    }
  }

  /** The row of the job holds this configuration, or is absent. */
  ghost predicate Holds(s: State, id: int, config: Option<Config>) {
    && (id in Jobs(s) <==> config.Some?)
    && (id in Jobs(s) ==> Jobs(s)[id].config == config.value)
  }

  lemma StepWritten(s: State, parses: Parser, e: Event, id: int, before: Option<Config>)
    requires Sound(s) && Holds(s, id, before)
    ensures Holds(Step(s, parses, e), id, Written(s, e, id, before))
  {
    match e
    case Move(k, now, clock) => if k < |s.threads| { hide Consistent; MoveWritten(s, parses, e, id, before); }
    case Work(r) => if !r.Edit? { hide Consistent, Runs.Step; RunStepFrame(s.runs, r); }
    case _ =>
  }

  lemma MoveWritten(s: State, parses: Parser, e: Event, id: int, before: Option<Config>)
    requires Sound(s) && Holds(s, id, before) && e.Move? && e.k < |s.threads|
    ensures Holds(DoMove(s, parses, e.k, e.now, e.clock), id, Written(s, e, id, before))
  {
    hide Sync, Remove, Consistent;
    if s.threads[e.k].Starting? {
      hide Runs.Step;
      RunStepFrame(s.runs, Runs.Begin(s.threads[e.k].job, "scheduled", e.clock));
    } else {
      hide Runs.DoBegin, Runs.DoAdvance;
    }
  }

  /** In every interleaving a row is what the last write to it left. */
  lemma {:induction false} TableIsLastWritten(parses: Parser, es: seq<Event>, id: int)
    ensures Holds(Exec(parses, es), id, LastWritten(parses, es, id))
  {
    if es != [] {
      var init := es[..|es| - 1];
      hide Step, Sound, Holds, Written;
      TableIsLastWritten(parses, init, id);
      SchedulerSafety(parses, init);
      StepWritten(Exec(parses, init), parses, es[|es| - 1], id, LastWritten(parses, init, id));
    }
  }

  /** In every interleaving whatsoever, scheduler and table agree about a job if and only if
      the last operation on the job's index entry asked for what the last write to its row
      wants. */
  lemma AgreesIff(parses: Parser, es: seq<Event>, id: int)
    ensures AgreesOn(Exec(parses, es), parses, id) <==>
      var written := LastWritten(parses, es, id);
      LastAsked(parses, es, id) == if written.Some? then Wanted(parses, written.value) else None
  {
    hide Exec, LastAsked, LastWritten, ScheduledAt, Wanted;
    ScheduledIsLastAsked(parses, es, id);
    TableIsLastWritten(parses, es, id);
  }

  // ---------------------------------------------------------------- handlers that overlap

  /** Two configurations `i` then `j` are written to one job and the scheduler is
      synchronised in the other order: the table holds the second and the scheduler the
      first, so they agree only if both ask for the same. */
  lemma CrossedUpdatesAgreeIff(s: State, parses: Parser, i: nat, j: nat, id: int, a: Config, b: Config, now: int,
                               clock: Archive.Clock)
    requires Sound(s) && i < |s.threads| && j < |s.threads| && i != j && id in Jobs(s)
    requires s.threads[i] == Writing(id, a) && s.threads[j] == Writing(id, b)
    ensures var t := DoMove(DoMove(s, parses, i, now, clock), parses, j, now, clock);
      var u := DoMove(DoMove(t, parses, j, now, clock), parses, i, now, clock);
      && id in Jobs(u) && Jobs(u)[id].config == b && ScheduledAt(u.index, id) == Wanted(parses, a)
      && (AgreesOn(u, parses, id) <==> Wanted(parses, a) == Wanted(parses, b))
  {
    hide Sync, ScheduledAt, Consistent;
    var t := DoMove(DoMove(s, parses, i, now, clock), parses, j, now, clock);
    SyncIs(t.index, parses, id, b);
    SyncIs(Sync(t.index, parses, id, b), parses, id, a);
  }

  /** A job is deleted while an update or toggle of it is about to write, and the update
      synchronises last or the row is deleted last: the row is gone, but the late
      synchronisation schedules the job again if its configuration asks for it, and that
      entry outlives the job. */
  lemma DeletedUnderUpdateAgreesIff(s: State, parses: Parser, i: nat, j: nat, id: int, c: Config, now: int,
                                    clock: Archive.Clock)
    requires Sound(s) && i < |s.threads| && j < |s.threads| && i != j
    requires s.threads[i] == Writing(id, c) && s.threads[j] == Unscheduling(id)
    ensures var t := DoMove(s, parses, j, now, clock);
      var u := DoMove(DoMove(DoMove(t, parses, j, now, clock), parses, i, now, clock), parses, i, now, clock);
      var v := DoMove(DoMove(DoMove(t, parses, i, now, clock), parses, i, now, clock), parses, j, now, clock);
      && id !in Jobs(u) && ScheduledAt(u.index, id) == Wanted(parses, c)
      && id !in Jobs(v) && ScheduledAt(v.index, id) == Wanted(parses, c)
      && (AgreesOn(u, parses, id) <==> Wanted(parses, c) == None)
      && (AgreesOn(v, parses, id) <==> Wanted(parses, c) == None)
  {
    hide Sync, Remove, ScheduledAt, Consistent;
    RemoveKeepsConsistent(s.index, id);
    SyncIs(Remove(s.index, id), parses, id, c);
  }
}
