/** Any number of overlapping backup runs over one remote directory.  The upload, the listing
    and each deletion of a run is one rclone command and one step; nothing keeps the commands
    of two runs apart, so a run may delete from a listing that others have made stale. */
module RemoteRuns {
  import opened Values
  import opened Retention
  import opened RetentionLaws
  import opened RetentionFailures

  /** Where a run stands: it has not uploaded; has uploaded its archive; has listed the
      directory and deletes; or its upload failed.  A run whose dump or listing fails takes
      no further step. */
  datatype Pc = Working | Stored | Deleting | Failed

  /** `todo` are the selected files it has not tried to delete yet.  History: the positions of
      its upload and of its listing among all commands. */
  datatype Run = Run(name: string, policy: Policy, pc: Pc, todo: set<string>, uploadedAt: nat, listedAt: nat)

  /** The commands given to rclone; `file` is what an upload left under the name, if anything. */
  datatype Command =
    | Uploaded(run: nat, name: string, file: Option<Meta>, ok: bool)
    | Listed(run: nat, files: seq<Item>, now: int)
    | Deleted(run: nat, name: string, ok: bool)

  datatype State = State(dir: Dir, runs: seq<Run>, log: seq<Command>)

  datatype Event =
    | Begin(name: string, policy: Policy)
    | Upload(run: nat, modTime: int, size: int)
    | FailUpload(run: nat, left: Option<Meta>)
    | List(run: nat, files: seq<Item>, now: int)
    | Delete(run: nat, name: string, ok: bool)

  // ---------------------------------------------------------------- steps

  function After(dir: Dir, c: Command): Dir {
    match c
    case Uploaded(_, name, file, _) => if file.Some? then dir[name := file.value] else dir
    case Listed(_, _, _) => dir
    case Deleted(_, name, ok) => if ok then dir - {name} else dir
  }

  function Give(s: State, i: nat, c: Command, run: Run): State
    requires i < |s.runs|
  {
    State(After(s.dir, c), s.runs[i := run], s.log + [c])
  }

  ghost predicate MayList(s: State, i: nat, files: seq<Item>) {
    i < |s.runs| && s.runs[i].pc.Stored? && s.runs[i].policy.Active() && Listing(s.dir, files)
  }

  /** One event; an event that is not possible in `s` leaves it unchanged. */
  ghost function Step(s: State, e: Event): State {
    match e
    case Begin(name, policy) => s.(runs := s.runs + [Run(name, policy, Working, {}, 0, 0)])
    case Upload(i, modTime, size) =>
      if i < |s.runs| && s.runs[i].pc.Working? then
        Give(s, i, Uploaded(i, s.runs[i].name, Some(Meta(modTime, false, size)), true),
             s.runs[i].(pc := Stored, uploadedAt := |s.log|))
      else s
    case FailUpload(i, left) =>
      if i < |s.runs| && s.runs[i].pc.Working? then
        Give(s, i, Uploaded(i, s.runs[i].name, left, false), s.runs[i].(pc := Failed))
      else s
    case List(i, files, now) =>
      if MayList(s, i, files) then
        Give(s, i, Listed(i, files, now),
             s.runs[i].(pc := Deleting, todo := Selected(files, now, s.runs[i].policy), listedAt := |s.log|))
      else s
    case Delete(i, name, ok) =>
      if i < |s.runs| && s.runs[i].pc.Deleting? && name in s.runs[i].todo then
        Give(s, i, Deleted(i, name, ok), s.runs[i].(todo := s.runs[i].todo - {name}))
      else s
  }

  ghost function Exec(start: Dir, es: seq<Event>): State {
    if es == [] then State(start, [], []) else Step(Exec(start, es[..|es| - 1]), es[|es| - 1])
  }

  /** The directory after the commands of `log`. */
  function Replay(start: Dir, log: seq<Command>): Dir {
    if log == [] then start else After(Replay(start, log[..|log| - 1]), log[|log| - 1])
  }

  // ---------------------------------------------------------------- the invariant

  /** Where a run stands agrees with its commands. */
  ghost predicate RunOk(s: State, i: nat)
    requires i < |s.runs|
  {
    var r := s.runs[i];
    && (r.pc.Stored? || r.pc.Deleting? ==> UploadedAt(s, i, r.uploadedAt))
    && (r.pc.Deleting? ==>
          && r.uploadedAt < r.listedAt && ListedAt(s, i, r.listedAt)
          && r.todo <= Chosen(s, i)
          && forall n :: n in Chosen(s, i) && n !in r.todo ==> Tried(s, i, n))
  }

  ghost predicate UploadedAt(s: State, i: nat, u: nat)
    requires i < |s.runs|
  {
    u < |s.log| && s.log[u].Uploaded? && s.log[u].run == i && s.log[u].name == s.runs[i].name && s.log[u].ok
  }

  ghost predicate ListedAt(s: State, i: nat, l: nat) {
    l < |s.log| && s.log[l].Listed? && s.log[l].run == i
  }

  /** The files that run `i` selected from its listing. */
  ghost function Chosen(s: State, i: nat): set<string>
    requires i < |s.runs| && ListedAt(s, i, s.runs[i].listedAt)
  {
    var c := s.log[s.runs[i].listedAt];
    Selected(c.files, c.now, s.runs[i].policy)
  }

  /** Run `i` has tried to delete `n` after its listing. */
  ghost predicate Tried(s: State, i: nat, n: string)
    requires i < |s.runs|
  {
    exists k :: s.runs[i].listedAt < k < |s.log| && Tries(s.log[k], i, n)
  }

  predicate Tries(c: Command, i: nat, n: string) {
    c.Deleted? && c.run == i && c.name == n
  }

  /** A deletion belongs to a run that had listed the file, and that has struck it off. */
  ghost predicate DeletionOk(s: State, k: nat)
    requires k < |s.log| && s.log[k].Deleted?
  {
    var i, n := s.log[k].run, s.log[k].name;
    && i < |s.runs| && s.runs[i].pc.Deleting? && s.runs[i].listedAt < k
    && ListedAt(s, i, s.runs[i].listedAt) && n in Chosen(s, i) && n !in s.runs[i].todo
  }

  ghost predicate ListingOk(start: Dir, s: State, l: nat)
    requires l < |s.log| && s.log[l].Listed?
  {
    Listing(Replay(start, s.log[..l]), s.log[l].files)
  }

  ghost predicate RunsOk(s: State) {
    forall i :: 0 <= i < |s.runs| ==> RunOk(s, i)
  }

  ghost predicate DeletionsOk(s: State) {
    forall k :: 0 <= k < |s.log| && s.log[k].Deleted? ==> DeletionOk(s, k)
  }

  ghost predicate ListingsOk(start: Dir, s: State) {
    forall l :: 0 <= l < |s.log| && s.log[l].Listed? ==> ListingOk(start, s, l)
  }

  ghost predicate TriedOnce(log: seq<Command>) {
    forall j, k :: 0 <= j < k < |log| && log[j].Deleted? && log[k].Deleted? ==>
      log[j].run != log[k].run || log[j].name != log[k].name
  }

  ghost predicate Inv(start: Dir, s: State) {
    s.dir == Replay(start, s.log) && RunsOk(s) && DeletionsOk(s) && ListingsOk(start, s) && TriedOnce(s.log)
  }

  /** Giving a command on behalf of run `i` changes nothing about the commands before it. */
  lemma GiveKeeps(s: State, i: nat, c: Command, run: Run, j: nat)
    requires i < |s.runs| && j < |s.runs| && j != i && RunOk(s, j)
    ensures RunOk(Give(s, i, c, run), j)
  {
    var t := Give(s, i, c, run);
    assert t.runs[j] == s.runs[j];
    if s.runs[j].pc.Deleting? {
      forall n | n in Chosen(t, j) && n !in t.runs[j].todo ensures Tried(t, j, n) {
        assert Tried(s, j, n);
        var k :| s.runs[j].listedAt < k < |s.log| && Tries(s.log[k], j, n);
        assert t.log[k] == s.log[k];
      }
    }
  }

  lemma ReplaySnoc(start: Dir, log: seq<Command>, c: Command)
    ensures Replay(start, log + [c]) == After(Replay(start, log), c)
  {
    assert (log + [c])[..|log|] == log;
  }

  /** Run `r` may take the place of run `i`. */
  predicate MayFollow(s: State, i: nat, r: Run)
    requires i < |s.runs|
  {
    s.runs[i].pc.Deleting? ==>
      && r.pc.Deleting? && r.listedAt == s.runs[i].listedAt && r.policy == s.runs[i].policy
      && r.todo <= s.runs[i].todo
  }

  /** The old commands keep their explanation. */
  lemma OldDeletion(s: State, i: nat, c: Command, run: Run, k: nat)
    requires i < |s.runs| && k < |s.log| && s.log[k].Deleted? && DeletionOk(s, k) && MayFollow(s, i, run)
    ensures k < |Give(s, i, c, run).log| && Give(s, i, c, run).log[k] == s.log[k] && DeletionOk(Give(s, i, c, run), k)
  {
    var t, j := Give(s, i, c, run), s.log[k].run;
    assert t.log[s.runs[j].listedAt] == s.log[s.runs[j].listedAt];
  }

  lemma OldListing(start: Dir, s: State, i: nat, c: Command, run: Run, l: nat)
    requires i < |s.runs| && l < |s.log| && s.log[l].Listed? && ListingOk(start, s, l)
    ensures Give(s, i, c, run).log[l] == s.log[l] && ListingOk(start, Give(s, i, c, run), l)
  {
    assert Give(s, i, c, run).log[..l] == s.log[..l];
  }

  lemma RunsKept(s: State, i: nat, c: Command, run: Run)
    requires i < |s.runs| && RunOk(Give(s, i, c, run), i)
    requires RunsOk(s)
    ensures RunsOk(Give(s, i, c, run))
  {
    var t := Give(s, i, c, run);
    hide RunOk;
    forall j | 0 <= j < |t.runs| ensures RunOk(t, j) { if j != i { GiveKeeps(s, i, c, run, j); } }
  }

  lemma DeletionsKept(s: State, i: nat, c: Command, run: Run)
    requires i < |s.runs| && MayFollow(s, i, run)
    requires c.Deleted? ==> Give(s, i, c, run).log[|s.log|].Deleted? && DeletionOk(Give(s, i, c, run), |s.log|)
    requires DeletionsOk(s)
    ensures DeletionsOk(Give(s, i, c, run))
  {
    var t := Give(s, i, c, run);
    hide DeletionOk;
    forall k | 0 <= k < |t.log| && t.log[k].Deleted? ensures DeletionOk(t, k) {
      if k < |s.log| { OldDeletion(s, i, c, run, k); }
    }
  }

  lemma ListingsKept(start: Dir, s: State, i: nat, c: Command, run: Run)
    requires i < |s.runs| && s.dir == Replay(start, s.log)
    requires c.Listed? ==> Listing(s.dir, c.files)
    requires ListingsOk(start, s)
    ensures ListingsOk(start, Give(s, i, c, run))
  {
    var t := Give(s, i, c, run);
    assert t.log[|s.log|] == c && t.log[..|s.log|] == s.log;
    hide Listing, Replay;
    forall l | 0 <= l < |t.log| && t.log[l].Listed? ensures ListingOk(start, t, l) {
      if l < |s.log| { OldListing(start, s, i, c, run, l); }
    }
  }

  /** What a new command and the run that gave it have to satisfy. */
  lemma GiveKeepsInv(start: Dir, s: State, i: nat, c: Command, run: Run)
    requires Inv(start, s) && i < |s.runs| && MayFollow(s, i, run)
    requires RunOk(Give(s, i, c, run), i)
    requires c.Deleted? ==> Give(s, i, c, run).log[|s.log|].Deleted? && DeletionOk(Give(s, i, c, run), |s.log|)
    requires c.Listed? ==> Listing(s.dir, c.files)
    requires c.Deleted? ==> forall j :: 0 <= j < |s.log| && s.log[j].Deleted? ==>
      s.log[j].run != c.run || s.log[j].name != c.name
    ensures Inv(start, Give(s, i, c, run))
  {
    hide RunsOk, DeletionsOk, ListingsOk, RunOk, DeletionOk, Listing, Replay, MayFollow, After, TriedOnce;
    ReplaySnoc(start, s.log, c);
    RunsKept(s, i, c, run);
    DeletionsKept(s, i, c, run);
    ListingsKept(start, s, i, c, run);
    TriedOnceSnoc(s.log, c);
  }

  lemma TriedOnceSnoc(log: seq<Command>, c: Command)
    requires TriedOnce(log)
    requires c.Deleted? ==> forall j :: 0 <= j < |log| && log[j].Deleted? ==>
      log[j].run != c.run || log[j].name != c.name
    ensures TriedOnce(log + [c])
  {}

  lemma BeginKeepsInv(start: Dir, s: State, name: string, policy: Policy)
    requires Inv(start, s)
    ensures Inv(start, Step(s, Begin(name, policy)))
  {
    var t := Step(s, Begin(name, policy));
    forall i | 0 <= i < |t.runs| ensures RunOk(t, i) {
      if i < |s.runs| {
        assert RunOk(s, i) && t.runs[i] == s.runs[i];
        if s.runs[i].pc.Deleting? {
          forall n | n in Chosen(t, i) && n !in t.runs[i].todo ensures Tried(t, i, n) { assert Tried(s, i, n); }
        }
      }
    }
    forall k | 0 <= k < |t.log| && t.log[k].Deleted? ensures DeletionOk(t, k) { assert DeletionOk(s, k); }
    forall l | 0 <= l < |t.log| && t.log[l].Listed? ensures ListingOk(start, t, l) { assert ListingOk(start, s, l); }
  }

  lemma ListKeepsInv(start: Dir, s: State, i: nat, files: seq<Item>, now: int)
    requires Inv(start, s) && MayList(s, i, files)
    ensures Inv(start, Step(s, List(i, files, now)))
  {
    assert RunOk(s, i);
    ListKeepsRun(s, i, files, now);
    hide Inv, Selected, Listing, RunOk;
    GiveKeepsInv(start, s, i, Listed(i, files, now),
                 s.runs[i].(pc := Deleting, todo := Selected(files, now, s.runs[i].policy), listedAt := |s.log|));
  }

  lemma ListKeepsRun(s: State, i: nat, files: seq<Item>, now: int)
    requires i < |s.runs| && RunOk(s, i) && s.runs[i].pc.Stored?
    ensures var run := s.runs[i].(pc := Deleting, todo := Selected(files, now, s.runs[i].policy), listedAt := |s.log|);
      RunOk(Give(s, i, Listed(i, files, now), run), i)
  {
    var c, todo := Listed(i, files, now), Selected(files, now, s.runs[i].policy);
    var run := s.runs[i].(pc := Deleting, todo := todo, listedAt := |s.log|);
    var t := Give(s, i, c, run);
    assert t.log[|s.log|] == c && t.log[run.uploadedAt] == s.log[run.uploadedAt] && t.runs[i] == run;
    hide Selected;
  }

  lemma DeleteKeepsRun(s: State, i: nat, name: string, ok: bool)
    requires i < |s.runs| && RunOk(s, i) && s.runs[i].pc.Deleting? && name in s.runs[i].todo
    ensures var t := Give(s, i, Deleted(i, name, ok), s.runs[i].(todo := s.runs[i].todo - {name}));
      RunOk(t, i) && t.log[|s.log|].Deleted? && DeletionOk(t, |s.log|)
  {
    var t := Give(s, i, Deleted(i, name, ok), s.runs[i].(todo := s.runs[i].todo - {name}));
    var l := s.runs[i].listedAt;
    assert t.log[l] == s.log[l] && t.log[s.runs[i].uploadedAt] == s.log[s.runs[i].uploadedAt];
    assert Tries(t.log[|s.log|], i, name);
    forall n | n in Chosen(t, i) && n !in t.runs[i].todo ensures Tried(t, i, n) {
      if n != name {
        assert Tried(s, i, n);
        var k :| l < k < |s.log| && Tries(s.log[k], i, n);
        assert Tries(t.log[k], i, n);
      }
    }
  }

  lemma NotYetTried(start: Dir, s: State, i: nat, name: string)
    requires Inv(start, s) && i < |s.runs| && s.runs[i].pc.Deleting? && name in s.runs[i].todo
    ensures RunOk(s, i)
    ensures forall j :: 0 <= j < |s.log| && s.log[j].Deleted? ==> s.log[j].run != i || s.log[j].name != name
  {
    hide RunOk, ListingOk, Replay, Selected;
    forall j | 0 <= j < |s.log| && s.log[j].Deleted? ensures s.log[j].run != i || s.log[j].name != name {
      assert DeletionOk(s, j);
    }
  }

  lemma DeleteKeepsInv(start: Dir, s: State, i: nat, name: string, ok: bool)
    requires Inv(start, s) && i < |s.runs| && s.runs[i].pc.Deleting? && name in s.runs[i].todo
    ensures Inv(start, Step(s, Delete(i, name, ok)))
  {
    hide Inv, RunOk, DeletionOk;
    NotYetTried(start, s, i, name);
    DeleteKeepsRun(s, i, name, ok);
    GiveKeepsInv(start, s, i, Deleted(i, name, ok), s.runs[i].(todo := s.runs[i].todo - {name}));
  }

  lemma UploadKeepsInv(start: Dir, s: State, i: nat, file: Option<Meta>, ok: bool)
    requires Inv(start, s) && i < |s.runs| && s.runs[i].pc.Working?
    ensures Inv(start, Give(s, i, Uploaded(i, s.runs[i].name, file, ok),
                            if ok then s.runs[i].(pc := Stored, uploadedAt := |s.log|) else s.runs[i].(pc := Failed)))
  {
    var c := Uploaded(i, s.runs[i].name, file, ok);
    var run := if ok then s.runs[i].(pc := Stored, uploadedAt := |s.log|) else s.runs[i].(pc := Failed);
    assert Give(s, i, c, run).log[|s.log|] == c;
    hide Inv;
    GiveKeepsInv(start, s, i, c, run);
  }

  lemma StepKeepsInv(start: Dir, s: State, e: Event)
    requires Inv(start, s)
    ensures Inv(start, Step(s, e))
  {
    hide Inv, Listing, Selected;
    match e
    case Begin(name, policy) => BeginKeepsInv(start, s, name, policy);
    case Upload(i, modTime, size) =>
      if i < |s.runs| && s.runs[i].pc.Working? { UploadKeepsInv(start, s, i, Some(Meta(modTime, false, size)), true); }
    case FailUpload(i, left) =>
      if i < |s.runs| && s.runs[i].pc.Working? { UploadKeepsInv(start, s, i, left, false); }
    case List(i, files, now) => if MayList(s, i, files) { ListKeepsInv(start, s, i, files, now); }
    case Delete(i, name, ok) =>
      if i < |s.runs| && s.runs[i].pc.Deleting? && name in s.runs[i].todo { DeleteKeepsInv(start, s, i, name, ok); }
  }

  lemma {:induction false} ExecInv(start: Dir, es: seq<Event>)
    ensures Inv(start, Exec(start, es))
  {
    if es != [] {
      ExecInv(start, es[..|es| - 1]);
      StepKeepsInv(start, Exec(start, es[..|es| - 1]), es[|es| - 1]);
    }
  }

  // ---------------------------------------------------------------- every deletion

  /** Commands `u`, `l` and `k` are the upload, the listing and a deletion of one run, in this
      order: the upload of its own archive succeeded, the listing is one of the directory as
      it was then, and the deleted file is in it and selected by the policy of the run. */
  ghost predicate Follows(start: Dir, s: State, u: nat, l: nat, k: nat) {
    && u < l < k < |s.log| && s.log[k].Deleted?
    && s.log[k].run < |s.runs| && s.runs[s.log[k].run].policy.Active()
    && UploadedAt(s, s.log[k].run, u) && ListedAt(s, s.log[k].run, l)
    && Listing(Replay(start, s.log[..l]), s.log[l].files)
    && s.log[k].name in Selected(s.log[l].files, s.log[l].now, s.runs[s.log[k].run].policy)
  }

  /** In every interleaving of any runs, every deletion follows the upload and the listing of
      its own run, which never tries to delete the file again. */
  lemma DeletionsFollowOwnUpload(start: Dir, es: seq<Event>, k: nat)
    requires k < |Exec(start, es).log| && Exec(start, es).log[k].Deleted?
    ensures var s := Exec(start, es);
      && (exists u, l :: Follows(start, s, u, l, k))
      && forall j :: 0 <= j < |s.log| && j != k ==> !Tries(s.log[j], s.log[k].run, s.log[k].name)
  {
    ExecInv(start, es);
    var s := Exec(start, es);
    assert DeletionOk(s, k) && RunOk(s, s.log[k].run);
    var run := s.runs[s.log[k].run];
    assert ListingOk(start, s, run.listedAt);
    hide Exec, Replay, Listing;
    SelectsByPolicy(s.log[run.listedAt].files, s.log[run.listedAt].now, run.policy, s.log[k].name);
    assert Follows(start, s, run.uploadedAt, run.listedAt, k);
  }

  lemma SelectsByPolicy(files: seq<Item>, now: int, p: Policy, n: string)
    requires n in Selected(files, now, p)
    ensures p.Active()
  {}

  /** A file that disappears between two points of the log was deleted in between. */
  lemma {:induction false} LostAt(start: Dir, log: seq<Command>, i: nat, n: string) returns (k: nat)
    requires i <= |log| && n in Replay(start, log[..i]) && n !in Replay(start, log)
    ensures i <= k < |log| && log[k].Deleted? && log[k].name == n && log[k].ok
  {
    var last := |log| - 1;
    assert log[..|log|] == log;
    var init := log[..last];
    assert init[..i] == log[..i];
    if n in Replay(start, init) { k := last; } else { k := LostAt(start, init, i, n); }
  }

  /** In every interleaving, whatever disappears from the directory was deleted by a run that
      had uploaded its own archive and listed the directory before. */
  lemma LostFile(start: Dir, es: seq<Event>, i: nat, n: string)
    requires i <= |Exec(start, es).log| && n in Replay(start, Exec(start, es).log[..i]) && n !in Exec(start, es).dir
    ensures var s := Exec(start, es);
      exists u: nat, l: nat, k: nat :: Follows(start, s, u, l, k) && i <= k && s.log[k].name == n && s.log[k].ok
  {
    ExecInv(start, es);
    var s := Exec(start, es);
    var k := LostAt(start, s.log, i, n);
    DeletionsFollowOwnUpload(start, es, k);
  }

  // ---------------------------------------------------------------- what overlapping leaves

  /** Nothing is uploaded from command `l` on. */
  ghost predicate NoUploadFrom(log: seq<Command>, l: nat) {
    forall k :: l <= k < |log| ==> !log[k].Uploaded?
  }

  lemma {:induction false} OnlyShrinks(start: Dir, log: seq<Command>, l: nat)
    requires l <= |log| && NoUploadFrom(log, l)
    ensures Replay(start, log).Keys <= Replay(start, log[..l]).Keys
    ensures forall n :: n in Replay(start, log) ==> Replay(start, log)[n] == Replay(start, log[..l])[n]
  {
    if l == |log| {
      assert log[..l] == log;
    } else {
      var init := log[..|log| - 1];
      assert init[..l] == log[..l];
      OnlyShrinks(start, init, l);
    }
  }

  lemma {:induction false} GoneStays(start: Dir, log: seq<Command>, k: nat)
    requires k < |log| && log[k].Deleted? && log[k].ok && NoUploadFrom(log, k)
    ensures log[k].name !in Replay(start, log)
  {
    assert log[..k + 1][..k] == log[..k];
    OnlyShrinks(start, log, k + 1);
  }

  /** The bound holds in spite of overlapping: when the run that listed last has tried all its
      deletions, they have succeeded, and nothing was uploaded since its listing, at most its
      count of files is left, whatever the other runs did. */
  lemma LastListingBounds(start: Dir, es: seq<Event>, i: nat)
    requires var s := Exec(start, es);
      && i < |s.runs| && s.runs[i].pc.Deleting? && s.runs[i].todo == {} && s.runs[i].policy.count > 0
      && NoUploadFrom(s.log, s.runs[i].listedAt)
      && forall k :: s.runs[i].listedAt < k < |s.log| && s.log[k].Deleted? && s.log[k].run == i ==> s.log[k].ok
    ensures |Files(Exec(start, es).dir)| <= Exec(start, es).runs[i].policy.count
  {
    ExecInv(start, es);
    var s := Exec(start, es);
    var run := s.runs[i];
    var l := run.listedAt;
    assert RunOk(s, i) && ListingOk(start, s, l);
    var dir, c := Replay(start, s.log[..l]), s.log[l];
    var kept := Without(dir, Selected(c.files, c.now, run.policy));
    forall n | n in Selected(c.files, c.now, run.policy) ensures n !in s.dir {
      assert Tried(s, i, n);
      var k :| l < k < |s.log| && Tries(s.log[k], i, n);
      GoneStays(start, s.log, k);
    }
    OnlyShrinks(start, s.log, l);
    assert s.dir == Replay(start, s.log);
    hide Exec, Replay, Inv, RunOk, Listing, Selected, ListingOk, NoUploadFrom;
    FilesAmong(s.dir, kept);
    PassOfListing(dir, c.files, c.now, run.policy);
    CountIsBound(dir, c.now, run.policy, kept);
  }

  lemma FilesAmong(dir: Dir, kept: Dir)
    requires dir.Keys <= kept.Keys && forall n :: n in dir ==> dir[n] == kept[n]
    ensures |Files(dir)| <= |Files(kept)|
  {
    SubsetSize(Files(dir), Files(kept));
  }

  /** The upload left a file under the name `n`. */
  predicate Replaces(c: Command, n: string) {
    c.Uploaded? && c.name == n && c.file.Some?
  }

  /** No upload from command `l` on left a file under the name `n`. */
  ghost predicate NotReplacedFrom(log: seq<Command>, l: nat, n: string) {
    forall k :: l <= k < |log| ==> !Replaces(log[k], n)
  }

  lemma {:induction false} SameSince(start: Dir, log: seq<Command>, l: nat, n: string)
    requires l <= |log| && NotReplacedFrom(log, l, n) && n in Replay(start, log)
    ensures n in Replay(start, log[..l]) && Replay(start, log[..l])[n] == Replay(start, log)[n]
  {
    if l == |log| {
      assert log[..l] == log;
    } else {
      var init := log[..|log| - 1];
      assert init[..l] == log[..l];
      SameSince(start, init, l, n);
    }
  }

  /** What is there after a replacement is what an upload since then left. */
  lemma {:induction false} ReplacedBy(start: Dir, log: seq<Command>, l: nat, n: string) returns (k: nat)
    requires l <= |log| && !NotReplacedFrom(log, l, n) && n in Replay(start, log)
    ensures l <= k < |log| && Replaces(log[k], n) && log[k].file.value == Replay(start, log)[n]
  {
    k := |log| - 1;
    if !Replaces(log[k], n) {
      var init := log[..k];
      var j :| l <= j < |log| && Replaces(log[j], n);
      assert Replaces(init[j], n);
      k := ReplacedBy(start, init, l, n);
    }
  }

  /** What a run is about to delete is the file its listing held if and only if no upload since
      that listing has left a file under its name, given that such files have other modification
      times. */
  lemma DeletesWhatItListedIff(start: Dir, es: seq<Event>, i: nat, n: string)
    requires var s := Exec(start, es);
      && i < |s.runs| && s.runs[i].pc.Deleting? && n in s.runs[i].todo && n in s.dir
      && ListedAt(s, i, s.runs[i].listedAt)
      && forall k :: s.runs[i].listedAt <= k < |s.log| && Replaces(s.log[k], n) ==>
           OtherTime(s.log[s.runs[i].listedAt].files, n, s.log[k].file.value.modTime)
    ensures var s := Exec(start, es);
      ItemOf(s.dir, n) in s.log[s.runs[i].listedAt].files <==> NotReplacedFrom(s.log, s.runs[i].listedAt, n)
  {
    ExecInv(start, es);
    var s := Exec(start, es);
    var run := s.runs[i];
    assert RunOk(s, i) && ListingOk(start, s, run.listedAt);
    var c := s.log[run.listedAt];
    if NotReplacedFrom(s.log, run.listedAt, n) {
      SameSince(start, s.log, run.listedAt, n);
      SelectedListed(c.files, c.now, run.policy);
      assert n in Names(c.files);
    } else {
      var k := ReplacedBy(start, s.log, run.listedAt, n);
      assert OtherTime(c.files, n, s.log[k].file.value.modTime);
    }
  }

  /** No file of that name and time is in the listing. */
  ghost predicate OtherTime(files: seq<Item>, n: string, modTime: int) {
    forall x :: x in files && x.name == n ==> x.modTime != modTime
  }

  // Two runs of one job start in the same second and so have one archive name.

  const ONE: Policy := Policy(1, 0)
  const MEANWHILE: Dir := map["x" := Meta(1, false, 1), "y" := Meta(2, false, 1)]
  const SEEN: seq<Item> := [Item("y", 2, false, 1), Item("x", 1, false, 1)]

  /** Runs 0 and 1 with the archive "x" and a run of another job with the archive "y". */
  const THREE: State := State(map[], [Run("x", ONE, Working, {}, 0, 0), Run("x", ONE, Working, {}, 0, 0),
                                      Run("y", Policy(0, 0), Working, {}, 0, 0)], [])

  const BEGUN: seq<Event> := [Begin("x", ONE)] + [Begin("x", ONE)] + [Begin("y", Policy(0, 0))]

  lemma ExecSnoc(start: Dir, es: seq<Event>, e: Event)
    ensures Exec(start, es + [e]) == Step(Exec(start, es), e)
  {
    assert (es + [e])[..|es|] == es;
  }

  lemma ThreeBegin()
    ensures Exec(map[], BEGUN) == THREE
  {
    assert [] + [Begin("x", ONE)] == [Begin("x", ONE)];
    ExecSnoc(map[], [], Begin("x", ONE));
    ExecSnoc(map[], [Begin("x", ONE)], Begin("x", ONE));
    ExecSnoc(map[], [Begin("x", ONE)] + [Begin("x", ONE)], Begin("y", Policy(0, 0)));
  }

  /** Run 0 and the other job upload. */
  lemma TwoUpload()
    ensures var s := Step(Step(THREE, Upload(0, 1, 1)), Upload(2, 2, 1));
      && s.dir == MEANWHILE && |s.runs| == 3 && s.runs[1] == THREE.runs[1]
      && s.runs[0] == Run("x", ONE, Stored, {}, 0, 0)
  {
    assert After(After(map[], Uploaded(0, "x", Some(Meta(1, false, 1)), true)),
                 Uploaded(2, "y", Some(Meta(2, false, 1)), true)) == MEANWHILE;
  }

  lemma SeenIsListing(now: int)
    ensures Listing(MEANWHILE, SEEN) && Selected(SEEN, now, ONE) == {"x"}
  {
    assert SEEN[0].name in Names(SEEN) && SEEN[1].name in Names(SEEN);
    SelectedAt(SEEN, now, ONE, 0);
    SelectedAt(SEEN, now, ONE, 1);
    SelectedListed(SEEN, now, ONE);
    forall n | n in Selected(SEEN, now, ONE) ensures n == "x" {
      var i :| 0 <= i < |SEEN| && SEEN[i].name == n;
    }
  }

  /** Run 0 lists, run 1 uploads its archive, and run 0 deletes from its listing. */
  lemma StaleDelete(s: State, now: int)
    requires s.dir == MEANWHILE && |s.runs| == 3 && s.runs[0] == Run("x", ONE, Stored, {}, 0, 0)
    requires s.runs[1] == Run("x", ONE, Working, {}, 0, 0)
    ensures var t := Step(Step(Step(s, List(0, SEEN, now)), Upload(1, 3, 1)), Delete(0, "x", true));
      && t.dir == map["y" := Meta(2, false, 1)] && |t.runs| == 3 && t.runs[1].pc.Stored?
      && Uploaded(1, "x", Some(Meta(3, false, 1)), true) in t.log
  {
    SeenIsListing(now);
    var a := Step(s, List(0, SEEN, now));
    assert a.runs[0].todo == {"x"} && a.runs[0].pc.Deleting? && a.runs[1] == s.runs[1] && a.dir == MEANWHILE;
    hide Listing, Selected;
    var b := Step(a, Upload(1, 3, 1));
    assert b.log[|a.log|] == Uploaded(1, "x", Some(Meta(3, false, 1)), true);
    assert b.dir == MEANWHILE["x" := Meta(3, false, 1)] && b.runs[0] == a.runs[0];
    var t := Step(b, Delete(0, "x", true));
    assert t.dir == b.dir - {"x"} && t.log[|a.log|] == b.log[|a.log|];
  }

  /** The archive of the second run, uploaded successfully and the newest of the directory, is
      deleted by the first run from a listing that held its predecessor. */
  lemma StaleListingLosesArchive(now: int)
    ensures var s := Exec(map[], BEGUN + [Upload(0, 1, 1)] + [Upload(2, 2, 1)]
                                 + [List(0, SEEN, now)] + [Upload(1, 3, 1)] + [Delete(0, "x", true)]);
      && s.dir == map["y" := Meta(2, false, 1)] && |s.runs| == 3 && s.runs[1].pc.Stored?
      && Uploaded(1, "x", Some(Meta(3, false, 1)), true) in s.log
  {
    var es := BEGUN + [Upload(0, 1, 1)] + [Upload(2, 2, 1)];
    ThreeBegin();
    TwoUpload();
    hide Step, Exec, BEGUN, SEEN, MEANWHILE;
    ExecSnoc(map[], BEGUN, Upload(0, 1, 1));
    ExecSnoc(map[], BEGUN + [Upload(0, 1, 1)], Upload(2, 2, 1));
    StaleDelete(Exec(map[], es), now);
    ExecSnoc(map[], es, List(0, SEEN, now));
    ExecSnoc(map[], es + [List(0, SEEN, now)], Upload(1, 3, 1));
    ExecSnoc(map[], es + [List(0, SEEN, now)] + [Upload(1, 3, 1)], Delete(0, "x", true));
  }

  // ---------------------------------------------------------------- a run by itself

  function NameSet(ns: seq<string>): set<string> {
    set n | n in ns
  }

  /** Run `i` lists the directory and tries to delete `ns`, and nothing happens in between. */
  ghost function Alone(s: State, i: nat, files: seq<Item>, now: int, ns: seq<string>, fails: set<string>): State {
    if ns == [] then Step(s, List(i, files, now))
    else
      var n := ns[|ns| - 1];
      Step(Alone(s, i, files, now, ns[..|ns| - 1], fails), Delete(i, n, n !in fails))
  }

  lemma {:induction false} AloneSteps(s: State, i: nat, files: seq<Item>, now: int, ns: seq<string>, fails: set<string>)
    requires MayList(s, i, files) && NameSet(ns) <= Selected(files, now, s.runs[i].policy)
    requires forall j, k :: 0 <= j < k < |ns| ==> ns[j] != ns[k]
    ensures var t := Alone(s, i, files, now, ns, fails);
      && i < |t.runs| && t.runs[i].pc.Deleting?
      && t.runs[i].todo == Selected(files, now, s.runs[i].policy) - NameSet(ns)
      && t.dir == Without(s.dir, NameSet(ns) - fails)
  {
    hide Selected, Listing;
    if ns != [] {
      var init, n := ns[..|ns| - 1], ns[|ns| - 1];
      assert NameSet(ns) == NameSet(init) + {n} by { assert ns == init + [n]; }
      assert n !in NameSet(init);
      AloneSteps(s, i, files, now, init, fails);
    } else {
      assert NameSet(ns) - fails == {};
      assert Without(s.dir, {}) == s.dir;
    }
  }

  /** A run whose retention nothing interrupts makes one pass, whatever fails and in whatever
      order it deletes. */
  lemma AloneIsPass(s: State, i: nat, files: seq<Item>, now: int, ns: seq<string>, fails: set<string>)
    requires MayList(s, i, files) && NameSet(ns) == Selected(files, now, s.runs[i].policy)
    requires forall j, k :: 0 <= j < k < |ns| ==> ns[j] != ns[k]
    ensures var t := Alone(s, i, files, now, ns, fails);
      i < |t.runs| && t.runs[i].todo == {} && Pass(s.dir, now, s.runs[i].policy, fails, t.dir)
  {
    AloneSteps(s, i, files, now, ns, fails);
  }
}
