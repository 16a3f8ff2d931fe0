/** Retention passes in which deletions fail, and what a backup run can rely on. */
module RetentionFailures {
  import opened Retention
  import opened RetentionLaws

  // ---------------------------------------------------------------- failed deletions

  /** The items whose names are in `keep`. */
  function Among(files: seq<Item>, keep: set<string>): (r: seq<Item>)
    ensures |r| <= |files|
  {
    if files == [] then []
    else Among(files[..|files| - 1], keep)
         + if files[|files| - 1].name in keep then [files[|files| - 1]] else []
  }

  lemma {:induction false} AmongIn(files: seq<Item>, keep: set<string>, x: Item)
    ensures x in Among(files, keep) <==> x in files && x.name in keep
  {
    if files != [] {
      AmongIn(files[..|files| - 1], keep, x);
      assert files == files[..|files| - 1] + [files[|files| - 1]];
    }
  }

  lemma {:induction false} AmongOrder(files: seq<Item>, keep: set<string>)
    requires NewestFirst(files) && DistinctNames(files)
    ensures NewestFirst(Among(files, keep)) && DistinctNames(Among(files, keep))
  {
    if files != [] {
      var n := |files| - 1;
      AmongOrder(files[..n], keep);
      var r := Among(files[..n], keep);
      forall i | 0 <= i < |r| ensures r[i].modTime >= files[n].modTime && r[i].name != files[n].name {
        AmongIn(files[..n], keep, r[i]);
      }
    }
  }

  lemma AmongLists(dir: Dir, files: seq<Item>, gone: set<string>)
    requires Listing(dir, files)
    ensures Listing(Without(dir, gone), Among(files, dir.Keys - gone))
  {
    var d, r := Without(dir, gone), Among(files, dir.Keys - gone);
    AmongOrder(files, dir.Keys - gone);
    forall i | 0 <= i < |r| ensures IsFile(d, r[i].name) && r[i] == ItemOf(d, r[i].name) {
      AmongIn(files, dir.Keys - gone, r[i]);
    }
    forall n | IsFile(d, n) ensures n in Names(r) {
      assert n in Names(files);
      var i :| 0 <= i < |files| && files[i].name == n;
      AmongIn(files, dir.Keys - gone, files[i]);
    }
  }

  lemma {:induction false} AmongConcat(a: seq<Item>, b: seq<Item>, keep: set<string>)
    ensures Among(a + b, keep) == Among(a, keep) + Among(b, keep)
  {
    if b == [] {
      assert a + b == a;
    } else {
      AmongConcat(a, b[..|b| - 1], keep);
      assert (a + b)[..|a + b| - 1] == a + b[..|b| - 1];
      assert (a + b)[|a + b| - 1] == b[|b| - 1];
    }
  }

  lemma {:induction false} AmongAll(files: seq<Item>, keep: set<string>)
    requires forall i :: 0 <= i < |files| ==> files[i].name in keep
    ensures Among(files, keep) == files
  {
    if files != [] {
      AmongAll(files[..|files| - 1], keep);
      assert files == files[..|files| - 1] + [files[|files| - 1]];
    }
  }

  lemma {:induction false} UnexpiredAtLeast(g: seq<Item>, k: nat, now: int, days: int)
    requires k <= |g| && forall i :: 0 <= i < k ==> !Expired(now, g[i].modTime, days)
    ensures Unexpired(g, now, days) >= k
  {
    if k > 0 { UnexpiredAtLeast(g[..|g| - 1], if k == |g| then k - 1 else k, now, days); }
  }

  lemma {:induction false} UnexpiredAtMost(g: seq<Item>, k: nat, now: int, days: int)
    requires forall i :: k <= i < |g| ==> Expired(now, g[i].modTime, days)
    ensures Unexpired(g, now, days) <= k
  {
    if g != [] && k < |g| { UnexpiredAtMost(g[..|g| - 1], k, now, days); }
  }

  /** A list that keeps the first `KeepCount` files and then some of the others keeps as many again. */
  lemma KeepCountWithLeftovers(files: seq<Item>, now: int, p: Policy, rest: seq<Item>)
    requires NewestFirst(files)
    requires forall x :: x in rest ==> x in files[KeepCount(files, now, p)..]
    ensures var k := KeepCount(files, now, p); KeepCount(files[..k] + rest, now, p) == k
  {
    var k, u := KeepCount(files, now, p), Unexpired(files, now, p.days);
    var g := files[..k] + rest;
    assert rest != [] ==> rest[0] in files[k..];
    if p.days > 0 {
      UnexpiredPrefix(files, now, p.days);
      UnexpiredAtLeast(g, k, now, p.days);
      if k == u {
        forall i | k <= i < |g| ensures Expired(now, g[i].modTime, p.days) {
          assert g[i] in rest;
          var j :| k <= j < |files| && files[j] == g[i];
        }
        UnexpiredAtMost(g, k, now, p.days);
      }
    }
  }

  /** A listing the pass may have seen. */
  lemma FailedListing(dir: Dir, now: int, p: Policy, fails: set<string>, d1: Dir) returns (files: seq<Item>)
    requires Pass(dir, now, p, fails, d1)
    ensures Listing(dir, files) && d1 == Without(dir, Selected(files, now, p) - fails)
  {
    if p.Active() {
      files :| Listing(dir, files) && d1 == Without(dir, Selected(files, now, p) - fails);
    } else {
      files := ListingExists(dir);
      assert Selected(files, now, p) - fails == {};
      assert Without(dir, {}) == dir;
    }
  }

  /** `d` is what `full` is but for the deletions that failed. */
  ghost predicate KeepsMore(dir: Dir, full: Dir, d: Dir, fails: set<string>) {
    && full.Keys <= d.Keys <= dir.Keys
    && d.Keys - full.Keys == (dir.Keys - full.Keys) * fails
    && (forall n :: n in d ==> d[n] == dir[n])
    && (forall n :: n in dir && dir[n].isDir ==> n in full)
  }

  /** For every directory and every pass over it, whatever fails: some pass without failures
      removes the same targets, and the two differ by the failed deletions only.  Nothing but
      a successful target goes, and directories and unselected files stay as they are. */
  lemma FailuresOnlyKeepMore(dir: Dir, now: int, p: Policy, fails: set<string>, d: Dir)
    requires Pass(dir, now, p, fails, d)
    ensures exists full :: Pass(dir, now, p, {}, full) && KeepsMore(dir, full, d, fails)
  {
    var files := FailedListing(dir, now, p, fails, d);
    var full := Without(dir, Selected(files, now, p));
    PassOfListing(dir, files, now, p);
    GoneAreListed(dir, files, now, p);
    hide Selected;
    assert KeepsMore(dir, full, d, fails);
  }

  lemma PassOfListing(dir: Dir, files: seq<Item>, now: int, p: Policy)
    requires Listing(dir, files)
    ensures Pass(dir, now, p, {}, Without(dir, Selected(files, now, p)))
  {
    assert Selected(files, now, p) - {} == Selected(files, now, p);
    if !p.Active() { assert Without(dir, Selected(files, now, p)) == dir; }
  }

  lemma GoneAreListed(dir: Dir, files: seq<Item>, now: int, p: Policy)
    requires Listing(dir, files)
    ensures forall n :: n in Selected(files, now, p) ==> IsFile(dir, n)
  {
    SelectedListed(files, now, p);
    forall n | n in Selected(files, now, p) ensures IsFile(dir, n) { assert n in Names(files); }
  }

  /** When modification times are distinct there is only one pass without failures. */
  lemma OnlyOneFullPass(dir: Dir, now: int, p: Policy, fails: set<string>, d: Dir, full: Dir)
    requires DistinctTimes(dir) && Pass(dir, now, p, fails, d) && Pass(dir, now, p, {}, full)
    ensures KeepsMore(dir, full, d, fails)
  {
    FailuresOnlyKeepMore(dir, now, p, fails, d);
    var files := ListingExists(dir);
    var other :| Pass(dir, now, p, {}, other) && KeepsMore(dir, other, d, fails);
    PassGone(dir, files, now, p, full);
    PassGone(dir, files, now, p, other);
  }

  lemma FailedPassGone(dir: Dir, files: seq<Item>, now: int, p: Policy, fails: set<string>, d: Dir)
    requires Listing(dir, files) && DistinctTimes(dir) && Pass(dir, now, p, fails, d)
    ensures d == Without(dir, Selected(files, now, p) - fails)
  {
    if p.Active() {
      var g: seq<Item> :| Listing(dir, g) && d == Without(dir, Selected(g, now, p) - fails);
      UniqueListing(dir, files, g);
    } else {
      assert Selected(files, now, p) - fails == {};
    }
  }

  /** After a pass in which any deletions failed, a later fully successful pass at the same
      instant reaches the result of a pass without failures. */
  lemma RetryRepairs(dir: Dir, now: int, p: Policy, fails: set<string>, d1: Dir, d2: Dir, full: Dir)
    requires DistinctTimes(dir)
    requires Pass(dir, now, p, fails, d1) && Pass(d1, now, p, {}, d2) && Pass(dir, now, p, {}, full)
    ensures d2 == full
  {
    var files := ListingExists(dir);
    FailedPassGone(dir, files, now, p, fails, d1);
    PassIs(dir, files, now, p, full);
    RetryFrom(dir, files, now, p, Selected(files, now, p) - fails, d1, d2);
  }

  lemma RetryFrom(dir: Dir, files: seq<Item>, now: int, p: Policy, gone: set<string>, d1: Dir, d2: Dir)
    requires Listing(dir, files) && DistinctTimes(dir) && gone <= Selected(files, now, p)
    requires d1 == Without(dir, gone) && Pass(d1, now, p, {}, d2)
    ensures d2 == Without(dir, Names(files[KeepCount(files, now, p)..]))
  {
    var k, keep := KeepCount(files, now, p), dir.Keys - gone;
    var rest := Among(files[k..], keep);
    LeftoverList(dir, files, now, p, gone);
    LeftoversBehind(files, k, keep);
    KeepCountWithLeftovers(files, now, p, rest);
    PassIs(d1, files[..k] + rest, now, p, d2);
    assert (files[..k] + rest)[k..] == rest;
    RestNames(files[k..], keep);
    GoneBehind(dir, files, now, p, gone);
    WithoutRest(dir, gone, Names(files[k..]));
  }

  lemma WithoutRest(dir: Dir, gone: set<string>, all: set<string>)
    requires gone <= all
    ensures Without(Without(dir, gone), all * (dir.Keys - gone)) == Without(dir, all)
  {}

  lemma LeftoversBehind(files: seq<Item>, k: nat, keep: set<string>)
    requires k <= |files|
    ensures forall x :: x in Among(files[k..], keep) ==> x in files[k..]
  {
    forall x | x in Among(files[k..], keep) ensures x in files[k..] { AmongIn(files[k..], keep, x); }
  }

  lemma GoneBehind(dir: Dir, files: seq<Item>, now: int, p: Policy, gone: set<string>)
    requires Listing(dir, files) && gone <= Selected(files, now, p)
    ensures gone <= Names(files[KeepCount(files, now, p)..])
  {
    KeepsPrefix(dir, files, now, p);
    SelectedListed(files, now, p);
    SuffixNames(files, KeepCount(files, now, p), Selected(files, now, p));
  }

  lemma LeftoverList(dir: Dir, files: seq<Item>, now: int, p: Policy, gone: set<string>)
    requires Listing(dir, files) && gone <= Selected(files, now, p)
    ensures var k := KeepCount(files, now, p);
      Listing(Without(dir, gone), files[..k] + Among(files[k..], dir.Keys - gone))
  {
    hide *;
    var k, keep := KeepCount(files, now, p), dir.Keys - gone;
    KeptAreAmong(dir, files, now, p, gone);
    AmongLists(dir, files, gone);
    AmongSplit(files, k, keep);
  }

  lemma AmongSplit(files: seq<Item>, k: nat, keep: set<string>)
    requires k <= |files|
    ensures Among(files, keep) == Among(files[..k], keep) + Among(files[k..], keep)
  {
    hide Among;
    AmongConcat(files[..k], files[k..], keep);
    assert files == files[..k] + files[k..];
  }

  lemma KeptAreAmong(dir: Dir, files: seq<Item>, now: int, p: Policy, gone: set<string>)
    requires Listing(dir, files) && gone <= Selected(files, now, p)
    ensures var k := KeepCount(files, now, p); Among(files[..k], dir.Keys - gone) == files[..k]
  {
    var k, keep := KeepCount(files, now, p), dir.Keys - gone;
    KeepsPrefix(dir, files, now, p);
    forall i | 0 <= i < k ensures files[..k][i].name in keep { assert IsFile(dir, files[i].name); }
    AmongAll(files[..k], keep);
  }

  lemma RestNames(files: seq<Item>, keep: set<string>)
    ensures Names(Among(files, keep)) == Names(files) * keep
  {
    forall n | n in Names(files) * keep ensures n in Names(Among(files, keep)) {
      var i :| 0 <= i < |files| && files[i].name == n;
      AmongIn(files, keep, files[i]);
    }
    forall n | n in Names(Among(files, keep)) ensures n in Names(files) * keep {
      var i :| 0 <= i < |Among(files, keep)| && Among(files, keep)[i].name == n;
      AmongIn(files, keep, Among(files, keep)[i]);
    }
  }

  // ---------------------------------------------------------------- what a run can rely on

  /** The files of a directory. */
  function Files(dir: Dir): set<string> {
    set n | n in dir && !dir[n].isDir
  }

  /** After a pass without failures at most `count` files are left. */
  lemma CountIsBound(dir: Dir, now: int, p: Policy, d: Dir)
    requires p.count > 0 && Pass(dir, now, p, {}, d)
    ensures |Files(d)| <= p.count
  {
    var files: seq<Item> :| Listing(dir, files) && d == Without(dir, Selected(files, now, p) - {});
    var k := KeepCount(files, now, p);
    KeepsPrefix(dir, files, now, p);
    forall n | n in Files(d) ensures n in Names(files[..k]) {
      assert n in Names(files);
      var i :| 0 <= i < |files| && files[i].name == n;
      assert files[..k][i].name == n;
    }
    PrefixNames(files, k);
    SubsetSize(Files(d), Names(files[..k]));
  }

  /** A file that is strictly newer than every other file and not expired survives every pass. */
  lemma NewestSurvives(dir: Dir, now: int, p: Policy, fails: set<string>, d: Dir, name: string)
    requires Pass(dir, now, p, fails, d) && IsFile(dir, name)
    requires forall n :: IsFile(dir, n) && n != name ==> dir[n].modTime < dir[name].modTime
    requires p.days > 0 ==> !Expired(now, dir[name].modTime, p.days)
    ensures IsFile(d, name) && d[name] == dir[name]
  {
    if p.Active() {
      var files: seq<Item> :| Listing(dir, files) && d == Without(dir, Selected(files, now, p) - fails);
      assert name in Names(files);
      var i :| 0 <= i < |files| && files[i].name == name;
      assert IsFile(dir, files[0].name) && files[0].modTime >= files[i].modTime;
      SelectedAt(files, now, p, 0);
    }
  }

  /** The policy ranges over the whole directory: files that are not `mine` all survive if and
      only if every file from position `KeepCount` on is mine. */
  lemma OthersSparedIff(dir: Dir, files: seq<Item>, now: int, p: Policy, mine: set<string>)
    requires Listing(dir, files)
    ensures var after := Without(dir, Selected(files, now, p));
      (forall n :: IsFile(dir, n) && n !in mine ==> n in after)
      <==> forall i :: KeepCount(files, now, p) <= i < |files| ==> files[i].name in mine
  {
    var k, after := KeepCount(files, now, p), Without(dir, Selected(files, now, p));
    KeepsPrefix(dir, files, now, p);
    if forall n :: IsFile(dir, n) && n !in mine ==> n in after {
      forall i | k <= i < |files| ensures files[i].name in mine { assert IsFile(dir, files[i].name); }
    }
    forall n | IsFile(dir, n) && n !in after ensures exists i :: k <= i < |files| && files[i].name == n {
      assert n in Names(files);
      var i :| 0 <= i < |files| && files[i].name == n;
    }
  }

  /** The policy ranges over the whole directory: with two jobs writing to one place, a count
      of one kept by the first job deletes the only archive of the second. */
  lemma SharedDirectoryLosesOtherJob(mine: string, other: string, now: int)
    requires mine != other
    ensures var dir := map[mine := Meta(now, false, 1), other := Meta(now - 1, false, 1)];
      Pass(dir, now, Policy(1, 0), {}, map[mine := Meta(now, false, 1)])
  {
    var dir := map[mine := Meta(now, false, 1), other := Meta(now - 1, false, 1)];
    var files := [Item(mine, now, false, 1), Item(other, now - 1, false, 1)];
    assert Listing(dir, files) by { assert files[0].name in Names(files) && files[1].name in Names(files); }
    SelectedAt(files, now, Policy(1, 0), 0);
    SelectedAt(files, now, Policy(1, 0), 1);
    SelectedListed(files, now, Policy(1, 0));
    assert Selected(files, now, Policy(1, 0)) - {} == {other} by {
      forall n | n in Selected(files, now, Policy(1, 0)) ensures n == other {
        var i :| 0 <= i < |files| && files[i].name == n;
      }
    }
    assert Without(dir, {other}) == map[mine := Meta(now, false, 1)];
  }
}
