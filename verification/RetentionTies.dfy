/** The laws of retention for directories in which modification times may coincide: each pass
    breaks ties as it likes, and the laws hold of the number and the ages of the survivors. */
module RetentionTies {
  import opened Retention
  import opened RetentionLaws
  import opened RetentionFailures

  /** However they are listed, the two directories hold as many files of the same ages. */
  ghost predicate EqualAges(d: Dir, e: Dir) {
    forall f, g :: Listing(d, f) && Listing(e, g) ==> SameAges(f, g)
  }

  /** Two passes in a row keep the shorter of the two prefixes. */
  lemma TwoPassesAges(dir: Dir, files: seq<Item>, now: int, p: Policy, q: Policy, d1: Dir, d2: Dir, g: seq<Item>)
    requires Listing(dir, files) && Pass(dir, now, p, {}, d1) && Pass(d1, now, q, {}, d2) && Listing(d2, g)
    ensures SameAges(g, files[..Min(KeepCount(files, now, p), KeepCount(files, now, q))])
  {
    var f1 := ListingExists(d1);
    assert NewestFirst(files);
    hide Listing, Pass, KeepCount;
    PassListing(dir, files, now, p, d1, f1);
    PassListing(d1, f1, now, q, d2, g);
    var k := KeepCount(files, now, p);
    SameKeepCount(f1, files[..k], now, q);
    KeepCountOfPrefix(files, k, now, q);
    AgesOfPrefix(files, k, f1, KeepCount(f1, now, q), g);
  }

  lemma AgesOfPrefix(files: seq<Item>, k: nat, f1: seq<Item>, m: nat, g: seq<Item>)
    requires m <= |f1| && k <= |files| && SameAges(f1, files[..k]) && SameAges(g, f1[..m])
    ensures SameAges(g, files[..m])
  {
    assert forall i :: 0 <= i < m ==> f1[..m][i] == f1[i] && files[..k][i] == files[i] && files[..m][i] == files[i];
  }

  lemma AgesTransitive(f: seq<Item>, g: seq<Item>, h: seq<Item>)
    requires SameAges(f, h) && SameAges(g, h)
    ensures SameAges(f, g)
  {}

  /** Two policies commute. */
  lemma PoliciesCommute(dir: Dir, now: int, p: Policy, q: Policy, dp: Dir, dpq: Dir, dq: Dir, dqp: Dir)
    requires Pass(dir, now, p, {}, dp) && Pass(dp, now, q, {}, dpq)
    requires Pass(dir, now, q, {}, dq) && Pass(dq, now, p, {}, dqp)
    ensures EqualAges(dpq, dqp)
  {
    hide Pass, Listing, KeepCount, SameAges;
    var files := ListingExists(dir);
    var m := Min(KeepCount(files, now, p), KeepCount(files, now, q));
    forall f, g | Listing(dpq, f) && Listing(dqp, g) ensures SameAges(f, g) {
      TwoPassesAges(dir, files, now, p, q, dp, dpq, f);
      TwoPassesAges(dir, files, now, q, p, dq, dqp, g);
      AgesTransitive(f, g, files[..m]);
    }
  }

  /** Two policies one after the other are the tighter count and the tighter age at once,
      provided the tighter age has the smaller product. */
  lemma PoliciesCompose(dir: Dir, now: int, p: Policy, q: Policy, dp: Dir, dpq: Dir, d: Dir)
    requires AgesOrdered(p, q)
    requires Pass(dir, now, p, {}, dp) && Pass(dp, now, q, {}, dpq) && Pass(dir, now, Both(p, q), {}, d)
    ensures EqualAges(dpq, d)
  {
    hide Pass, Listing, KeepCount, SameAges, AgesOrdered, Both;
    var files := ListingExists(dir);
    KeepCountOfBoth(files, now, p, q);
    var m := KeepCount(files, now, Both(p, q));
    forall f, g | Listing(dpq, f) && Listing(d, g) ensures SameAges(f, g) {
      TwoPassesAges(dir, files, now, p, q, dp, dpq, f);
      PassListing(dir, files, now, Both(p, q), d, g);
      AgesTransitive(f, g, files[..m]);
    }
  }

  /** After a pass in which any deletions failed, a later successful pass at the same instant
      keeps as many files of the same ages as a pass without failures. */
  lemma RetryRepairs(dir: Dir, now: int, p: Policy, fails: set<string>, d1: Dir, d2: Dir, full: Dir)
    requires Pass(dir, now, p, fails, d1) && Pass(d1, now, p, {}, d2) && Pass(dir, now, p, {}, full)
    ensures EqualAges(d2, full)
  {
    hide Listing, KeepCount, SameAges;
    var files := FailedListing(dir, now, p, fails, d1);
    forall f, g | Listing(d2, f) && Listing(full, g) ensures SameAges(f, g) {
      RetryAges(dir, files, now, p, fails, d1, d2, f);
      PassListing(dir, files, now, p, full, g);
      AgesTransitive(f, g, files[..KeepCount(files, now, p)]);
    }
  }

  lemma RetryAges(dir: Dir, files: seq<Item>, now: int, p: Policy, fails: set<string>, d1: Dir, d2: Dir, f: seq<Item>)
    requires Listing(dir, files) && d1 == Without(dir, Selected(files, now, p) - fails)
    requires Pass(d1, now, p, {}, d2) && Listing(d2, f)
    ensures SameAges(f, files[..KeepCount(files, now, p)])
  {
    var k, gone := KeepCount(files, now, p), Selected(files, now, p) - fails;
    var rest := Among(files[k..], dir.Keys - gone);
    assert NewestFirst(files);
    hide Listing, Pass, KeepCount, Selected;
    LeftoverList(dir, files, now, p, gone);
    LeftoversBehind(files, k, dir.Keys - gone);
    KeepCountWithLeftovers(files, now, p, rest);
    PassListing(d1, files[..k] + rest, now, p, d2, f);
    assert (files[..k] + rest)[..k] == files[..k];
  }
}
