/** What the retention policy keeps, for every directory, policy and instant. */
module RetentionLaws {
  import opened Values
  import opened Retention

  // ---------------------------------------------------------------- age arithmetic, exactly

  /** The int64 product is the true number of nanoseconds exactly up to 106751 days. */
  lemma ProductFitsIff(days: int)
    requires 1 <= days <= MAX_INT64
    ensures MaxAge(days) == days * DAY <==> days <= 106751
  {}

  /** Wrapping adds a multiple of 2^64. */
  lemma WrapIs(n: int) returns (q: int)
    ensures Wrap64(n) == n - TWO64 * q
  {
    q := (n - MIN_INT64) / TWO64;
  }

  lemma TwiceIsEven(x: int, y: int)
    requires x == 2 * y
    ensures x % 2 == 0
  {}

  lemma MaxAgeIsEven(days: int)
    ensures MaxAge(days) % 2 == 0
  {
    var h := Wrap64(days * 24);
    var q := WrapIs(h * HOUR);
    assert MaxAge(days) == Wrap64(h * HOUR);
    hide *;
    TwiceIsEven(MaxAge(days), h * 1_800_000_000_000 - 0x8000_0000_0000_0000 * q);
  }

  /** Comparing the saturated difference with the wrapped product agrees with the comparison
      over the integers for every pair of instants exactly up to 106751 days. */
  lemma AgeTestExactIff(days: int)
    requires 1 <= days <= MAX_INT64
    ensures (forall now, modTime :: Expired(now, modTime, days) <==> now - modTime > days * DAY)
       <==> days <= 106751
  {
    ProductFitsIff(days);
    MaxAgeIsEven(days);
    if days > 106751 {
      assert Expired(MAX_INT64, 0, days) && !(MAX_INT64 - 0 > days * DAY);
    }
  }

  /** At 106752 days a file written this very instant is selected for deletion. */
  lemma OverflowExpiresEverything(now: int)
    ensures Expired(now, now, 106752)
  {}

  /** Older files expire first, whatever the product wrapped to. */
  lemma ExpiredMonotone(now: int, a: int, b: int, days: int)
    requires a >= b && Expired(now, a, days)
    ensures Expired(now, b, days)
  {}

  // ---------------------------------------------------------------- survivors are a prefix

  lemma {:induction false} UnexpiredPrefix(files: seq<Item>, now: int, days: int)
    requires NewestFirst(files)
    ensures forall i :: 0 <= i < |files| ==>
      (Expired(now, files[i].modTime, days) <==> i >= Unexpired(files, now, days))
  {
    if files != [] {
      var n := |files| - 1;
      UnexpiredPrefix(files[..n], now, days);
      assert forall i :: 0 <= i < n ==> files[..n][i] == files[i];
      if Unexpired(files[..n], now, days) < n { ExpiredMonotone(now, files[n - 1].modTime, files[n].modTime, days); }
    }
  }

  /** For every listing the policy keeps the first `KeepCount` files and selects the others,
      so no deleted file is strictly newer than a kept one. */
  lemma KeepsPrefix(dir: Dir, files: seq<Item>, now: int, p: Policy)
    requires Listing(dir, files)
    ensures forall i :: 0 <= i < |files| ==>
      (files[i].name in Selected(files, now, p) <==> i >= KeepCount(files, now, p))
    ensures forall kept, gone ::
      IsFile(dir, kept) && kept !in Selected(files, now, p) && gone in Selected(files, now, p) ==>
      IsFile(dir, gone) && dir[kept].modTime >= dir[gone].modTime
  {
    UnexpiredPrefix(files, now, p.days);
    forall i | 0 <= i < |files|
      ensures files[i].name in Selected(files, now, p) <==> i >= KeepCount(files, now, p)
    {
      SelectedAt(files, now, p, i);
    }
    forall kept, gone | IsFile(dir, kept) && kept !in Selected(files, now, p) && gone in Selected(files, now, p)
      ensures IsFile(dir, gone) && dir[kept].modTime >= dir[gone].modTime
    {
      assert kept in Names(files) && gone in Names(files);
      var a :| 0 <= a < |files| && files[a].name == kept;
      var b :| 0 <= b < |files| && files[b].name == gone;
      assert a < b;
    }
  }

  lemma SelectedAt(files: seq<Item>, now: int, p: Policy, i: nat)
    requires DistinctNames(files) && i < |files|
    ensures files[i].name in Selected(files, now, p) <==>
      (p.days > 0 && Expired(now, files[i].modTime, p.days)) || (p.count > 0 && i >= p.count)
  {
    if files[i].name in ByAge(files, now, p.days) {
      var k :| 0 <= k < |files| && Expired(now, files[k].modTime, p.days) && files[k].name == files[i].name;
      assert k == i;
    }
    if files[i].name in ByCount(files, p.count) {
      var k :| p.count <= k < |files| && files[k].name == files[i].name;
      assert k == i;
    }
  }

  /** Everything selected is listed. */
  lemma SelectedListed(files: seq<Item>, now: int, p: Policy)
    ensures Selected(files, now, p) <= Names(files)
  {}

  // ---------------------------------------------------------------- ties do not matter

  lemma {:induction false} NamesSize(files: seq<Item>)
    requires DistinctNames(files)
    ensures |Names(files)| == |files|
  {
    if files == [] {
      assert Names(files) == {};
    } else {
      var n := |files| - 1;
      NamesSnocNew(files, n);
      hide *;
      NamesSize(files[..n]);
    }
  }

  lemma NamesSnocNew(files: seq<Item>, n: nat)
    requires DistinctNames(files) && n + 1 == |files|
    ensures DistinctNames(files[..n])
    ensures Names(files) == Names(files[..n]) + {files[n].name} && files[n].name !in Names(files[..n])
  {
    assert forall i :: 0 <= i < n ==> files[..n][i] == files[i];
  }

  lemma PrefixNames(f: seq<Item>, k: nat)
    requires k <= |f| && DistinctNames(f)
    ensures |Names(f[..k])| == k && DistinctNames(f[..k])
  {
    NamesSize(f[..k]);
  }

  /** Two listings of a directory have the same length and the same modification time at
      every position, however ties were broken. */
  lemma SameTimes(dir: Dir, f: seq<Item>, g: seq<Item>)
    requires Listing(dir, f) && Listing(dir, g)
    ensures |f| == |g| && forall i :: 0 <= i < |f| ==> f[i].modTime == g[i].modTime
  {
    NamesSize(f);
    NamesSize(g);
    assert Names(f) == Names(g) by {
      assert forall n :: n in Names(f) <==> IsFile(dir, n);
      assert forall n :: n in Names(g) <==> IsFile(dir, n);
    }
    forall i | 0 <= i < |f| ensures f[i].modTime == g[i].modTime {
      NotNewer(dir, f, g, i);
      NotNewer(dir, g, f, i);
    }
  }

  lemma NotNewer(dir: Dir, f: seq<Item>, g: seq<Item>, i: nat)
    requires Listing(dir, f) && Listing(dir, g) && i < |f| == |g|
    ensures f[i].modTime <= g[i].modTime
  {
    if f[i].modTime > g[i].modTime {
      NewerNames(dir, f, g, i);
      hide *;
      PrefixNames(f, i + 1);
      PrefixNames(g, i);
      SubsetSize(Names(f[..i + 1]), Names(g[..i]));
      assert false;
    }
  }

  lemma NewerNames(dir: Dir, f: seq<Item>, g: seq<Item>, i: nat)
    requires Listing(dir, f) && Listing(dir, g) && i < |f| == |g| && f[i].modTime > g[i].modTime
    ensures Names(f[..i + 1]) <= Names(g[..i])
  {
    forall a | 0 <= a <= i ensures f[a] in g[..i] {
      SameItem(dir, f, g, a);
      InPrefix(g, f[a], f[i].modTime, i) by { assert f[a].modTime >= f[i].modTime; }
    }
    hide *;
    SubsetNames(f[..i + 1], g[..i]) by { assert forall a :: 0 <= a < i + 1 ==> f[..i + 1][a] == f[a]; }
  }

  lemma InPrefix(g: seq<Item>, x: Item, t: int, i: nat)
    requires NewestFirst(g) && x in g && x.modTime >= t && i < |g| && g[i].modTime < t
    ensures x in g[..i]
  {
    var b :| 0 <= b < |g| && g[b] == x;
    assert b < i;
    assert g[..i][b] == x;
  }

  lemma SubsetNames(a: seq<Item>, b: seq<Item>)
    requires forall k :: 0 <= k < |a| ==> a[k] in b
    ensures Names(a) <= Names(b)
  {
    forall n | n in Names(a) ensures n in Names(b) {
      var k :| 0 <= k < |a| && a[k].name == n;
      var j :| 0 <= j < |b| && b[j] == a[k];
    }
  }

  /** Two listings of one directory hold the same items. */
  lemma SameItem(dir: Dir, f: seq<Item>, g: seq<Item>, a: nat)
    requires Listing(dir, f) && Listing(dir, g) && a < |f|
    ensures f[a] in g
  {
    assert f[a].name in Names(g);
    var b :| 0 <= b < |g| && g[b].name == f[a].name;
    assert g[b] == ItemOf(dir, f[a].name) == f[a];
  }

  lemma {:induction false} SubsetSize(a: set<string>, b: set<string>)
    requires a <= b
    ensures |a| <= |b|
  {
    if a != {} {
      var x :| x in a;
      SubsetSize(a - {x}, b - {x});
    }
  }

  lemma {:induction false} SameUnexpired(f: seq<Item>, g: seq<Item>, now: int, days: int)
    requires |f| == |g| && forall i :: 0 <= i < |f| ==> f[i].modTime == g[i].modTime
    ensures Unexpired(f, now, days) == Unexpired(g, now, days)
  {
    if f != [] { SameUnexpired(f[..|f| - 1], g[..|g| - 1], now, days); }
  }

  /** The number of survivors and their modification times do not depend on how the unstable
      sort broke ties. */
  lemma TieIndependent(dir: Dir, f: seq<Item>, g: seq<Item>, now: int, p: Policy)
    requires Listing(dir, f) && Listing(dir, g)
    ensures KeepCount(f, now, p) == KeepCount(g, now, p)
    ensures forall i :: 0 <= i < KeepCount(f, now, p) ==> f[i].modTime == g[i].modTime
  {
    SameTimes(dir, f, g);
    SameKeepCount(f, g, now, p);
  }

  lemma SameKeepCount(f: seq<Item>, g: seq<Item>, now: int, p: Policy)
    requires |f| == |g| && forall i :: 0 <= i < |f| ==> f[i].modTime == g[i].modTime
    ensures KeepCount(f, now, p) == KeepCount(g, now, p)
  {
    SameUnexpired(f, g, now, p.days);
  }

  // ---------------------------------------------------------------- passes on directories

  ghost predicate DistinctTimes(dir: Dir) {
    forall a, b :: IsFile(dir, a) && IsFile(dir, b) && a != b ==> dir[a].modTime != dir[b].modTime
  }

  lemma UniqueListing(dir: Dir, f: seq<Item>, g: seq<Item>)
    requires Listing(dir, f) && Listing(dir, g) && DistinctTimes(dir)
    ensures f == g
  {
    SameTimes(dir, f, g);
    forall i | 0 <= i < |f| ensures f[i] == g[i] {
      assert IsFile(dir, f[i].name) && IsFile(dir, g[i].name);
    }
  }

  /** Every directory has a listing. */
  lemma {:induction false} ListingExists(dir: Dir) returns (files: seq<Item>)
    ensures Listing(dir, files)
    decreases |dir|
  {
    if n :| IsFile(dir, n) {
      var rest := dir - {n};
      assert rest.Keys == dir.Keys - {n};
      var smaller := ListingExists(rest);
      files := Insert(smaller, ItemOf(dir, n));
      InsertLists(dir, n, smaller);
    } else {
      files := [];
    }
  }

  function Insert(files: seq<Item>, x: Item): (r: seq<Item>)
    ensures |r| == |files| + 1
    ensures forall y :: y in r <==> y == x || y in files
  {
    if files == [] || files[0].modTime <= x.modTime then [x] + files
    else [files[0]] + Insert(files[1..], x)
  }

  lemma {:induction false} InsertOrder(files: seq<Item>, x: Item)
    requires NewestFirst(files) && DistinctNames(files)
    requires forall y :: y in files ==> y.name != x.name
    ensures NewestFirst(Insert(files, x)) && DistinctNames(Insert(files, x))
  {
    if !(files == [] || files[0].modTime <= x.modTime) {
      var rest := files[1..];
      assert forall y :: y in rest ==> y in files;
      assert forall y :: y in rest ==> files[0].modTime >= y.modTime && files[0].name != y.name;
      InsertOrder(rest, x);
      var r := Insert(rest, x);
      hide Insert;
      assert forall i :: 0 <= i < |r| ==> r[i] in r;
      HeadOrder(files[0], r);
    }
  }

  lemma HeadOrder(head: Item, rest: seq<Item>)
    requires NewestFirst(rest) && DistinctNames(rest)
    requires forall i :: 0 <= i < |rest| ==> head.modTime >= rest[i].modTime && head.name != rest[i].name
    ensures NewestFirst([head] + rest) && DistinctNames([head] + rest)
  {}

  lemma InsertLists(dir: Dir, n: string, smaller: seq<Item>)
    requires IsFile(dir, n) && Listing(dir - {n}, smaller)
    ensures Listing(dir, Insert(smaller, ItemOf(dir, n)))
  {
    var x, r := ItemOf(dir, n), Insert(smaller, ItemOf(dir, n));
    assert forall y :: y in smaller ==> y.name != n;
    InsertOrder(smaller, x);
    forall i | 0 <= i < |r| ensures IsFile(dir, r[i].name) && r[i] == ItemOf(dir, r[i].name) {
      assert r[i] in r;
      if r[i] != x { assert r[i] in smaller; }
    }
    forall m | IsFile(dir, m) ensures m in Names(r) {
      if m == n {
        assert x in r;
      } else {
        assert IsFile(dir - {n}, m) && m in Names(smaller);
        var k :| 0 <= k < |smaller| && smaller[k].name == m;
        assert smaller[k] in r;
      }
    }
  }

  /** Dropping the files behind position `k` of a listing. */
  lemma PrefixLists(dir: Dir, files: seq<Item>, k: nat, gone: set<string>)
    requires Listing(dir, files) && k <= |files|
    requires forall i :: 0 <= i < |files| ==> (files[i].name in gone <==> i >= k)
    requires gone <= Names(files)
    ensures Listing(Without(dir, gone), files[..k])
  {
    var d := Without(dir, gone);
    forall n | IsFile(d, n) ensures n in Names(files[..k]) {
      assert IsFile(dir, n) && n in Names(files);
      var i :| 0 <= i < |files| && files[i].name == n;
      assert i < k && files[..k][i].name == n;
    }
  }

  /** A pass without failures keeps the first `KeepCount` files of the one listing. */
  lemma PassIs(dir: Dir, files: seq<Item>, now: int, p: Policy, d: Dir)
    requires Listing(dir, files) && DistinctTimes(dir) && Pass(dir, now, p, {}, d)
    ensures var k := KeepCount(files, now, p);
      && d == Without(dir, Names(files[k..]))
      && Listing(d, files[..k]) && DistinctTimes(d)
  {
    PassGone(dir, files, now, p, d);
    var k, gone := KeepCount(files, now, p), Selected(files, now, p);
    KeepsPrefix(dir, files, now, p);
    SelectedListed(files, now, p);
    PrefixLists(dir, files, k, gone);
    SuffixNames(files, k, gone);
  }

  lemma PassGone(dir: Dir, files: seq<Item>, now: int, p: Policy, d: Dir)
    requires Listing(dir, files) && DistinctTimes(dir) && Pass(dir, now, p, {}, d)
    ensures d == Without(dir, Selected(files, now, p))
  {
    if p.Active() {
      var g :| Listing(dir, g) && d == Without(dir, Selected(g, now, p) - {});
      UniqueListing(dir, files, g);
      assert Selected(g, now, p) - {} == Selected(g, now, p);
    } else {
      assert Selected(files, now, p) == {};
    }
  }

  lemma SuffixNames(files: seq<Item>, k: nat, gone: set<string>)
    requires k <= |files| && gone <= Names(files)
    requires forall i :: 0 <= i < |files| ==> (files[i].name in gone <==> i >= k)
    ensures gone == Names(files[k..])
  {
    forall n | n in gone ensures n in Names(files[k..]) {
      var i :| 0 <= i < |files| && files[i].name == n;
      assert files[k..][i - k].name == n;
    }
    forall n | n in Names(files[k..]) ensures n in gone {
      var i :| 0 <= i < |files[k..]| && files[k..][i].name == n;
      assert files[k + i].name == n;
    }
  }

  lemma {:induction false} UnexpiredOfPrefix(files: seq<Item>, k: nat, now: int, days: int)
    requires NewestFirst(files) && k <= |files|
    ensures Unexpired(files[..k], now, days) == Min(k, Unexpired(files, now, days))
  {
    UnexpiredPrefix(files, now, days);
    UnexpiredPrefix(files[..k], now, days);
    var a, b := Unexpired(files[..k], now, days), Unexpired(files, now, days);
    if a < k { assert files[..k][a] == files[a]; }
    if b < k { assert files[..k][b] == files[b]; }
  }

  /** Two passes in a row keep the shorter of the two prefixes. */
  lemma TwoPasses(dir: Dir, files: seq<Item>, now: int, p: Policy, q: Policy, d1: Dir, d2: Dir)
    requires Listing(dir, files) && DistinctTimes(dir)
    requires Pass(dir, now, p, {}, d1) && Pass(d1, now, q, {}, d2)
    ensures d2 == Without(dir, Names(files[Min(KeepCount(files, now, p), KeepCount(files, now, q))..]))
  {
    assert NewestFirst(files);
    hide *;
    PassIs(dir, files, now, p, d1);
    var k := KeepCount(files, now, p);
    PassIs(d1, files[..k], now, q, d2);
    KeepCountOfPrefix(files, k, now, q);
    var m := KeepCount(files[..k], now, q);
    NamesOfRest(files, m, k);
    WithoutTwice(dir, Names(files[k..]), Names(files[..k][m..]));
  }

  lemma WithoutTwice(dir: Dir, a: set<string>, b: set<string>)
    ensures Without(Without(dir, a), b) == Without(dir, b + a)
  {}

  lemma KeepCountOfPrefix(files: seq<Item>, k: nat, now: int, q: Policy)
    requires NewestFirst(files) && k <= |files|
    ensures KeepCount(files[..k], now, q) == Min(k, KeepCount(files, now, q))
  {
    UnexpiredOfPrefix(files, k, now, q.days);
  }

  lemma NamesOfRest(files: seq<Item>, m: nat, k: nat)
    requires m <= k <= |files|
    ensures Names(files[m..]) == Names(files[..k][m..]) + Names(files[k..])
  {
    assert files[m..] == files[..k][m..] + files[k..];
    NamesConcat(files[..k][m..], files[k..]);
  }

  lemma NamesConcat(a: seq<Item>, b: seq<Item>)
    ensures Names(a + b) == Names(a) + Names(b)
  {
    assert forall i :: 0 <= i < |a| ==> (a + b)[i] == a[i];
    assert forall i :: 0 <= i < |b| ==> (a + b)[|a| + i] == b[i];
  }

  /** Whatever listings two passes saw: what is left after the first, listed again, is as many
      files as the policy keeps, of the same ages. */
  lemma PassListing(dir: Dir, f: seq<Item>, now: int, p: Policy, d: Dir, g: seq<Item>)
    requires Listing(dir, f) && Pass(dir, now, p, {}, d) && Listing(d, g)
    ensures |g| == KeepCount(f, now, p) && SameAges(g, f[..KeepCount(f, now, p)])
  {
    if p.Active() {
      var h: seq<Item> :| Listing(dir, h) && d == Without(dir, Selected(h, now, p) - {});
      var k, gone := KeepCount(h, now, p), Selected(h, now, p) - {};
      KeepsPrefix(dir, h, now, p);
      SelectedListed(h, now, p);
      PrefixLists(dir, h, k, gone);
      hide *;
      SameTimes(d, h[..k], g);
      SameTimes(dir, f, h);
      SameKeepCount(f, h, now, p);
      AgesOf(f, h, g, k);
    } else {
      hide Listing;
      SameTimes(dir, f, g);
      AgesOf(f, f, g, |f|);
    }
  }

  /** The same number of files, and the same modification time at every position. */
  ghost predicate SameAges(f: seq<Item>, g: seq<Item>) {
    |f| == |g| && forall i :: 0 <= i < |f| ==> f[i].modTime == g[i].modTime
  }

  lemma AgesOf(f: seq<Item>, h: seq<Item>, g: seq<Item>, k: nat)
    requires |f| == |h| && k <= |h| && forall i :: 0 <= i < |f| ==> f[i].modTime == h[i].modTime
    requires |h[..k]| == |g| && forall i :: 0 <= i < |h[..k]| ==> h[..k][i].modTime == g[i].modTime
    ensures |g| == k && SameAges(g, f[..k])
  {
    assert forall i :: 0 <= i < k ==> h[..k][i] == h[i] && f[..k][i] == f[i];
  }

  lemma NothingSelected(dir: Dir, g: seq<Item>, now: int, p: Policy)
    requires Listing(dir, g) && KeepCount(g, now, p) == |g|
    ensures Selected(g, now, p) == {}
  {
    KeepsPrefix(dir, g, now, p);
    SelectedListed(g, now, p);
    hide *;
    forall n | n in Names(g) ensures n !in Selected(g, now, p) {
      var i :| 0 <= i < |g| && g[i].name == n;
    }
  }

  lemma SecondListing(dir: Dir, f: seq<Item>, now: int, p: Policy, d: Dir, g: seq<Item>)
    requires Listing(dir, f) && Pass(dir, now, p, {}, d) && Listing(d, g)
    ensures KeepCount(g, now, p) == |g|
  {
    assert NewestFirst(f);
    hide Pass, Listing, KeepCount, Selected;
    PassListing(dir, f, now, p, d, g);
    var k := KeepCount(f, now, p);
    SameKeepCount(g, f[..k], now, p);
    KeepCountOfPrefix(f, k, now, p);
  }

  /** Applying a policy twice at one instant equals applying it once. */
  lemma ApplyTwice(dir: Dir, now: int, p: Policy, d1: Dir, d2: Dir)
    requires Pass(dir, now, p, {}, d1) && Pass(d1, now, p, {}, d2)
    ensures d2 == d1
  {
    if p.Active() {
      var f := ListingExists(dir);
      var g: seq<Item> :| Listing(d1, g) && d2 == Without(d1, Selected(g, now, p) - {});
      assert Without(d1, {} - {}) == d1;
      hide *;
      SecondListing(dir, f, now, p, d1, g);
      NothingSelected(d1, g, now, p);
    }
  }

  /** Two policies commute. */
  lemma PoliciesCommute(dir: Dir, now: int, p: Policy, q: Policy, dp: Dir, dpq: Dir, dq: Dir, dqp: Dir)
    requires DistinctTimes(dir)
    requires Pass(dir, now, p, {}, dp) && Pass(dp, now, q, {}, dpq)
    requires Pass(dir, now, q, {}, dq) && Pass(dq, now, p, {}, dqp)
    ensures dpq == dqp
  {
    var files := ListingExists(dir);
    TwoPasses(dir, files, now, p, q, dp, dpq);
    TwoPasses(dir, files, now, q, p, dq, dqp);
  }

  /** The smaller of two bounds, where zero or less means unlimited. */
  function Tighter(a: int, b: int): int {
    if a <= 0 then b else if b <= 0 then a else Min(a, b)
  }

  function Both(p: Policy, q: Policy): Policy {
    Policy(Tighter(p.count, q.count), Tighter(p.days, q.days))
  }

  /** The tighter of two age limits also has the smaller wrapped product. */
  predicate AgesOrdered(p: Policy, q: Policy) {
    p.days > 0 && q.days > 0 ==> MaxAge(Min(p.days, q.days)) == Min(MaxAge(p.days), MaxAge(q.days))
  }

  /** Within the exact range of the arithmetic the condition always holds. */
  lemma SmallAgesOrdered(p: Policy, q: Policy)
    requires p.days <= 106751 && q.days <= 106751
    ensures AgesOrdered(p, q)
  {}

  lemma {:induction false} UnexpiredOfSmallerAge(files: seq<Item>, now: int, a: int, b: int)
    requires MaxAge(a) <= MaxAge(b)
    ensures Unexpired(files, now, a) <= Unexpired(files, now, b)
  {
    if files != [] { UnexpiredOfSmallerAge(files[..|files| - 1], now, a, b); }
  }

  /** Applying two policies one after the other equals applying the tighter count and the
      tighter age at once, provided the tighter age has the smaller product. */
  lemma PoliciesCompose(dir: Dir, now: int, p: Policy, q: Policy, dp: Dir, dpq: Dir, d: Dir)
    requires DistinctTimes(dir) && AgesOrdered(p, q)
    requires Pass(dir, now, p, {}, dp) && Pass(dp, now, q, {}, dpq)
    requires Pass(dir, now, Both(p, q), {}, d)
    ensures dpq == d
  {
    var files := ListingExists(dir);
    TwoPasses(dir, files, now, p, q, dp, dpq);
    PassIs(dir, files, now, Both(p, q), d);
    KeepCountOfBoth(files, now, p, q);
  }

  lemma KeepCountOfBoth(files: seq<Item>, now: int, p: Policy, q: Policy)
    requires AgesOrdered(p, q)
    ensures KeepCount(files, now, Both(p, q)) == Min(KeepCount(files, now, p), KeepCount(files, now, q))
  {
    if p.days > 0 && q.days > 0 {
      UnexpiredOfSmallerAge(files, now, Min(p.days, q.days), p.days);
      UnexpiredOfSmallerAge(files, now, Min(p.days, q.days), q.days);
    }
  }

  /** A directory holding one file. */
  function OneFile(name: string, modTime: int): Dir {
    map[name := Meta(modTime, false, 1)]
  }

  lemma OneFilePass(name: string, modTime: int, now: int, p: Policy)
    ensures DistinctTimes(OneFile(name, modTime))
    ensures Pass(OneFile(name, modTime), now, p, {},
                 if p.days > 0 && Expired(now, modTime, p.days) then map[] else OneFile(name, modTime))
  {
    var dir, files := OneFile(name, modTime), [Item(name, modTime, false, 1)];
    assert Listing(dir, files) by { assert files[0].name in Names(files); }
    if p.Active() {
      SelectedAt(files, now, p, 0);
      SelectedListed(files, now, p);
      assert Names(files) == {name};
      var gone := Selected(files, now, p) - {};
      if p.days > 0 && Expired(now, modTime, p.days) {
        assert gone == {name};
        assert Without(dir, gone) == map[];
      } else {
        assert gone == {};
        assert Without(dir, gone) == dir;
      }
    }
  }

  lemma EmptyPass(now: int, p: Policy)
    ensures Pass(map[], now, p, {}, map[])
  {
    var none: Dir := map[];
    assert Listing(none, []);
    assert Selected([], now, p) == {};
    assert Without(none, {} - {}) == none;
  }

  /** Whenever the condition fails, so does the law: there is a file the composition deletes
      and the combined policy keeps. */
  lemma CompositionNeedsOrder(p: Policy, q: Policy, now: int, name: string)
    returns (dir: Dir, dp: Dir, dpq: Dir, d: Dir)
    requires !AgesOrdered(p, q)
    ensures DistinctTimes(dir) && Pass(dir, now, p, {}, dp) && Pass(dp, now, q, {}, dpq)
    ensures Pass(dir, now, Both(p, q), {}, d)
    ensures name in d && name !in dpq
  {
    hide Pass, DistinctTimes, KeepCount, Listing;
    var t := now - MaxAge(Min(p.days, q.days));
    dir, d := OneFile(name, t), OneFile(name, t);
    OneFilePass(name, t, now, p);
    OneFilePass(name, t, now, q);
    OneFilePass(name, t, now, Both(p, q));
    EmptyPass(now, q);
    dp, dpq := if Expired(now, t, p.days) then map[] else dir, map[];
  }

  /** Such ages exist: one day and 106752 days, whose product is negative. */
  lemma OverflowBreaksComposition(now: int, name: string) returns (dir: Dir, dp: Dir, dpq: Dir, d: Dir)
    ensures Pass(dir, now, Policy(0, 106752), {}, dp) && Pass(dp, now, Policy(0, 1), {}, dpq)
    ensures Both(Policy(0, 106752), Policy(0, 1)) == Policy(0, 1) && Pass(dir, now, Policy(0, 1), {}, d)
    ensures name in d && name !in dpq
  {
    dir, dp, dpq, d := CompositionNeedsOrder(Policy(0, 106752), Policy(0, 1), now, name);
  }
}
