/** The retention policy of `ApplyRetention` as a specification over directories and their
    newest-first listings. */
module Retention {
  import opened Values

  datatype Meta = Meta(modTime: int, isDir: bool, size: int)
  type Dir = map<string, Meta>

  /** `RemoteItem`; modification times are instants in nanoseconds. */
  datatype Item = Item(name: string, modTime: int, isDir: bool, size: int)

  datatype Policy = Policy(count: int, days: int) {
    predicate Active() { count > 0 || days > 0 }
  }

  function ItemOf(dir: Dir, name: string): Item
    requires name in dir
  {
    Item(name, dir[name].modTime, dir[name].isDir, dir[name].size)
  }

  predicate IsFile(dir: Dir, name: string) {
    name in dir && !dir[name].isDir
  }

  // ---------------------------------------------------------------- age arithmetic

  const TWO64: int := 0x1_0000_0000_0000_0000
  /** `time.Hour` and one day in nanoseconds. */
  const HOUR: int := 3_600_000_000_000
  const DAY: int := 86_400_000_000_000

  /** Two's complement wrap-around of int64 arithmetic. */
  function Wrap64(n: int): (r: int)
    ensures MIN_INT64 <= r <= MAX_INT64
    ensures MIN_INT64 <= n <= MAX_INT64 ==> r == n
  {
    (n - MIN_INT64) % TWO64 + MIN_INT64
  }

  /** `time.Time.Sub` saturates. */
  function Saturate64(n: int): int {
    if n > MAX_INT64 then MAX_INT64 else if n < MIN_INT64 then MIN_INT64 else n
  }

  /** `time.Duration(days) * 24 * time.Hour`. */
  function MaxAge(days: int): int {
    Wrap64(Wrap64(days * 24) * HOUR)
  }

  /** `now.Sub(item.ModTime) > maxAge`. */
  predicate Expired(now: int, modTime: int, days: int) {
    Saturate64(now - modTime) > MaxAge(days)
  }

  // ---------------------------------------------------------------- listings and selection

  ghost predicate NewestFirst(files: seq<Item>) {
    forall i, j :: 0 <= i < j < |files| ==> files[i].modTime >= files[j].modTime
  }

  ghost predicate DistinctNames(files: seq<Item>) {
    forall i, j :: 0 <= i < j < |files| ==> files[i].name != files[j].name
  }

  function Names(files: seq<Item>): (r: set<string>)
    ensures forall i :: 0 <= i < |files| ==> files[i].name in r
    ensures forall n :: n in r ==> exists i :: 0 <= i < |files| && files[i].name == n
  {
    set i | 0 <= i < |files| :: files[i].name
  }

  /** A possible result of `ListBackups`: the files of the directory, each once, newest
      first; the order of equal modification times is left open by the unstable sort. */
  ghost predicate Listing(dir: Dir, files: seq<Item>) {
    && NewestFirst(files) && DistinctNames(files)
    && (forall i :: 0 <= i < |files| ==> IsFile(dir, files[i].name) && files[i] == ItemOf(dir, files[i].name))
    && (forall n :: IsFile(dir, n) ==> n in Names(files))
  }

  function ByAge(files: seq<Item>, now: int, days: int): set<string> {
    if days > 0 then set i | 0 <= i < |files| && Expired(now, files[i].modTime, days) :: files[i].name else {}
  }

  function ByCount(files: seq<Item>, count: int): set<string> {
    if count > 0 && |files| > count then set i | count <= i < |files| :: files[i].name else {}
  }

  /** The `toDelete` map. */
  function Selected(files: seq<Item>, now: int, p: Policy): set<string> {
    ByAge(files, now, p.days) + ByCount(files, p.count)
  }

  function Without(dir: Dir, gone: set<string>): Dir {
    dir - gone
  }

  /** One retention pass in which exactly the deletions in `fails` do not succeed. */
  ghost predicate Pass(dir: Dir, now: int, p: Policy, fails: set<string>, result: Dir) {
    if !p.Active() then result == dir
    else exists files :: Listing(dir, files) && result == Without(dir, Selected(files, now, p) - fails)
  }

  /** Number of unexpired files. */
  function Unexpired(files: seq<Item>, now: int, days: int): (n: nat)
    ensures n <= |files|
  {
    if files == [] then 0
    else Unexpired(files[..|files| - 1], now, days)
         + if Expired(now, files[|files| - 1].modTime, days) then 0 else 1
  }

  function Min(a: int, b: int): int { if a <= b then a else b }

  /** How many files survive: the smallest bound among the active rules. */
  function KeepCount(files: seq<Item>, now: int, p: Policy): (k: nat)
    ensures k <= |files|
  {
    var byAge := if p.days > 0 then Unexpired(files, now, p.days) else |files|;
    if p.count > 0 then Min(byAge, p.count) else byAge
  }
}
