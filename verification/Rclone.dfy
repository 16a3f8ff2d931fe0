/** `RcloneService` on one remote directory.  Running rclone is replaced by a directory and
    by the outcome of each command, both chosen by the environment. */
module Rclone {
  import opened Values
  import opened Retention
  import opened RetentionLaws

  datatype Result<T> = Success(value: T) | Failure
  /** The rclone commands that change the directory, in the order they were run. */
  datatype RemoteOp = Uploaded(name: string, ok: bool) | Deleted(name: string, ok: bool)

  /** `sort.Slice` with the newest-first comparison: in place; how it breaks ties is its own affair. */
  method SortNewestFirst(a: array<Item>)
    modifies a
    ensures NewestFirst(a[..]) && multiset(a[..]) == multiset(old(a[..]))
  {
    var n := 0;
    while n < a.Length
      invariant 0 <= n <= a.Length
      invariant NewestFirst(a[..n]) && multiset(a[..]) == multiset(old(a[..]))
    {
      SiftDown(a, n);
      n := n + 1;
    }
    assert a[..a.Length] == a[..];
  }

  /** Moves element `n` to its place among the first `n`. */
  method SiftDown(a: array<Item>, n: nat)
    requires n < a.Length && NewestFirst(a[..n])
    modifies a
    ensures NewestFirst(a[..n + 1]) && multiset(a[..]) == multiset(old(a[..]))
  {
    var k := n;
    while k > 0 && a[k - 1].modTime < a[k].modTime
      invariant 0 <= k <= n
      invariant multiset(a[..]) == multiset(old(a[..]))
      invariant forall i, j :: 0 <= i < j <= n && j != k ==> a[i].modTime >= a[j].modTime
    {
      SwapDown(a, k);
      k := k - 1;
    }
  }

  method SwapDown(a: array<Item>, k: nat)
    requires 0 < k < a.Length
    modifies a
    ensures a[k - 1] == old(a[k]) && a[k] == old(a[k - 1])
    ensures forall i :: 0 <= i < a.Length && i != k && i != k - 1 ==> a[i] == old(a[i])
    ensures multiset(a[..]) == multiset(old(a[..]))
  {
    a[k - 1], a[k] := a[k], a[k - 1];
  }

  /** The entries of a directory in some order. */
  ghost predicate Enumerates(items: seq<Item>, dir: Dir) {
    && DistinctNames(items)
    && (forall i :: 0 <= i < |items| ==> items[i].name in dir && items[i] == ItemOf(dir, items[i].name))
    && (forall n :: n in dir ==> n in Names(items))
  }

  lemma OneMoreName(items: seq<Item>, x: Item)
    ensures Names(items + [x]) == Names(items) + {x.name}
    ensures DistinctNames(items) && x.name !in Names(items) ==> DistinctNames(items + [x])
  {
    NamesConcat(items, [x]);
    assert Names([x]) == {x.name} by { assert [x][0].name in Names([x]); }
  }

  /** The files among the first entries, in order. */
  function FilesOf(items: seq<Item>): seq<Item> {
    if items == [] then []
    else FilesOf(items[..|items| - 1]) + if items[|items| - 1].isDir then [] else [items[|items| - 1]]
  }

  lemma {:induction false} FilesOfIn(items: seq<Item>, x: Item)
    ensures x in FilesOf(items) <==> x in items && !x.isDir
  {
    if items != [] {
      FilesOfIn(items[..|items| - 1], x);
      assert items == items[..|items| - 1] + [items[|items| - 1]];
    }
  }

  lemma {:induction false} FilesOfDistinct(items: seq<Item>)
    requires DistinctNames(items)
    ensures DistinctNames(FilesOf(items))
  {
    if items != [] {
      var n := |items| - 1;
      FilesOfDistinct(items[..n]);
      var r := FilesOf(items[..n]);
      forall i | 0 <= i < |r| ensures r[i].name != items[n].name {
        FilesOfIn(items[..n], r[i]);
        var k :| 0 <= k < n && items[k] == r[i];
      }
    }
  }

  /** Distinct names survive a permutation. */
  lemma PermutedDistinct(a: seq<Item>, b: seq<Item>)
    requires DistinctNames(a) && multiset(a) == multiset(b)
    ensures DistinctNames(b)
  {
    forall i, j | 0 <= i < j < |b| ensures b[i].name != b[j].name {
      if b[i] == b[j] { PairOccurs(b, i, j); }
      assert b[i] in multiset(b) && b[j] in multiset(b);
      var x :| 0 <= x < |a| && a[x] == b[i];
      var y :| 0 <= y < |a| && a[y] == b[j];
      if b[i] == b[j] { OnceOnly(a, b[i]); }
    }
  }

  lemma PairOccurs(b: seq<Item>, i: nat, j: nat)
    requires i < j < |b| && b[i] == b[j]
    ensures multiset(b)[b[i]] >= 2
  {
    assert b == b[..j] + [b[j]] + b[j + 1..];
    assert b[..j] == b[..i] + [b[i]] + b[i + 1..j];
  }

  lemma {:induction false} OnceOnly(a: seq<Item>, x: Item)
    requires DistinctNames(a)
    ensures multiset(a)[x] <= 1
  {
    if a != [] {
      var n := |a| - 1;
      assert a == a[..n] + [a[n]];
      OnceOnly(a[..n], x);
      if a[n] == x { assert x !in a[..n]; }
    }
  }

  /** Filtering and sorting the entries of a directory gives a listing. */
  lemma SortedFilesList(dir: Dir, items: seq<Item>, files: seq<Item>)
    requires Enumerates(items, dir) && NewestFirst(files) && multiset(files) == multiset(FilesOf(items))
    ensures Listing(dir, files)
  {
    FilesOfDistinct(items);
    PermutedDistinct(FilesOf(items), files);
    forall i | 0 <= i < |files| ensures IsFile(dir, files[i].name) && files[i] == ItemOf(dir, files[i].name) {
      assert files[i] in multiset(files);
      FilesOfIn(items, files[i]);
    }
    forall n | IsFile(dir, n) ensures n in Names(files) {
      assert n in Names(items);
      var k :| 0 <= k < |items| && items[k].name == n;
      FilesOfIn(items, items[k]);
      assert items[k] in multiset(files);
    }
  }

  /** The deletions that were tried: each selected file once, with its outcome. */
  ghost predicate DeletionsOf(ops: seq<RemoteOp>, gone: set<string>, fails: set<string>) {
    && (forall i :: 0 <= i < |ops| ==> ops[i].Deleted? && ops[i].name in gone && ops[i].ok == (ops[i].name !in fails))
    && (forall i, j :: 0 <= i < j < |ops| ==> ops[i].name != ops[j].name)
    && OpNames(ops) == gone
  }

  function OpNames(ops: seq<RemoteOp>): set<string> {
    set i | 0 <= i < |ops| :: ops[i].name
  }

  lemma OpNamesSnoc(ops: seq<RemoteOp>, op: RemoteOp)
    ensures OpNames(ops + [op]) == OpNames(ops) + {op.name}
  {
    assert forall i :: 0 <= i < |ops| ==> (ops + [op])[i] == ops[i];
    assert (ops + [op])[|ops|] == op;
  }

  class RcloneService {
    var dir: Dir
    /** History: the commands run so far. */
    var ops: seq<RemoteOp>

    constructor (dir: Dir)
      ensures this.dir == dir && ops == []
    {
      this.dir, ops := dir, [];
    }

    /** `rclone copyto` under the archive name; a failing upload may leave anything under that
        name, or nothing new (`left`). */
    method Upload(name: string, file: Meta, ok: bool, left: Option<Meta>)
      modifies this
      ensures ops == old(ops) + [Uploaded(name, ok)]
      ensures ok ==> dir == old(dir)[name := file]
      ensures !ok ==> dir == if left.Some? then old(dir)[name := left.value] else old(dir)
    {
      ops := ops + [Uploaded(name, ok)];
      if ok { dir := dir[name := file]; }
      else if left.Some? { dir := dir[name := left.value]; }
    }

    /** `rclone lsjson`: the entries in an order of the remote's choosing. */
    method ListJson() returns (items: seq<Item>)
      ensures Enumerates(items, dir)
    {
      items := [];
      var todo := dir.Keys;
      while todo != {}
        invariant todo <= dir.Keys && DistinctNames(items) && Names(items) == dir.Keys - todo
        invariant forall i :: 0 <= i < |items| ==> items[i].name in dir && items[i] == ItemOf(dir, items[i].name)
        decreases todo
      {
        var n :| n in todo;
        OneMoreName(items, ItemOf(dir, n));
        items := items + [ItemOf(dir, n)];
        todo := todo - {n};
      }
    }

    /** `ListBackups`; `ok` is the outcome of the listing command. */
    method ListBackups(ok: bool) returns (r: Result<seq<Item>>)
      ensures r.Success? == ok
      ensures ok ==> Listing(dir, r.value)
    {
      if !ok { return Failure; }
      var items := ListJson();
      var files := [];
      for i := 0 to |items|
        invariant files == FilesOf(items[..i])
      {
        assert items[..i + 1][..i] == items[..i];
        if !items[i].isDir { files := files + [items[i]]; }
      }
      assert items[..|items|] == items;
      var a := new Item[|files|](i requires 0 <= i < |files| => files[i]);
      assert a[..] == files;
      SortNewestFirst(a);
      SortedFilesList(dir, items, a[..]);
      return Success(a[..]);
    }

    /** The deletion loop: the set is visited in arbitrary order and a failing command is
        only reported. */
    method DeleteAll(toDelete: set<string>, fails: set<string>)
      modifies this
      ensures dir == Without(old(dir), toDelete - fails)
      ensures old(ops) <= ops && DeletionsOf(ops[|old(ops)|..], toDelete, fails)
    {
      var todo := toDelete;
      ghost var done := [];
      while todo != {}
        invariant todo <= toDelete
        invariant dir == Without(old(dir), toDelete - todo - fails)
        invariant ops == old(ops) + done && DeletionsOf(done, toDelete - todo, fails)
        decreases todo
      {
        var name :| name in todo;
        var ok := name !in fails;
        if ok { dir := dir - {name}; }
        ops := ops + [Deleted(name, ok)];
        OpNamesSnoc(done, Deleted(name, ok));
        done := done + [Deleted(name, ok)];
        todo := todo - {name};
        assert toDelete - todo == OpNames(done);
      }
      assert ops[|old(ops)|..] == done;
    }

    /** `ApplyRetention`: a listing error changes nothing; otherwise one retention pass, for
        every order of the deletions and every set of failing ones. */
    method ApplyRetention(p: Policy, now: int, listOk: bool, fails: set<string>) returns (r: Result<()>)
      modifies this
      ensures r.Failure? <==> p.Active() && !listOk
      ensures r.Failure? ==> dir == old(dir) && ops == old(ops)
      ensures r.Success? ==> Pass(old(dir), now, p, fails, dir)
      ensures old(ops) <= ops
      ensures forall i :: |old(ops)| <= i < |ops| ==>
        ops[i].Deleted? && IsFile(old(dir), ops[i].name) && ops[i].ok == (ops[i].name !in fails)
    {
      if p.count <= 0 && p.days <= 0 { return Success(()); }
      var listing := ListBackups(listOk);
      if listing.Failure? { return Failure; }
      var items := listing.value;
      var toDelete := SelectFiles(items, now, p);
      SelectedListed(items, now, p);
      DeleteAll(toDelete, fails);
      DeletedFiles(old(dir), items, ops[|old(ops)|..], toDelete, fails);
      r := Success(());
    }
  }

  lemma DeletedFiles(dir: Dir, items: seq<Item>, ops: seq<RemoteOp>, gone: set<string>, fails: set<string>)
    requires Listing(dir, items) && gone <= Names(items) && DeletionsOf(ops, gone, fails)
    ensures forall i :: 0 <= i < |ops| ==>
      ops[i].Deleted? && IsFile(dir, ops[i].name) && ops[i].ok == (ops[i].name !in fails)
  {
    forall i | 0 <= i < |ops| ensures IsFile(dir, ops[i].name) {
      assert ops[i].name in Names(items);
    }
  }

  /** The two rules fill one set of names. */
  method SelectFiles(items: seq<Item>, now: int, p: Policy) returns (toDelete: set<string>)
    ensures toDelete == Selected(items, now, p)
  {
    toDelete := SelectByAge(items, now, p.days);
    var more := SelectByCount(items, p.count);
    toDelete := toDelete + more;
  }

  method SelectByAge(items: seq<Item>, now: int, days: int) returns (toDelete: set<string>)
    ensures toDelete == ByAge(items, now, days)
  {
    toDelete := {};
    if days > 0 {
      var maxAge := MaxAge(days);
      hide MaxAge, Saturate64;
      for i := 0 to |items|
        invariant toDelete == ByAge(items[..i], now, days)
      {
        if Saturate64(now - items[i].modTime) > maxAge { toDelete := toDelete + {items[i].name}; }
        ByAgeSnoc(items, i, now, days);
      }
      assert items[..|items|] == items;
    }
  }

  method SelectByCount(items: seq<Item>, count: int) returns (toDelete: set<string>)
    ensures toDelete == ByCount(items, count)
  {
    toDelete := {};
    if count > 0 && |items| > count {
      for i := count to |items|
        invariant toDelete == Names(items[count..i])
      {
        toDelete := toDelete + {items[i].name};
        NamesSnoc(items, count, i);
      }
      CountNames(items, count);
    }
  }

  lemma NamesSnoc(items: seq<Item>, from: nat, i: nat)
    requires from <= i < |items|
    ensures Names(items[from..i + 1]) == Names(items[from..i]) + {items[i].name}
  {
    OneMoreName(items[from..i], items[i]);
    assert items[from..i + 1] == items[from..i] + [items[i]];
  }

  lemma ByAgeSnoc(items: seq<Item>, i: nat, now: int, days: int)
    requires i < |items| && days > 0
    ensures ByAge(items[..i + 1], now, days) ==
      ByAge(items[..i], now, days) + if Expired(now, items[i].modTime, days) then {items[i].name} else {}
  {
    var a, b := items[..i], items[..i + 1];
    assert forall k :: 0 <= k < i ==> b[k] == a[k];
    forall n | n in ByAge(b, now, days)
      ensures n in ByAge(a, now, days) || (Expired(now, items[i].modTime, days) && n == items[i].name)
    {
      var k :| 0 <= k < |b| && Expired(now, b[k].modTime, days) && b[k].name == n;
      if k < i { assert a[k] == b[k]; }
    }
    assert b[i] == items[i];
  }

  lemma CountNames(items: seq<Item>, count: int)
    requires 0 < count < |items|
    ensures ByCount(items, count) == Names(items[count..|items|])
  {
    var rest := items[count..|items|];
    forall n | n in ByCount(items, count) ensures n in Names(rest) {
      var k :| count <= k < |items| && items[k].name == n;
      assert rest[k - count].name == n;
    }
    forall n | n in Names(rest) ensures n in ByCount(items, count) {
      var k :| 0 <= k < |rest| && rest[k].name == n;
      assert items[count + k].name == n;
    }
  }
}
