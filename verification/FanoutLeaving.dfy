/** A subscriber that leaves while a broadcast to its job is under way: the removal shifts the
    backing array under the iterating goroutine.  What the shift does to the elements that
    the goroutine has still to load, and what it then meets if it runs to its end. */
module FanoutLeaving {
  import opened Values
  import opened Fanout
  import opened FanoutSafety
  import opened FanoutDelivery

  /** The index of the first element the loop of the broadcast has still to load. */
  function First(k: Cast): nat {
    k.next + if k.held.Some? then 1 else 0
  }

  /** The elements it will still load if nothing else happens. */
  ghost function Ahead(s: State, b: nat): seq<nat>
    requires WellFormed(s) && b < |s.casts|
  {
    Items(s, s.casts[b].view)[First(s.casts[b])..]
  }

  /** The channels it will still send to: the one it holds, then those ahead. */
  ghost function Rest(s: State, b: nat): seq<nat>
    requires WellFormed(s) && b < |s.casts|
  {
    (if s.casts[b].held.Some? then [s.casts[b].held.value] else []) + Ahead(s, b)
  }

  /** The list of its job now. */
  ghost function List(s: State, b: nat): seq<nat>
    requires WellFormed(s) && b < |s.casts|
  {
    Items(s, Lookup(s, s.casts[b].job))
  }

  ghost predicate SameArray(s: State, b: nat)
    requires b < |s.casts|
  {
    Lookup(s, s.casts[b].job).arr == s.casts[b].view.arr
  }

  // ---------------------------------------------------------------- the shift

  /** Where a window `k..m` of a list of length `n` survives the removal of element `i`. */
  predicate Spared(i: nat, k: nat, m: nat, n: nat) {
    m <= i || (i < k && k + 1 == m == n) || (k <= i && m < n)
  }

  /** `after` is the window `k..m` of the list once its element `i` was removed in place. */
  ghost predicate Shifted(list: seq<nat>, i: nat, k: nat, m: nat, after: seq<nat>)
    requires i < |list| && k < m <= |list|
  {
    && |after| == m - k
    && forall p :: 0 <= p < m - k ==> after[p] == if i <= k + p < |list| - 1 then list[k + p + 1] else list[k + p]
  }

  /** The window is free of `list[i]`, of repetitions and of what the iterator has passed,
      and holds all the others. */
  ghost predicate Intact(list: seq<nat>, i: nat, k: nat, m: nat, after: seq<nat>)
    requires i < |list| && k < m <= |list|
  {
    && Distinct(after)
    && list[i] !in after
    && (forall p :: k <= p < m && p != i ==> list[p] in after)
    && (forall p :: 0 <= p < k ==> list[p] !in after)
  }

  lemma ShiftedBehind(list: seq<nat>, i: nat, k: nat, m: nat, after: seq<nat>)
    requires Distinct(list) && k < m <= i < |list| && Shifted(list, i, k, m, after)
    ensures Intact(list, i, k, m, after)
  {
    forall p | k <= p < m ensures list[p] in after { assert after[p - k] == list[p]; }
  }

  lemma ShiftedWithin(list: seq<nat>, i: nat, k: nat, m: nat, after: seq<nat>)
    requires Distinct(list) && k <= i < m < |list| && Shifted(list, i, k, m, after)
    ensures Intact(list, i, k, m, after)
  {
    forall p | k <= p < m && p != i ensures list[p] in after {
      assert after[if p < i then p - k else p - 1 - k] == list[p];
    }
  }

  lemma ShiftedBefore(list: seq<nat>, i: nat, k: nat, m: nat, after: seq<nat>)
    requires Distinct(list) && i < k < m <= |list| && Shifted(list, i, k, m, after)
    ensures Intact(list, i, k, m, after) <==> k + 1 == m == |list|
  {
    if k + 1 == m == |list| { assert after == [list[k]]; }
    else { assert list[k] !in after; }
  }

  lemma ShiftedWhole(list: seq<nat>, i: nat, k: nat, after: seq<nat>)
    requires Distinct(list) && k <= i < |list| && Shifted(list, i, k, |list|, after)
    ensures !Intact(list, i, k, |list|, after)
  {
    var n := |list|;
    if i == n - 1 { assert after[n - 1 - k] == list[i]; }
    else { assert after[n - 2 - k] == after[n - 1 - k]; }
  }

  lemma ShiftedWindow(list: seq<nat>, i: nat, k: nat, m: nat, after: seq<nat>)
    requires i < |list| && k < m <= |list| && after == ShiftLeft(list, i, |list|)[k..m]
    ensures Shifted(list, i, k, m, after)
  {
    var shifted := ShiftLeft(list, i, |list|);
    hide ShiftLeft;
    forall p | 0 <= p < m - k
      ensures after[p] == if i <= k + p < |list| - 1 then list[k + p + 1] else list[k + p]
    {
      assert after[p] == shifted[k + p];
    }
  }

  /** Shifting a list of distinct elements under an iterator at `k` of `m` leaves its window
      intact exactly under the guard. */
  lemma ShiftUnderIterator(list: seq<nat>, i: nat, k: nat, m: nat)
    requires i < |list| && k < m <= |list| && Distinct(list)
    ensures Intact(list, i, k, m, ShiftLeft(list, i, |list|)[k..m])
       <==> Spared(i, k, m, |list|)
  {
    var after := ShiftLeft(list, i, |list|)[k..m];
    ShiftedWindow(list, i, k, m, after);
    hide Shifted, Intact, Distinct, ShiftLeft;
    if m <= i { ShiftedBehind(list, i, k, m, after); }
    else if i < k { ShiftedBefore(list, i, k, m, after); }
    else if m < |list| { ShiftedWithin(list, i, k, m, after); }
    else { ShiftedWhole(list, i, k, after); }
  }

  /** Elements of a shifted window are elements of the list from the window on. */
  lemma ShiftWithin(list: seq<nat>, i: nat, k: nat, m: nat)
    requires i < |list| && k <= m <= |list|
    ensures forall p :: 0 <= p < m - k ==> ShiftLeft(list, i, |list|)[k..m][p] in list[k..]
  {
    forall p | 0 <= p < m - k ensures ShiftLeft(list, i, |list|)[k..m][p] in list[k..] {
      assert ShiftLeft(list, i, |list|)[k..m][p] == ShiftLeft(list, i, |list|)[k + p];
      assert list[k + p] == list[k..][p];
    }
  }

  /** The removed element stays in the window only as the last of both list and window. */
  lemma LastOneStays(list: seq<nat>, i: nat, k: nat, m: nat, before: seq<nat>, after: seq<nat>)
    requires i < |list| && k <= m <= |list| && before == list[k..m] && after == ShiftLeft(list, i, |list|)[k..m]
    requires Distinct(list)
    ensures list[i] in after <==> list[i] in before && i + 1 == m == |list|
  {
    if list[i] in after {
      var p :| 0 <= p < |after| && after[p] == list[i];
      assert after[p] == ShiftLeft(list, i, |list|)[k + p];
      assert before[p] == list[k + p];
    }
    if i + 1 == m == |list| && k <= i { assert after[i - k] == list[i]; }
  }

  lemma ShiftPrefix(cells: seq<nat>, i: nat, n: nat, m: nat)
    requires i < n <= |cells| && m <= n
    ensures ShiftLeft(cells, i, n)[..m] == ShiftLeft(cells[..n], i, n)[..m]
  {}

  /** An effective removal from the list of the job of broadcast `b`, which has sends left. */
  ghost predicate Leaving(s: State, b: nat, ch: nat) {
    && WellFormed(s) && s.fault == NoFault && b < |s.casts| && ch < |s.chans|
    && Unfinished(s.casts[b]) && s.arrays[s.casts[b].view.arr].job == s.casts[b].job
    && s.chans[ch].job == s.casts[b].job && s.casts[b].job in s.subs && ListOk(s, s.casts[b].job)
    && Found(s, ch) && !s.chans[ch].closed
  }

  lemma IsLeaving(s: State, b: nat, ch: nat)
    requires Inv(s) && s.fault == NoFault && b < |s.casts| && Unfinished(s.casts[b])
    requires ch < |s.chans| && !s.chans[ch].closed && s.chans[ch].job == s.casts[b].job
    ensures Leaving(s, b, ch)
  {
    FoundIsOpen(s, ch);
    assert Enrolled(s, ch) && FlightOk(s, b);
  }

  /** The list before and after. */
  lemma LeavingList(s: State, b: nat, ch: nat)
    requires Leaving(s, b, ch)
    ensures var r, list, i := DoUnsubscribe(s, ch), List(s, b), Position(s, ch);
      && b < |r.casts| && r.casts[b] == s.casts[b].(disturbed := true)
      && i < |list| && list[i] == ch && Distinct(list) && List(r, b) == list[..i] + list[i + 1..]
      && (SameArray(r, b) <==> SameArray(s, b)) && s.casts[b].job in r.subs
      && r.chans == s.chans[ch := s.chans[ch].(closed := true, until := |s.casts|)]
  {
    var r, list, i := DoUnsubscribe(s, ch), List(s, b), Position(s, ch);
    assert List(r, b) == list[..i] + list[i + 1..];
  }

  lemma AheadSameArray(s: State, b: nat, ch: nat)
    requires Leaving(s, b, ch) && SameArray(s, b) && s.casts[b].view.len <= |List(s, b)|
    ensures b < |DoUnsubscribe(s, ch).casts| && First(s.casts[b]) <= s.casts[b].view.len
    ensures Ahead(s, b) == List(s, b)[First(s.casts[b])..s.casts[b].view.len]
    ensures Ahead(DoUnsubscribe(s, ch), b) ==
      ShiftLeft(List(s, b), Position(s, ch), |List(s, b)|)[First(s.casts[b])..s.casts[b].view.len]
  {
    var v, own := s.casts[b].view, Lookup(s, s.casts[b].job);
    var cells, k := s.arrays[own.arr].cells, First(s.casts[b]);
    ShiftPrefix(cells, Position(s, ch), own.len, v.len);
    assert ShiftLeft(cells, Position(s, ch), own.len)[..v.len][k..]
        == ShiftLeft(cells[..own.len], Position(s, ch), own.len)[k..v.len];
    assert cells[..v.len][k..] == cells[..own.len][k..v.len];
  }

  lemma AheadOldArray(s: State, b: nat, ch: nat)
    requires Leaving(s, b, ch) && !SameArray(s, b)
    ensures b < |DoUnsubscribe(s, ch).casts| && Ahead(DoUnsubscribe(s, ch), b) == Ahead(s, b)
  {}

  // ---------------------------------------------------------------- the rest of the loop

  /** The broadcast run to its end with nothing in between. */
  ghost function Drain(s: State, b: nat): (r: State)
    requires WellFormed(s) && b < |s.casts|
    ensures WellFormed(r)
    decreases s.casts[b].view.len - First(s.casts[b]), s.casts[b].view.len - s.casts[b].next
  {
    if s.fault != NoFault || !Unfinished(s.casts[b]) then s
    else if s.casts[b].held.None? then Drain(Step(s, Load(b)), b)
    else if s.chans[Target(s, b)].closed then Step(s, Send(b))
    else Drain(Step(s, Send(b)), b)
  }

  /** One step of it. */
  lemma DrainStep(s: State, b: nat)
    requires WellFormed(s) && s.fault == NoFault && b < |s.casts| && Unfinished(s.casts[b])
    ensures var k, r := s.casts[b], Step(s, Turn(s.casts[b], b));
      && b < |r.casts| && Drain(r, b) == Drain(s, b)
      && (r.fault == NoFault ==>
            r.casts[b] == if k.held.None? then k.(held := Some(Target(s, b))) else k.(next := k.next + 1, held := None))
  {
    hide Step, WellFormed, Target, Offer;
    if s.casts[b].held.None? { LoadIs(s, b); }
    else if s.chans[Target(s, b)].closed { PanicIs(s, b); }
    else { SendIs(s, b); }
  }

  lemma DrainEnd(s: State, b: nat)
    requires WellFormed(s) && b < |s.casts| && (s.fault != NoFault || !Unfinished(s.casts[b]))
    ensures Drain(s, b) == s
  {}

  /** A closed channel is among the targets. */
  ghost predicate MeetsClosed(chans: seq<Chan>, targets: seq<nat>) {
    exists i :: 0 <= i < |targets| && targets[i] < |chans| && chans[targets[i]].closed
  }

  lemma MeetsClosedConcat(chans: seq<Chan>, a: seq<nat>, b: seq<nat>)
    ensures MeetsClosed(chans, a + b) <==> MeetsClosed(chans, a) || MeetsClosed(chans, b)
  {
    var all := a + b;
    if i :| 0 <= i < |a| && a[i] < |chans| && chans[a[i]].closed { assert all[i] == a[i]; }
    if i :| 0 <= i < |b| && b[i] < |chans| && chans[b[i]].closed { assert all[|a| + i] == b[i]; }
    if MeetsClosed(chans, all) {
      var i :| 0 <= i < |all| && all[i] < |chans| && chans[all[i]].closed;
      if i < |a| { assert chans[a[i]].closed; } else { assert chans[b[i - |a|]].closed; }
    }
  }

  lemma MeetsClosedSame(before: seq<Chan>, after: seq<Chan>, targets: seq<nat>)
    requires |before| == |after| && forall c :: 0 <= c < |before| ==> before[c].closed == after[c].closed
    ensures MeetsClosed(before, targets) <==> MeetsClosed(after, targets)
  {}

  /** Loading leaves the remaining targets as they are; a send takes the first of them. */
  lemma RestMoves(s: State, b: nat)
    requires WellFormed(s) && s.fault == NoFault && b < |s.casts| && Unfinished(s.casts[b])
    ensures s.casts[b].held.None? ==> b < |Step(s, Load(b)).casts| && Rest(Step(s, Load(b)), b) == Rest(s, b)
    ensures s.casts[b].held.Some? && !s.chans[Target(s, b)].closed ==>
      b < |Step(s, Send(b)).casts| && Rest(s, b) == [Target(s, b)] + Rest(Step(s, Send(b)), b)
    ensures Rest(s, b) != [] && Rest(s, b)[0] == Target(s, b)
  {
    if s.casts[b].held.None? { LoadMoves(s, b); }
    else {
      if !s.chans[Target(s, b)].closed { SendMoves(s, b); }
    }
  }

  lemma LoadMoves(s: State, b: nat)
    requires WellFormed(s) && s.fault == NoFault && MayLoad(s, b)
    ensures b < |Step(s, Load(b)).casts| && Rest(Step(s, Load(b)), b) == Rest(s, b)
    ensures Rest(s, b) != [] && Rest(s, b)[0] == Target(s, b)
  {
    var t := Step(s, Load(b));
    assert t == s.(casts := s.casts[b := s.casts[b].(held := Some(Target(s, b)))]);
    assert Items(t, t.casts[b].view) == Items(s, s.casts[b].view);
    var items, k := Items(s, s.casts[b].view), s.casts[b].next;
    assert items[k] == Target(s, b);
    hide Items, Step, Target, WellFormed;
    assert items[k..] == [items[k]] + items[k + 1..];
  }

  lemma SendMoves(s: State, b: nat)
    requires WellFormed(s) && s.fault == NoFault && MaySend(s, b) && !s.chans[Target(s, b)].closed
    ensures b < |Step(s, Send(b)).casts| && Rest(s, b) == [Target(s, b)] + Rest(Step(s, Send(b)), b)
  {
    var t := Step(s, Send(b));
    assert t.arrays == s.arrays && t.casts == s.casts[b := s.casts[b].(next := s.casts[b].next + 1, held := None)];
    assert Items(t, t.casts[b].view) == Items(s, s.casts[b].view);
    assert s.casts[b].held == Some(Target(s, b));
    hide Items, Step, Target, WellFormed;
  }

  lemma SendKeepsOpen(s: State, b: nat)
    requires WellFormed(s)
    ensures var t := Step(s, Send(b));
      |t.chans| == |s.chans| && forall c :: 0 <= c < |s.chans| ==> s.chans[c].closed == t.chans[c].closed
  {}

  /** Finishing a broadcast panics exactly when a closed channel is among its remaining targets. */
  lemma {:induction false} DrainPanicsIff(s: State, b: nat)
    requires WellFormed(s) && s.fault == NoFault && b < |s.casts|
    ensures Drain(s, b).fault != NoFault <==> MeetsClosed(s.chans, Rest(s, b))
    decreases s.casts[b].view.len - First(s.casts[b]), s.casts[b].view.len - s.casts[b].next
  {
    if Unfinished(s.casts[b]) {
      RestMoves(s, b);
      var c := Target(s, b);
      if s.casts[b].held.None? {
        DrainPanicsIff(Step(s, Load(b)), b);
      } else if s.chans[c].closed {
        assert s.chans[Rest(s, b)[0]].closed;
      } else {
        var t := Step(s, Send(b));
        DrainPanicsIff(t, b);
        SendKeepsOpen(s, b);
        hide Drain, Rest, Target;
        MeetsClosedConcat(s.chans, [c], Rest(t, b));
        MeetsClosedSame(s.chans, t.chans, Rest(t, b));
      }
    }
  }

  lemma UnsubscribeNoFault(s: State, ch: nat)
    requires Inv(s) && s.fault == NoFault && ch < |s.chans|
    ensures DoUnsubscribe(s, ch).fault == NoFault
  {
    FoundIsOpen(s, ch);
  }
}
