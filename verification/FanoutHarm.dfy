/** Exactly when a subscriber that leaves during a broadcast does harm to it, over every
    continuation of any events in which nobody else leaves the job. */
module FanoutHarm {
  import opened Fanout
  import opened FanoutSafety
  import opened FanoutDelivery
  import opened FanoutLeaving
  import opened FanoutCourse

  // ---------------------------------------------------------------- the uninterrupted finish

  lemma PeacefulCons(s: State, e: Event, es: seq<Event>, b: nat)
    requires WellFormed(s)
    ensures ExecFrom(s, [e] + es) == ExecFrom(Step(s, e), es)
    ensures Peaceful(s, [e] + es, b) <==> !Disturbs(s, e, b) && Peaceful(Step(s, e), es, b)
  {
    hide Step, Disturbs, WellFormed;
    assert ([e] + es)[1..] == es;
  }

  /** The events of an uninterrupted finish. */
  lemma {:induction false} DrainRun(s: State, b: nat) returns (es: seq<Event>)
    requires WellFormed(s) && b < |s.casts|
    ensures Peaceful(s, es, b) && ExecFrom(s, es) == Drain(s, b)
    decreases s.casts[b].view.len - First(s.casts[b]), s.casts[b].view.len - s.casts[b].next
  {
    if s.fault != NoFault || !Unfinished(s.casts[b]) {
      es := [];
    } else {
      var e := Turn(s.casts[b], b);
      if e.Send? && s.chans[Target(s, b)].closed { es := []; } else { es := DrainRun(Step(s, e), b); }
      hide Step;
      PeacefulCons(s, e, es, b);
      es := [e] + es;
    }
  }

  /** It ends in a panic, or finishes after one more offer for each element that was left. */
  lemma {:induction false} DrainCounts(s: State, b: nat, c: nat)
    requires WellFormed(s) && s.fault == NoFault && b < |s.casts| && c < |s.chans|
    ensures var t := Drain(s, b);
      && b < |t.casts| && c < |t.chans|
      && (t.fault == NoFault ==>
            !Unfinished(t.casts[b]) && Offers(t, b, c) == Offers(s, b, c) + multiset(Rest(s, b))[c])
      && (t.fault != NoFault ==> PanicsOn(t, b))
    decreases s.casts[b].view.len - First(s.casts[b]), s.casts[b].view.len - s.casts[b].next
  {
    if Unfinished(s.casts[b]) {
      var r := Step(s, Turn(s.casts[b], b));
      TurnCounts(s, b, c);
      hide Step, Drain, Rest, Target, WellFormed, Offers;
      DrainStep(s, b);
      if r.fault == NoFault { DrainCounts(r, b, c); } else { DrainEnd(r, b); }
    } else {
      RestIsEmpty(s, b);
    }
  }

  /** One step of the loop: a panic, or an offer for the element taken. */
  lemma TurnCounts(s: State, b: nat, c: nat)
    requires WellFormed(s) && s.fault == NoFault && b < |s.casts| && Unfinished(s.casts[b]) && c < |s.chans|
    ensures var r := Step(s, Turn(s.casts[b], b));
      && b < |r.casts| && c < |r.chans|
      && (r.fault == NoFault ==>
            Offers(r, b, c) + multiset(Rest(r, b))[c] == Offers(s, b, c) + multiset(Rest(s, b))[c])
      && (r.fault != NoFault ==> PanicsOn(r, b))
  {
    var d := Target(s, b);
    hide Step, Rest, Target, WellFormed, Offers;
    if s.casts[b].held.None? {
      LoadIs(s, b);
      LoadMoves(s, b);
      OffersAfter(s, Load(b), b, c);
    } else if s.chans[d].closed {
      PanicIs(s, b);
    } else {
      SendIs(s, b);
      SendCounts(s, b, c);
      CountFirst(d, Rest(Step(s, Send(b)), b), c);
    }
  }

  lemma CountFirst(d: nat, rest: seq<nat>, c: nat)
    ensures multiset([d] + rest)[c] == multiset(rest)[c] + if c == d then 1 else 0
  {}

  // ---------------------------------------------------------------- harm

  /** In `t` broadcast `b` has not panicked, and if it has finished, every channel that it had
      served or was on its way to in `s`, other than `ch`, has been offered its message exactly
      once. */
  ghost predicate Served(s: State, t: State, b: nat, ch: nat)
    requires WellFormed(s) && b < |s.casts|
  {
    && !PanicsOn(t, b)
    && (b < |t.casts| && !Unfinished(t.casts[b]) ==>
          forall c: nat :: c != ch && Promised(s, b, c) ==> c < |t.chans| && Offers(t, b, c) == 1)
  }

  /** A broadcast on course that finishes has kept its promises. */
  lemma CourseServes(s: State, t: State, b: nat, ch: nat)
    requires WellFormed(s) && b < |s.casts| && WellFormed(t) && b < |t.casts| && OnCourse(t, b) && !PanicsOn(t, b)
    requires forall c :: c != ch && Promised(s, b, c) ==> Promised(t, b, c)
    ensures Served(s, t, b, ch)
  {
    if !Unfinished(t.casts[b]) { RestIsEmpty(t, b); }
  }

  /** The uninterrupted finish does harm when it meets a closed channel. */
  lemma PanicIsHarm(s: State, r: State, b: nat, ch: nat)
    requires WellFormed(s) && b < |s.casts| && ch < |s.chans|
    requires WellFormed(r) && r.fault == NoFault && b < |r.casts| && ch < |r.chans| && MeetsClosed(r.chans, Rest(r, b))
    ensures PanicsOn(Drain(r, b), b) && !Served(s, Drain(r, b), b, ch)
  {
    hide Drain, Rest, MeetsClosed;
    DrainPanicsIff(r, b);
    DrainCounts(r, b, ch);
  }

  /** And when a channel that was to be served is no longer ahead, or is so more than once. */
  lemma MiscountIsHarm(s: State, r: State, b: nat, ch: nat, c: nat)
    requires WellFormed(s) && b < |s.casts| && ServesOnce(s, b) && c != ch && c in Rest(s, b) && c < |s.chans|
    requires WellFormed(r) && r.fault == NoFault && b < |r.casts| && c < |r.chans|
    requires Offers(r, b, c) == Offers(s, b, c) && multiset(Rest(r, b))[c] != 1
    ensures !Served(s, Drain(r, b), b, ch)
  {
    hide Drain, Rest, Offers;
    DrainCounts(r, b, c);
  }

  /** Removing an element of a window that is the whole list leaves its last element twice. */
  lemma LastTwice(list: seq<nat>, i: nat, k: nat, after: seq<nat>)
    requires k <= i && i + 1 < |list| && after == ShiftLeft(list, i, |list|)[k..|list|]
    ensures multiset(after)[list[|list| - 1]] >= 2
  {
    var n := |list|;
    ShiftedWindow(list, i, k, n, after);
    var c := list[n - 1];
    assert after[n - 2 - k] == c && after[n - 1 - k] == c;
    hide ShiftLeft;
    TwiceIn(after, n - 2 - k, n - 1 - k);
  }

  lemma TwiceIn(after: seq<nat>, p: nat, q: nat)
    requires p < q < |after| && after[p] == after[q]
    ensures multiset(after)[after[p]] >= 2
  {
    assert after == after[..q] + after[q..];
    assert after[..q][p] in after[..q] && after[q..][0] in after[q..];
    assert multiset(after) == multiset(after[..q]) + multiset(after[q..]);
  }

  /** A join right after the departure is written in place behind the shortened list. */
  lemma JoinIsInPlace(s: State, b: nat, ch: nat)
    requires Leaving(s, b, ch)
    ensures var r, v := DoUnsubscribe(s, ch), Lookup(s, s.casts[b].job);
      var q := Step(r, Subscribe(s.casts[b].job, 0));
      && q.fault == NoFault && b < |r.casts| && b < |q.casts| && |q.chans| == |s.chans| + 1
      && q.casts[b] == r.casts[b] == s.casts[b].(disturbed := true) && v.arr < |q.arrays|
      && v.len <= |s.arrays[v.arr].cells|
      && q.arrays[v.arr].cells == ShiftLeft(s.arrays[v.arr].cells, Position(s, ch), v.len)[v.len - 1 := |s.chans|]
  {
    var r, v := DoUnsubscribe(s, ch), Lookup(s, s.casts[b].job);
    assert r.arrays[v.arr].cells == ShiftLeft(s.arrays[v.arr].cells, Position(s, ch), v.len);
    assert r.subs[s.casts[b].job] == Slice(v.arr, v.len - 1) && r.chans[ch].closed && r.fault == NoFault;
  }

  /** A window of the array after the removal of element `i` of `n` and the join of `x`. */
  lemma WindowAfterJoin(cells: seq<nat>, i: nat, n: nat, x: nat, k: nat, m: nat, window: seq<nat>)
    requires i < n <= |cells| && k <= m <= n && window == ShiftLeft(cells, i, n)[n - 1 := x][..m][k..]
    ensures |window| == m - k
    ensures forall p :: 0 <= p < m - k ==>
      window[p] == if k + p == n - 1 then x else ShiftLeft(cells[..n], i, n)[k + p]
  {
    var now := ShiftLeft(cells, i, n)[n - 1 := x];
    forall p | 0 <= p < m - k
      ensures window[p] == if k + p == n - 1 then x else ShiftLeft(cells[..n], i, n)[k + p]
    {
      assert window[p] == now[k + p];
    }
  }

  lemma JoinAfterLeaving(s: State, b: nat, ch: nat)
    requires Leaving(s, b, ch) && SameArray(s, b) && s.casts[b].view.len <= |List(s, b)|
    ensures var r, n := DoUnsubscribe(s, ch), |List(s, b)|;
      var q := Step(r, Subscribe(s.casts[b].job, 0));
      var k, m := First(s.casts[b]), s.casts[b].view.len;
      && q.fault == NoFault && b < |r.casts| && b < |q.casts| && q.casts[b] == r.casts[b] && |q.chans| == |s.chans| + 1
      && k <= m && |Ahead(q, b)| == m - k
      && forall p :: 0 <= p < m - k ==>
           Ahead(q, b)[p] == if k + p == n - 1 then |s.chans| else ShiftLeft(List(s, b), Position(s, ch), n)[k + p]
  {
    JoinIsInPlace(s, b, ch);
    var v, k := Lookup(s, s.casts[b].job), s.casts[b];
    var q := Step(DoUnsubscribe(s, ch), Subscribe(k.job, 0));
    assert List(s, b) == s.arrays[v.arr].cells[..v.len] && First(k) <= k.view.len;
    assert Ahead(q, b) == q.arrays[v.arr].cells[..k.view.len][First(k)..];
    hide *;
    WindowAfterJoin(s.arrays[v.arr].cells, Position(s, ch), v.len, |s.chans|, First(k), k.view.len, Ahead(q, b));
  }

  /** What a departure that is not harmless does to the window: it is met in the end, or it
      shifts an element that has not been loaded behind the iterator, or the window ends with
      the last element twice. */
  lemma HarmfulCases(s: State, b: nat, ch: nat)
    requires Leaving(s, b, ch) && Steady(s, b) && !Harmless(s, b, ch) && !Doomed(s, b, ch)
    ensures var k, m, i, n := First(s.casts[b]), s.casts[b].view.len, Position(s, ch), |List(s, b)|;
      SameArray(s, b) && k < m <= n && (i < k || (k <= i && i + 1 < n == m))
  {
    var k, m, i := First(s.casts[b]), s.casts[b].view.len, Position(s, ch);
    LeavingList(s, b, ch);
    if k < m && SameArray(s, b) {
      AheadSameArray(s, b, ch);
      if k <= i < m { assert Ahead(s, b)[i - k] == ch; }
    }
  }

  /** The element the iterator loads next. */
  lemma NextElement(s: State, b: nat, ch: nat)
    requires Leaving(s, b, ch) && SameArray(s, b) && First(s.casts[b]) < s.casts[b].view.len <= |List(s, b)|
    requires Position(s, ch) < First(s.casts[b]) && Distinct(Rest(s, b))
    ensures var c := List(s, b)[First(s.casts[b])];
      && c != ch && c in Rest(s, b) && c < |s.chans| && Distinct(List(s, b))
      && (s.casts[b].held.Some? ==> s.casts[b].held.value != c)
  {
    var k, list := First(s.casts[b]), List(s, b);
    LeavingList(s, b, ch);
    AheadSameArray(s, b, ch);
    AheadDistinct(s, b);
    assert Ahead(s, b)[0] == list[k] && list[k] in Ahead(s, b);
    assert list[k] < |s.chans|;
  }

  /** It is shifted behind the iterator, and a later join cannot bring it back. */
  lemma SkippedForGood(s: State, b: nat, ch: nat)
    requires Leaving(s, b, ch) && SameArray(s, b) && First(s.casts[b]) < s.casts[b].view.len <= |List(s, b)|
    requires Position(s, ch) < First(s.casts[b]) && Distinct(Rest(s, b))
    ensures var q := Step(DoUnsubscribe(s, ch), Subscribe(s.casts[b].job, 0));
      var c := List(s, b)[First(s.casts[b])];
      && q.fault == NoFault && b < |q.casts| && c != ch && c in Rest(s, b) && c < |s.chans| < |q.chans|
      && c !in Rest(q, b)
  {
    hide Step, DoUnsubscribe, WellFormed, ListOk, Found, Position, Ahead, Rest, List;
    hide SameArray, ShiftLeft, Distinct, Lookup;
    var q, k, list := Step(DoUnsubscribe(s, ch), Subscribe(s.casts[b].job, 0)), First(s.casts[b]), List(s, b);
    LeavingList(s, b, ch);
    NextElement(s, b, ch);
    JoinAfterLeaving(s, b, ch);
    RestBut(s, q, b, list[k]);
    ShiftedOut(list, Position(s, ch), k, s.casts[b].view.len, |s.chans|, Ahead(q, b));
  }

  /** A channel that is neither held nor ahead is not to be served. */
  lemma RestBut(s: State, q: State, b: nat, c: nat)
    requires WellFormed(s) && WellFormed(q) && b < |s.casts| && b < |q.casts| && q.casts[b].held == s.casts[b].held
    requires s.casts[b].held.Some? ==> s.casts[b].held.value != c
    ensures c !in Ahead(q, b) ==> c !in Rest(q, b)
  {}

  lemma ShiftedOut(list: seq<nat>, i: nat, k: nat, m: nat, x: nat, window: seq<nat>)
    requires i < k < m <= |list| && Distinct(list) && list[k] < x && |window| == m - k
    requires forall p :: 0 <= p < m - k ==>
      window[p] == if k + p == |list| - 1 then x else ShiftLeft(list, i, |list|)[k + p]
    ensures list[k] !in window
  {
    forall p | 0 <= p < |window| ensures window[p] != list[k] {
      if k + p < |list| - 1 { assert ShiftLeft(list, i, |list|)[k + p] == list[k + p + 1]; }
    }
  }

  /** The events of a continuation that does harm. */
  lemma HarmfulRun(s: State, b: nat, ch: nat) returns (es: seq<Event>)
    requires Leaving(s, b, ch) && OnCourse(s, b) && !Harmless(s, b, ch)
    ensures var r := DoUnsubscribe(s, ch);
      Peaceful(r, es, b) && !Served(s, ExecFrom(r, es), b, ch)
  {
    var r := DoUnsubscribe(s, ch);
    LeavingList(s, b, ch);
    assert r.fault == NoFault;
    if Doomed(s, b, ch) {
      hide Step, DoUnsubscribe, Leaving, WellFormed, Harmless, Doomed;
      LeavingMeets(s, b, ch);
      PanicIsHarm(s, r, b, ch);
      es := DrainRun(r, b);
    } else {
      HarmfulCases(s, b, ch);
      hide Step, DoUnsubscribe, WellFormed, Harmless, Doomed;
      if Position(s, ch) < First(s.casts[b]) {
        es := SkippingRun(s, b, ch);
      } else {
        es := RepeatingRun(s, b, ch);
      }
    }
  }

  lemma SkippingRun(s: State, b: nat, ch: nat) returns (es: seq<Event>)
    requires Leaving(s, b, ch) && OnCourse(s, b) && SameArray(s, b)
    requires First(s.casts[b]) < s.casts[b].view.len <= |List(s, b)| && Position(s, ch) < First(s.casts[b])
    ensures var r := DoUnsubscribe(s, ch);
      Peaceful(r, es, b) && !Served(s, ExecFrom(r, es), b, ch)
  {
    var r, e := DoUnsubscribe(s, ch), Subscribe(s.casts[b].job, 0);
    var q, c := Step(r, e), List(s, b)[First(s.casts[b])];
    LeavingList(s, b, ch);
    assert WellFormed(r) && WellFormed(s);
    SkippedForGood(s, b, ch);
    LeavingOffers(s, b, ch, c);
    hide Step, DoUnsubscribe, Leaving, WellFormed, Rest, Offers, MeetsClosed;
    OffersAfter(r, e, b, c);
    MiscountIsHarm(s, q, b, ch, c);
    es := DrainRun(q, b);
    PeacefulCons(r, e, es, b);
    es := [e] + es;
  }

  /** The last element is left twice. */
  lemma LastIsRepeated(s: State, b: nat, ch: nat)
    requires Leaving(s, b, ch) && SameArray(s, b)
    requires First(s.casts[b]) <= Position(s, ch) && Position(s, ch) + 1 < |List(s, b)| == s.casts[b].view.len
    ensures var r, list := DoUnsubscribe(s, ch), List(s, b);
      var c := list[|list| - 1];
      && r.fault == NoFault && b < |r.casts| && c != ch && c < |s.chans| && c in Rest(s, b)
      && multiset(Rest(r, b))[c] >= 2
  {
    var r, k, list := DoUnsubscribe(s, ch), First(s.casts[b]), List(s, b);
    var c := list[|list| - 1];
    LeavingList(s, b, ch);
    AheadSameArray(s, b, ch);
    assert Ahead(s, b)[|list| - 1 - k] == c && c < |s.chans|;
    LastTwice(list, Position(s, ch), k, Ahead(r, b));
    hide DoUnsubscribe, Leaving, WellFormed, Ahead, ShiftLeft;
    assert c in Rest(s, b) && multiset(Rest(r, b))[c] >= multiset(Ahead(r, b))[c];
  }

  lemma RepeatingRun(s: State, b: nat, ch: nat) returns (es: seq<Event>)
    requires Leaving(s, b, ch) && OnCourse(s, b) && SameArray(s, b)
    requires First(s.casts[b]) <= Position(s, ch) && Position(s, ch) + 1 < |List(s, b)| == s.casts[b].view.len
    ensures var r := DoUnsubscribe(s, ch);
      Peaceful(r, es, b) && !Served(s, ExecFrom(r, es), b, ch)
  {
    var r, list := DoUnsubscribe(s, ch), List(s, b);
    var c := list[|list| - 1];
    assert WellFormed(s) && ServesOnce(s, b);
    LastIsRepeated(s, b, ch);
    LeavingOffers(s, b, ch, c);
    hide *;
    MiscountIsHarm(s, r, b, ch, c);
    es := DrainRun(r, b);
  }

  // ---------------------------------------------------------------- exactly when

  lemma DepartureIsStep(s: State, ch: nat)
    requires Ledger(s) && s.fault == NoFault && ch < |s.chans|
    ensures DoUnsubscribe(s, ch) == Step(s, Unsubscribe(ch)) && Ledger(DoUnsubscribe(s, ch))
  {
    StepKeepsLedger(s, Unsubscribe(ch));
  }

  /** From a state in which the broadcast is on course: it keeps its promises to all others in
      every continuation in which nobody else leaves exactly when the departure is harmless. */
  lemma DepartureHarmlessIff(s: State, b: nat, ch: nat)
    requires Ledger(s) && s.fault == NoFault && b < |s.casts| && OnCourse(s, b)
    requires ch < |s.chans| && !s.chans[ch].closed && s.chans[ch].job == s.casts[b].job
    ensures var r := DoUnsubscribe(s, ch);
      (forall es :: Peaceful(r, es, b) ==> Served(s, ExecFrom(r, es), b, ch)) <==> Harmless(s, b, ch)
  {
    var r := DoUnsubscribe(s, ch);
    assert WellFormed(s) && Inv(s);
    DepartureIsStep(s, ch);
    if Harmless(s, b, ch) {
      hide DoUnsubscribe, Step, OnCourse, Harmless, Served, Inv, Ledger, WellFormed;
      DepartureKeepsCourse(s, b, ch);
      forall es | Peaceful(r, es, b) ensures Served(s, ExecFrom(r, es), b, ch) {
        PeaceKeepsCourse(r, es, b);
        CourseServes(s, ExecFrom(r, es), b, ch);
      }
    } else {
      HarmlessWhenDone(s, b, ch);
      hide DoUnsubscribe, Step, OnCourse, Harmless, Served, Inv, Ledger, WellFormed;
      IsLeaving(s, b, ch);
      var es := HarmfulRun(s, b, ch);
    }
  }

  lemma HarmlessWhenDone(s: State, b: nat, ch: nat)
    requires WellFormed(s) && b < |s.casts| && ch < |s.chans| && !Harmless(s, b, ch)
    ensures Unfinished(s.casts[b])
  {}

  /** It panics in some such continuation exactly when the leaver doomed it. */
  lemma DeparturePanicsIff(s: State, b: nat, ch: nat)
    requires Ledger(s) && s.fault == NoFault && b < |s.casts| && OnCourse(s, b)
    requires ch < |s.chans| && !s.chans[ch].closed && s.chans[ch].job == s.casts[b].job
    ensures var r := DoUnsubscribe(s, ch);
      (exists es :: Peaceful(r, es, b) && PanicsOn(ExecFrom(r, es), b)) <==> Doomed(s, b, ch)
  {
    var r := DoUnsubscribe(s, ch);
    DepartureIsStep(s, ch);
    DepartureMeets(s, b, ch);
    hide DoUnsubscribe, Step, OnCourse, Doomed, Ledger, MeetsClosed, Rest;
    if Doomed(s, b, ch) {
      DrainPanicsIff(r, b);
      DrainCounts(r, b, ch);
      var es := DrainRun(r, b);
    } else {
      forall es | Peaceful(r, es, b) ensures !PanicsOn(ExecFrom(r, es), b) { PeaceKeepsOpen(r, es, b); }
    }
  }

  lemma DepartureMeets(s: State, b: nat, ch: nat)
    requires Inv(s) && s.fault == NoFault && b < |s.casts| && OnCourse(s, b)
    requires ch < |s.chans| && !s.chans[ch].closed && s.chans[ch].job == s.casts[b].job
    ensures var r := DoUnsubscribe(s, ch);
      && b < |r.casts| && ch < |r.chans| && r.fault == NoFault
      && (MeetsClosed(r.chans, Rest(r, b)) <==> Doomed(s, b, ch))
  {
    UnsubscribeNoFault(s, ch);
    assert WellFormed(s);
    if Unfinished(s.casts[b]) {
      IsLeaving(s, b, ch);
      LeavingList(s, b, ch);
      hide Inv, DoUnsubscribe, Doomed, Rest, MeetsClosed, Leaving, WellFormed;
      LeavingMeets(s, b, ch);
    } else {
      FinishedStays(s, b, ch);
      RestIsEmpty(s, b);
      hide Inv, DoUnsubscribe, WellFormed;
      RestIsEmpty(DoUnsubscribe(s, ch), b);
    }
  }

  // ---------------------------------------------------------------- whole runs

  /** Event `k` of the run is a departure during broadcast `b` that is not harmless to it. */
  ghost predicate HarmsAt(es: seq<Event>, k: nat, b: nat)
    requires k < |es|
  {
    DisturbsAt(es, k, b) && !Harmless(Exec(es[..k]), b, es[k].ch)
  }

  /** Whoever left during broadcast `b` did so harmlessly. */
  ghost predicate Careful(es: seq<Event>, b: nat) {
    forall k :: 0 <= k < |es| ==> !HarmsAt(es, k, b)
  }

  /** Channel `c` left during broadcast `b`. */
  ghost predicate LeftDuring(es: seq<Event>, b: nat, c: nat) {
    exists k :: 0 <= k < |es| && DisturbsAt(es, k, b) && es[k] == Unsubscribe(c)
  }

  lemma CarefulSoFar(es: seq<Event>, b: nat)
    requires es != [] && Careful(es, b)
    ensures Careful(es[..|es| - 1], b) && !HarmsAt(es, |es| - 1, b)
    ensures forall c :: LeftDuring(es[..|es| - 1], b, c) ==> LeftDuring(es, b, c)
  {
    var init := es[..|es| - 1];
    assert forall k :: 0 <= k < |init| ==> init[..k] == es[..k];
    hide Exec, Harmless, Disturbs;
    forall k | 0 <= k < |init|
      ensures (HarmsAt(init, k, b) <==> HarmsAt(es, k, b)) && (DisturbsAt(init, k, b) <==> DisturbsAt(es, k, b))
    {}
    forall c | LeftDuring(init, b, c) ensures LeftDuring(es, b, c) {
      var k :| 0 <= k < |init| && DisturbsAt(init, k, b) && init[k] == Unsubscribe(c);
      assert DisturbsAt(es, k, b) && es[k] == Unsubscribe(c);
    }
  }

  /** If nobody left, nobody left harmfully. */
  lemma UndisturbedIsCareful(es: seq<Event>, b: nat)
    requires b < |Exec(es).casts| && !Exec(es).casts[b].disturbed
    ensures Careful(es, b)
  {
    hide DisturbsAt;
    DisturbedIff(es, b);
  }

  /** As long as departures are harmless the broadcast is on course, and its promises are to
      everybody of its snapshot who has not left. */
  lemma {:induction false} CarefulOnCourse(es: seq<Event>, b: nat)
    requires Careful(es, b) && b < |Exec(es).casts|
    ensures OnCourse(Exec(es), b) && !PanicsOn(Exec(es), b)
    ensures forall c :: c in Exec(es).casts[b].snap && !LeftDuring(es, b, c) ==> Promised(Exec(es), b, c)
  {
    var init, e := es[..|es| - 1], es[|es| - 1];
    var s := Exec(init);
    ExecLedger(es);
    ExecLedger(init);
    CarefulSoFar(es, b);
    assert Exec(es) == Step(s, e);
    if b < |s.casts| {
      CarefulOnCourse(init, b);
      assert HarmsAt(es, |es| - 1, b) <==> Disturbs(s, e, b) && !Harmless(s, b, e.ch);
      assert Disturbs(s, e, b) ==> DisturbsAt(es, |es| - 1, b);
      hide Exec, Step, OnCourse, Harmless, Disturbs, Ledger, Careful;
      CarefulStep(s, e, b);
      forall c | c in s.casts[b].snap && !LeftDuring(es, b, c) ensures Promised(Step(s, e), b, c) {
        assert !LeftDuring(init, b, c);
        assert !(Disturbs(s, e, b) && e == Unsubscribe(c));
      }
    } else {
      NewIsOnCourse(s, e, b);
    }
  }

  lemma CarefulStep(s: State, e: Event, b: nat)
    requires Ledger(s) && b < |s.casts| && OnCourse(s, b) && !PanicsOn(s, b)
    requires Disturbs(s, e, b) ==> Harmless(s, b, e.ch)
    ensures var r := Step(s, e);
      && b < |r.casts| && r.casts[b].snap == s.casts[b].snap && OnCourse(r, b) && !PanicsOn(r, b)
      && forall c :: Promised(s, b, c) && !(Disturbs(s, e, b) && e == Unsubscribe(c)) ==> Promised(r, b, c)
  {
    assert WellFormed(s) && Inv(s);
    hide OnCourse, Ledger, Inv, Harmless, Promised;
    if Disturbs(s, e, b) {
      FoundIsOpen(s, e.ch);
      DepartureKeepsCourse(s, b, e.ch);
      assert Step(s, e) == DoUnsubscribe(s, e.ch);
    } else {
      StepKeepsCourse(s, e, b);
    }
    hide Step;
    StepOnCast(s, e, b);
  }

  lemma NewIsOnCourse(s: State, e: Event, b: nat)
    requires Ledger(s) && |s.casts| <= b < |Step(s, e).casts| && Ledger(Step(s, e))
    ensures OnCourse(Step(s, e), b) && !PanicsOn(Step(s, e), b)
    ensures forall c :: c in Step(s, e).casts[b].snap ==> Promised(Step(s, e), b, c)
  {
    hide Step;
    StepGrows(s, e);
    UndisturbedOnCourse(Step(s, e), b);
  }

  /** Any number of subscribers may leave during a broadcast, each harmlessly in the state it
      leaves in, with anything else in between: then the broadcast does not panic, nobody is
      offered its message twice, and when it has finished everybody of its snapshot who did
      not leave during it has been offered it exactly once. */
  lemma CarefulDepartures(es: seq<Event>, b: nat)
    requires Careful(es, b) && b < |Exec(es).casts|
    ensures var s := Exec(es);
      && !PanicsOn(s, b)
      && (forall c :: 0 <= c < |s.chans| ==> Offers(s, b, c) <= 1)
      && (!Unfinished(s.casts[b]) ==>
            forall c :: c in s.casts[b].snap && !LeftDuring(es, b, c) ==> c < |s.chans| && Offers(s, b, c) == 1)
  {
    CarefulOnCourse(es, b);
    var s := Exec(es);
    if !Unfinished(s.casts[b]) { RestIsEmpty(s, b); }
  }

  /** The next one to leave, after any number of harmless departures: whatever follows, as
      long as nobody else leaves the job during the broadcast, everybody else that it had
      served or was on its way to is served exactly once and it does not panic, if and only if
      this departure is harmless too. */
  lemma NextDepartureHarmlessIff(es: seq<Event>, b: nat, ch: nat)
    requires var s := Exec(es);
      && Careful(es, b) && s.fault == NoFault && b < |s.casts|
      && ch < |s.chans| && !s.chans[ch].closed && s.chans[ch].job == s.casts[b].job
    ensures var left := es + [Unsubscribe(ch)];
      (forall more :: Peaceful(Exec(left), more, b) ==> Served(Exec(es), Exec(left + more), b, ch))
      <==> Harmless(Exec(es), b, ch)
  {
    var s, left := Exec(es), es + [Unsubscribe(ch)];
    AfterLeaving(es, ch);
    CarefulOnCourse(es, b);
    hide Exec, OnCourse, Ledger, DoUnsubscribe, Served, Harmless, Careful;
    forall more: seq<Event> ensures Exec(left + more) == ExecFrom(DoUnsubscribe(s, ch), more) { ExecSplit(left, more); }
    DepartureHarmlessIff(s, b, ch);
  }

  lemma AfterLeaving(es: seq<Event>, ch: nat)
    requires Exec(es).fault == NoFault && ch < |Exec(es).chans|
    ensures var s, r := Exec(es), DoUnsubscribe(Exec(es), ch);
      && Ledger(s) && Exec(es + [Unsubscribe(ch)]) == r && |r.casts| == |s.casts|
      && forall b :: 0 <= b < |s.casts| ==> r.casts[b].snap == s.casts[b].snap
  {
    ExecLedger(es);
    ExecSnoc(es, Unsubscribe(ch));
    DepartureIsStep(Exec(es), ch);
  }

  /** In `t` the broadcast has not panicked, and if it has finished, everybody of its snapshot
      other than `ch` has been offered its message exactly once. */
  ghost predicate ServedSnapshot(t: State, b: nat, ch: nat) {
    && !PanicsOn(t, b)
    && (b < |t.casts| && !Unfinished(t.casts[b]) ==>
          forall c: nat :: c != ch && c in t.casts[b].snap ==> c < |t.chans| && Offers(t, b, c) == 1)
  }

  /** The first one to leave during a broadcast: everybody else of the snapshot is served
      exactly once and the broadcast does not panic, whatever follows as long as nobody else
      leaves the job during it, if and only if the departure is harmless. */
  lemma UnsubscribeHarmlessIff(es: seq<Event>, b: nat, ch: nat)
    requires var s := Exec(es);
      && s.fault == NoFault && b < |s.casts| && !s.casts[b].disturbed
      && ch < |s.chans| && !s.chans[ch].closed && s.chans[ch].job == s.casts[b].job
    ensures var left := es + [Unsubscribe(ch)];
      (forall more :: Peaceful(Exec(left), more, b) ==> ServedSnapshot(Exec(left + more), b, ch))
      <==> Harmless(Exec(es), b, ch)
  {
    var s, left := Exec(es), es + [Unsubscribe(ch)];
    AfterLeaving(es, ch);
    UndisturbedOnCourse(s, b);
    hide *;
    forall more: seq<Event>
      ensures Exec(left + more) == ExecFrom(DoUnsubscribe(s, ch), more)
      ensures Served(s, Exec(left + more), b, ch) <==> ServedSnapshot(Exec(left + more), b, ch)
    {
      ExecSplit(left, more);
      SnapStays(DoUnsubscribe(s, ch), more, b);
      SnapshotIsPromised(s, Exec(left + more), b, ch);
    }
    DepartureHarmlessIff(s, b, ch);
  }

  lemma {:induction false} SnapStays(s: State, es: seq<Event>, b: nat)
    requires WellFormed(s) && b < |s.casts|
    ensures var t := ExecFrom(s, es); b < |t.casts| && t.casts[b].snap == s.casts[b].snap
    decreases |es|
  {
    if es != [] {
      hide Step, Disturbs;
      StepOnCast(s, es[0], b);
      SnapStays(Step(s, es[0]), es[1..], b);
    }
  }

  lemma SnapshotIsPromised(s: State, t: State, b: nat, ch: nat)
    requires WellFormed(s) && b < |s.casts| && b < |t.casts| && t.casts[b].snap == s.casts[b].snap
    requires forall c :: Promised(s, b, c) <==> c in s.casts[b].snap
    ensures Served(s, t, b, ch) <==> ServedSnapshot(t, b, ch)
  {
    hide Promised, Offers;
  }

  /** A departure makes a broadcast panic in some continuation in which nobody else leaves the
      job during it if and only if the broadcast holds the leaver, or has it ahead and either
      iterates over an outgrown array, or the leaver is last of both list and window. */
  lemma UnsubscribePanicsIff(es: seq<Event>, b: nat, ch: nat)
    requires var s := Exec(es);
      && Careful(es, b) && s.fault == NoFault && b < |s.casts|
      && ch < |s.chans| && !s.chans[ch].closed && s.chans[ch].job == s.casts[b].job
    ensures var left := es + [Unsubscribe(ch)];
      (exists more :: Peaceful(Exec(left), more, b) && PanicsOn(Exec(left + more), b))
      <==> Doomed(Exec(es), b, ch)
  {
    var s, left := Exec(es), es + [Unsubscribe(ch)];
    AfterLeaving(es, ch);
    CarefulOnCourse(es, b);
    hide Exec, OnCourse, Ledger, DoUnsubscribe, Doomed, Careful, PanicsOn;
    forall more: seq<Event> ensures Exec(left + more) == ExecFrom(DoUnsubscribe(s, ch), more) { ExecSplit(left, more); }
    DeparturePanicsIff(s, b, ch);
  }

  /** In any run, whoever left before and with whatever harm: the broadcast can still panic
      without anybody else leaving if and only if a closed channel is among the channels it
      has still to send to. */
  lemma PanicPossibleIff(es: seq<Event>, b: nat)
    requires b < |Exec(es).casts| && Exec(es).fault == NoFault
    ensures (exists more :: Peaceful(Exec(es), more, b) && PanicsOn(Exec(es + more), b))
      <==> MeetsClosed(Exec(es).chans, Rest(Exec(es), b))
  {
    var s := Exec(es);
    ExecLedger(es);
    assert WellFormed(s);
    hide Exec, Ledger, MeetsClosed, Rest, PanicsOn, WellFormed;
    forall more: seq<Event> ensures Exec(es + more) == ExecFrom(s, more) { ExecSplit(es, more); }
    if MeetsClosed(s.chans, Rest(s, b)) {
      var more := PanickingRun(s, b);
    } else {
      NotPanicked(s, b);
      forall more | Peaceful(s, more, b) ensures !PanicsOn(ExecFrom(s, more), b) { PeaceKeepsOpen(s, more, b); }
    }
  }

  lemma NotPanicked(s: State, b: nat)
    requires s.fault == NoFault
    ensures !PanicsOn(s, b)
  {}

  lemma PanickingRun(s: State, b: nat) returns (es: seq<Event>)
    requires WellFormed(s) && s.fault == NoFault && b < |s.casts| && MeetsClosed(s.chans, Rest(s, b))
    ensures Peaceful(s, es, b) && PanicsOn(ExecFrom(s, es), b)
  {
    var p :| 0 <= p < |Rest(s, b)| && Rest(s, b)[p] < |s.chans| && s.chans[Rest(s, b)[p]].closed;
    var c := Rest(s, b)[p];
    hide Drain, Rest, MeetsClosed;
    DrainPanicsIff(s, b);
    DrainCounts(s, b, c);
    es := DrainRun(s, b);
  }
}
