/** A broadcast that departures have not thrown off its course: what it has still to send to
    is open and not yet served, and nothing that happens beside it changes that, as long as
    every subscriber that leaves its job does so harmlessly. */
module FanoutCourse {
  import opened Values
  import opened Fanout
  import opened FanoutSafety
  import opened FanoutDelivery
  import opened FanoutLeaving

  /** How often the message of broadcast `b` has been offered to channel `c`. */
  ghost function Offers(s: State, b: nat, c: nat): nat
    requires b < |s.casts| && c < |s.chans|
  {
    multiset(s.chans[c].offered)[PacketOf(s, b)]
  }

  /** The loop has elements left to load, and loads them from the array of the list. */
  ghost predicate Shares(s: State, b: nat)
    requires b < |s.casts|
  {
    First(s.casts[b]) < s.casts[b].view.len && SameArray(s, b)
  }

  /** Then the list is at least as long as the snapshot was, and who comes after the window
      has not been served. */
  ghost predicate Steady(s: State, b: nat)
    requires WellFormed(s) && b < |s.casts|
  {
    && (Unfinished(s.casts[b]) ==> s.casts[b].job in s.subs)
    && (Shares(s, b) ==>
          && s.casts[b].view.len <= |List(s, b)|
          && forall p :: s.casts[b].view.len <= p < |List(s, b)| ==> Fresh(s, b, List(s, b)[p]))
  }

  /** Channel `c` has neither been offered the message of `b` nor is it held by its loop. */
  ghost predicate Fresh(s: State, b: nat, c: nat)
    requires b < |s.casts|
  {
    c < |s.chans| && Offers(s, b, c) == 0 && s.casts[b].held != Some(c)
  }

  /** Who is still to be served is served then for the first time. */
  ghost predicate ServesOnce(s: State, b: nat)
    requires WellFormed(s) && b < |s.casts|
  {
    && Distinct(Rest(s, b))
    && (forall c :: 0 <= c < |s.chans| ==> Offers(s, b, c) <= if c in Rest(s, b) then 0 else 1)
  }

  ghost predicate OnCourse(s: State, b: nat)
    requires WellFormed(s) && b < |s.casts|
  {
    Steady(s, b) && ServesOnce(s, b) && !MeetsClosed(s.chans, Rest(s, b))
  }

  /** Channel `c` has been served by broadcast `b`, or the loop is on its way to it. */
  ghost predicate Promised(s: State, b: nat, c: nat)
    requires WellFormed(s) && b < |s.casts|
  {
    c in Rest(s, b) || (c < |s.chans| && Offers(s, b, c) == 1)
  }

  // ---------------------------------------------------------------- what a step does to it

  lemma OffersAfter(s: State, e: Event, b: nat, c: nat)
    requires WellFormed(s) && b < |s.casts| && c < |s.chans|
    ensures b < |Step(s, e).casts| && c < |Step(s, e).chans|
    ensures Offers(Step(s, e), b, c) == Offers(s, b, c) + if Delivers(s, e, c) && e.cast == b then 1 else 0
  {
    hide Step, WellFormed, Disturbs;
    StepOnQueue(s, e, c);
    StepOnCast(s, e, b);
    if Delivers(s, e, c) { CountSnoc(s.chans[c].offered, PacketOf(s, e.cast), PacketOf(s, b)); }
  }

  /** A channel that has just been made has been offered nothing. */
  lemma NewOffers(s: State, e: Event, b: nat, c: nat)
    requires WellFormed(s) && b < |s.casts| && |s.chans| <= c < |Step(s, e).chans|
    ensures c == |s.chans| && b < |Step(s, e).casts| && Offers(Step(s, e), b, c) == 0 && !Step(s, e).chans[c].closed
  {
    hide Step, WellFormed, Disturbs;
    StepGrows(s, e);
    NewIsEmpty(s, e);
    StepOnCast(s, e, b);
  }

  /** The event is no step of the loop of `b`, and nobody leaves its job. */
  ghost predicate Beside(s: State, e: Event, b: nat)
    requires WellFormed(s)
  {
    s.fault == NoFault && e != Load(b) && e != Send(b) && !Disturbs(s, e, b)
  }

  /** Element `p` of the window ahead is what it was, or a new subscriber was written there
      because the list ended before it. */
  ghost predicate SameOrJoined(s: State, r: State, b: nat, p: nat)
    requires WellFormed(s) && WellFormed(r) && b < |s.casts| && b < |r.casts|
    requires |Ahead(r, b)| == |Ahead(s, b)| && p < |Ahead(s, b)|
  {
    || Ahead(r, b)[p] == Ahead(s, b)[p]
    || (Ahead(r, b)[p] == |s.chans| < |r.chans| && Shares(s, b) && First(s.casts[b]) + p == |List(s, b)|)
  }

  /** What such an event may change about an unfinished broadcast. */
  ghost predicate Passing(s: State, r: State, b: nat)
    requires WellFormed(s) && WellFormed(r) && b < |s.casts|
  {
    && |s.chans| <= |r.chans| && b < |r.casts| && r.casts[b] == s.casts[b]
    && (s.casts[b].job in s.subs ==> s.casts[b].job in r.subs)
    && (SameArray(r, b) ==> SameArray(s, b) || s.casts[b].job !in s.subs)
    && (List(r, b) == List(s, b) || (|s.chans| < |r.chans| && List(r, b) == List(s, b) + [|s.chans|]))
    && |Ahead(r, b)| == |Ahead(s, b)|
    && forall p :: 0 <= p < |Ahead(s, b)| ==> SameOrJoined(s, r, b, p)
  }

  lemma BesideIsPassing(s: State, e: Event, b: nat)
    requires Inv(s) && b < |s.casts| && Unfinished(s.casts[b]) && Beside(s, e, b)
    ensures Passing(s, Step(s, e), b)
  {
    assert WellFormed(s) && FlightOk(s, b) && s.arrays[s.casts[b].view.arr].job == s.casts[b].job;
    match e
    case Subscribe(job, room) => JoinIsPassing(s, job, room, b);
    case Unsubscribe(ch) => if ch < |s.chans| { LeaveIsPassing(s, ch, b); } else { NothingIsPassing(s, s, b); }
    case Snapshot(job, text) => NothingIsPassing(s, Step(s, e), b);
    case Load(x) => NothingIsPassing(s, Step(s, e), b);
    case Send(x) => NothingIsPassing(s, Step(s, e), b);
    case Receive(ch) => NothingIsPassing(s, Step(s, e), b);
  }

  lemma NothingIsPassing(s: State, r: State, b: nat)
    requires WellFormed(s) && WellFormed(r) && b < |s.casts| && b < |r.casts| && r.casts[b] == s.casts[b]
    requires r.arrays == s.arrays && r.subs == s.subs && |r.chans| == |s.chans|
    ensures Passing(s, r, b)
  {
    assert Items(r, r.casts[b].view) == Items(s, s.casts[b].view);
    assert List(r, b) == List(s, b);
  }

  /** The cells of a broadcast's array after a join. */
  lemma JoinCells(s: State, job: int, room: nat, k: Cast, q: nat)
    requires WellFormed(s) && InRange(s, k.view) && q < k.view.len && s.arrays[k.view.arr].job == k.job
    requires job in s.subs ==> s.arrays[s.subs[job].arr].job == job
    ensures var r := DoSubscribe(s, job, room);
      && k.view.arr < |r.arrays| && |r.arrays[k.view.arr].cells| == |s.arrays[k.view.arr].cells|
      && (|| r.arrays[k.view.arr].cells[q] == s.arrays[k.view.arr].cells[q]
          || (&& r.arrays[k.view.arr].cells[q] == |s.chans| && job == k.job && job in s.subs
              && s.subs[job].arr == k.view.arr && q == s.subs[job].len))
  {
    hide Items;
  }

  lemma JoinLists(s: State, job: int, room: nat, b: nat)
    requires Inv(s) && b < |s.casts| && Unfinished(s.casts[b])
    ensures var r := DoSubscribe(s, job, room);
      && r.casts == s.casts && |r.chans| == |s.chans| + 1
      && (s.casts[b].job in s.subs ==> s.casts[b].job in r.subs)
      && (SameArray(r, b) ==> SameArray(s, b) || s.casts[b].job !in s.subs)
      && (List(r, b) == List(s, b) || List(r, b) == List(s, b) + [|s.chans|])
  {
    SubscribeLists(s, job, room);
    assert s.casts[b].view.arr < |s.arrays| by { assert InRange(s, s.casts[b].view); }
    hide Inv, Items;
  }

  lemma JoinIsPassing(s: State, job: int, room: nat, b: nat)
    requires Inv(s) && b < |s.casts| && Unfinished(s.casts[b])
    requires s.arrays[s.casts[b].view.arr].job == s.casts[b].job
    ensures Passing(s, DoSubscribe(s, job, room), b)
  {
    var r, k := DoSubscribe(s, job, room), s.casts[b];
    assert job in s.subs ==> ListOk(s, job);
    assert WellFormed(s) && InRange(s, k.view) && k.next < k.view.len && First(k) <= k.view.len;
    JoinLists(s, job, room, b);
    hide Inv, DoSubscribe, WellFormed;
    forall p | 0 <= p < k.view.len - First(k)
      ensures |Ahead(r, b)| == |Ahead(s, b)| == k.view.len - First(k) && SameOrJoined(s, r, b, p)
    {
      JoinCells(s, job, room, k, First(k) + p);
      AheadCell(s, b, p);
      AheadCell(r, b, p);
    }
  }

  lemma AheadCell(s: State, b: nat, p: nat)
    requires WellFormed(s) && b < |s.casts| && First(s.casts[b]) + p < s.casts[b].view.len
    ensures |Ahead(s, b)| == s.casts[b].view.len - First(s.casts[b])
    ensures InRange(s, s.casts[b].view)
    ensures Ahead(s, b)[p] == s.arrays[s.casts[b].view.arr].cells[First(s.casts[b]) + p]
  {}

  lemma LeaveIsPassing(s: State, ch: nat, b: nat)
    requires Inv(s) && s.fault == NoFault && ch < |s.chans| && b < |s.casts| && Unfinished(s.casts[b])
    requires s.arrays[s.casts[b].view.arr].job == s.casts[b].job && !Disturbs(s, Unsubscribe(ch), b)
    ensures Passing(s, DoUnsubscribe(s, ch), b)
  {
    FoundIsOpen(s, ch);
    var r := DoUnsubscribe(s, ch);
    if Found(s, ch) {
      UnsubscribeRest(s, ch);
      UnsubscribeList(s, ch);
      assert ListOk(s, s.chans[ch].job);
      assert Items(r, r.casts[b].view) == Items(s, s.casts[b].view);
      assert List(r, b) == List(s, b);
    } else {
      NothingIsPassing(s, s, b);
    }
  }

  /** What an unfinished broadcast has still to send to are channels of its own job. */
  lemma RestJob(s: State, b: nat, c: nat)
    requires Ledger(s) && b < |s.casts| && c in Rest(s, b)
    ensures Unfinished(s.casts[b]) && c < |s.chans| && s.chans[c].job == s.casts[b].job
  {
    assert SeesOwnJob(s, b);
    var k, ahead := s.casts[b], Ahead(s, b);
    if c in ahead {
      var p :| 0 <= p < |ahead| && ahead[p] == c;
      assert ahead[p] == s.arrays[k.view.arr].cells[First(k) + p];
    }
  }

  lemma RestIsEmpty(s: State, b: nat)
    requires WellFormed(s) && b < |s.casts| && !Unfinished(s.casts[b])
    ensures Rest(s, b) == [] && First(s.casts[b]) == s.casts[b].view.len
  {}

  /** An element of what is to be sent is what it was, or a new subscriber. */
  lemma RestPassing(s: State, r: State, b: nat)
    requires WellFormed(s) && WellFormed(r) && b < |s.casts| && Passing(s, r, b)
    ensures b < |r.casts| && |Rest(r, b)| == |Rest(s, b)|
    ensures forall q :: 0 <= q < |Rest(s, b)| ==>
      Rest(r, b)[q] == Rest(s, b)[q] || (Rest(r, b)[q] == |s.chans| < |r.chans|)
    ensures Steady(s, b) ==> Rest(r, b) == Rest(s, b)
  {
    var held := if s.casts[b].held.Some? then [s.casts[b].held.value] else [];
    assert Rest(s, b) == held + Ahead(s, b) && Rest(r, b) == held + Ahead(r, b);
    forall q | 0 <= q < |Rest(s, b)|
      ensures Rest(r, b)[q] == Rest(s, b)[q] || (Rest(r, b)[q] == |s.chans| < |r.chans|)
      ensures Steady(s, b) ==> Rest(r, b)[q] == Rest(s, b)[q]
    {
      if q >= |held| { assert SameOrJoined(s, r, b, q - |held|); }
    }
  }

  /** Whoever it was on its way to stays open. */
  lemma BesideKeepsOpen(s: State, e: Event, b: nat)
    requires Ledger(s) && b < |s.casts| && Unfinished(s.casts[b]) && Beside(s, e, b)
    requires !MeetsClosed(s.chans, Rest(s, b))
    ensures b < |Step(s, e).casts| && !MeetsClosed(Step(s, e).chans, Rest(Step(s, e), b))
  {
    BesideIsPassing(s, e, b);
    var r := Step(s, e);
    hide Step, Ledger, Passing, Rest, WellFormed;
    RestPassing(s, r, b);
    forall q | 0 <= q < |Rest(r, b)| && Rest(r, b)[q] < |r.chans| ensures !r.chans[Rest(r, b)[q]].closed {
      if Rest(r, b)[q] == Rest(s, b)[q] {
        var c := Rest(s, b)[q];
        RestJob(s, b, c);
        StepOnChan(s, e, c);
      } else {
        NewOffers(s, e, b, |s.chans|);
      }
    }
  }

  lemma FreshAfter(s: State, e: Event, b: nat, c: nat)
    requires Ledger(s) && b < |s.casts| && Beside(s, e, b) && c < |Step(s, e).chans|
    requires c < |s.chans| ==> Fresh(s, b, c)
    requires b < |Step(s, e).casts| && Step(s, e).casts[b].held == s.casts[b].held
    ensures Fresh(Step(s, e), b, c)
  {
    assert WellFormed(s);
    hide Step, Ledger;
    if c < |s.chans| { OffersAfter(s, e, b, c); } else { NewOffers(s, e, b, c); }
  }

  lemma BesideKeepsSteady(s: State, e: Event, b: nat)
    requires Ledger(s) && b < |s.casts| && Unfinished(s.casts[b]) && Beside(s, e, b) && Steady(s, b)
    ensures b < |Step(s, e).casts| && Steady(Step(s, e), b)
  {
    BesideIsPassing(s, e, b);
    var r := Step(s, e);
    hide Step, Ledger, Fresh, List, WellFormed;
    if Shares(r, b) {
      forall p | s.casts[b].view.len <= p < |List(r, b)| ensures Fresh(r, b, List(r, b)[p]) {
        var c := List(r, b)[p];
        if p < |List(s, b)| { assert Fresh(s, b, List(s, b)[p]); FreshIs(s, b, c); } else { assert c == |s.chans|; }
        FreshAfter(s, e, b, c);
      }
    }
  }

  lemma FreshIs(s: State, b: nat, c: nat)
    requires b < |s.casts| && Fresh(s, b, c)
    ensures c < |s.chans|
  {}

  /** A step beside a broadcast changes what is still to be sent neither of an unfinished nor
      of a finished one. */
  lemma BesideKeepsRest(s: State, e: Event, b: nat)
    requires Ledger(s) && b < |s.casts| && Beside(s, e, b) && Steady(s, b)
    ensures b < |Step(s, e).casts| && Steady(Step(s, e), b) && Rest(Step(s, e), b) == Rest(s, b)
    ensures Unfinished(Step(s, e).casts[b]) <==> Unfinished(s.casts[b])
  {
    var r := Step(s, e);
    assert WellFormed(s) && Inv(s);
    hide Step, Ledger, Inv, Rest, WellFormed, Steady;
    if Unfinished(s.casts[b]) {
      BesideIsPassing(s, e, b);
      BesideKeepsSteady(s, e, b);
      RestPassing(s, r, b);
      PassingCast(s, r, b);
    } else {
      StepOnCast(s, e, b);
      NextAfter(s, e, b);
      RestIsEmpty(s, b);
      RestIsEmpty(r, b);
      FinishedIsSteady(r, b);
    }
  }

  lemma PassingCast(s: State, r: State, b: nat)
    requires WellFormed(s) && WellFormed(r) && b < |s.casts| && Passing(s, r, b)
    ensures b < |r.casts| && r.casts[b] == s.casts[b]
  {}

  lemma FinishedIsSteady(s: State, b: nat)
    requires WellFormed(s) && b < |s.casts| && !Unfinished(s.casts[b])
    ensures Steady(s, b)
  {}

  lemma BesideKeepsOffers(s: State, e: Event, b: nat, c: nat)
    requires Ledger(s) && b < |s.casts| && Beside(s, e, b) && c < |Step(s, e).chans|
    ensures b < |Step(s, e).casts|
    ensures Offers(Step(s, e), b, c) == if c < |s.chans| then Offers(s, b, c) else 0
  {
    assert WellFormed(s);
    hide Step, Ledger;
    if c < |s.chans| { OffersAfter(s, e, b, c); } else { NewOffers(s, e, b, c); }
  }

  lemma BesideKeepsCourse(s: State, e: Event, b: nat)
    requires Ledger(s) && b < |s.casts| && Beside(s, e, b) && OnCourse(s, b)
    ensures b < |Step(s, e).casts| && OnCourse(Step(s, e), b)
    ensures forall c :: Promised(s, b, c) ==> Promised(Step(s, e), b, c)
  {
    assert WellFormed(s);
    var r := Step(s, e);
    hide Step, Ledger, Rest, WellFormed, Steady, MeetsClosed, Offers, Beside;
    BesideKeepsRest(s, e, b);
    StepGrows(s, e);
    forall c | 0 <= c < |r.chans| ensures Offers(r, b, c) == if c < |s.chans| then Offers(s, b, c) else 0 {
      BesideKeepsOffers(s, e, b, c);
    }
    if Unfinished(s.casts[b]) {
      BesideKeepsOpen(s, e, b);
    } else {
      RestIsEmpty(s, b);
      NothingClosed(r.chans);
    }
  }

  lemma NothingClosed(chans: seq<Chan>)
    ensures !MeetsClosed(chans, [])
  {}

  // ---------------------------------------------------------------- the loop's own steps

  /** What it loads from the list's own array is no element after the window. */
  lemma LoadsFromWindow(s: State, b: nat)
    requires Inv(s) && MayLoad(s, b) && Steady(s, b) && Shares(s, b)
    ensures forall p :: s.casts[b].view.len <= p < |List(s, b)| ==> List(s, b)[p] != Target(s, b)
  {
    assert ListOk(s, s.casts[b].job);
    assert List(s, b)[s.casts[b].next] == Target(s, b);
  }

  lemma LoadKeepsSteady(s: State, b: nat)
    requires Inv(s) && s.fault == NoFault && MayLoad(s, b) && Steady(s, b)
    ensures b < |Step(s, Load(b)).casts| && Steady(Step(s, Load(b)), b)
  {
    var r := Step(s, Load(b));
    assert WellFormed(s);
    LoadIs(s, b);
    assert List(r, b) == List(s, b) && Unfinished(s.casts[b]) && s.casts[b].held.None?;
    if Shares(r, b) {
      LoadsFromWindow(s, b);
      hide Step, WellFormed, Target, List, Inv;
      forall p | s.casts[b].view.len <= p < |List(s, b)| ensures Fresh(r, b, List(s, b)[p]) {
        assert Fresh(s, b, List(s, b)[p]);
      }
    }
  }

  lemma LoadKeepsCourse(s: State, b: nat)
    requires Inv(s) && s.fault == NoFault && MayLoad(s, b) && OnCourse(s, b)
    ensures b < |Step(s, Load(b)).casts| && OnCourse(Step(s, Load(b)), b)
    ensures Step(s, Load(b)).fault == NoFault
    ensures forall c :: Promised(s, b, c) ==> Promised(Step(s, Load(b)), b, c)
  {
    var r := Step(s, Load(b));
    assert WellFormed(s);
    LoadIs(s, b);
    LoadMoves(s, b);
    LoadKeepsSteady(s, b);
    assert forall c :: 0 <= c < |s.chans| ==> Offers(r, b, c) == Offers(s, b, c);
    hide Step, Rest, WellFormed, Target, Inv, Steady, MeetsClosed, Offers;
  }

  /** One more served and one less to serve. */
  lemma SendCounts(s: State, b: nat, c: nat)
    requires WellFormed(s) && s.fault == NoFault && MaySend(s, b) && !s.chans[Target(s, b)].closed && c < |s.chans|
    ensures b < |Step(s, Send(b)).casts| && |Step(s, Send(b)).chans| == |s.chans|
    ensures Offers(Step(s, Send(b)), b, c) == Offers(s, b, c) + if c == Target(s, b) then 1 else 0
    ensures Rest(s, b) == [Target(s, b)] + Rest(Step(s, Send(b)), b)
  {
    SendIs(s, b);
    SendMoves(s, b);
    OffersAfter(s, Send(b), b, c);
  }

  lemma SendKeepsSteady(s: State, b: nat)
    requires WellFormed(s) && s.fault == NoFault && MaySend(s, b) && !s.chans[Target(s, b)].closed && Steady(s, b)
    ensures b < |Step(s, Send(b)).casts| && Steady(Step(s, Send(b)), b)
  {
    var r := Step(s, Send(b));
    SendIs(s, b);
    assert s.casts[b].held == Some(Target(s, b)) && Unfinished(s.casts[b]);
    assert List(r, b) == List(s, b);
    hide Step, WellFormed, Target, List;
    if Shares(r, b) {
      forall p | s.casts[b].view.len <= p < |List(s, b)| ensures Fresh(r, b, List(s, b)[p]) {
        assert Fresh(s, b, List(s, b)[p]);
      }
    }
  }

  lemma SendKeepsCourse(s: State, b: nat)
    requires WellFormed(s) && s.fault == NoFault && MaySend(s, b) && OnCourse(s, b)
    ensures b < |Step(s, Send(b)).casts| && OnCourse(Step(s, Send(b)), b)
    ensures Step(s, Send(b)).fault == NoFault
    ensures forall c :: Promised(s, b, c) ==> Promised(Step(s, Send(b)), b, c)
  {
    var r, d := Step(s, Send(b)), Target(s, b);
    OpenTarget(s, b);
    SendIs(s, b);
    hide Step, Rest, WellFormed, Target, Steady, MeetsClosed, Offers, OnCourse;
    assert Steady(s, b) && ServesOnce(s, b) && !MeetsClosed(s.chans, Rest(s, b)) by { OnCourseIs(s, b); }
    SendKeepsSteady(s, b);
    SendKeepsOpen(s, b);
    SendMoves(s, b);
    MeetsClosedConcat(s.chans, [d], Rest(r, b));
    MeetsClosedSame(s.chans, r.chans, Rest(r, b));
    forall c | 0 <= c < |s.chans| ensures Offers(r, b, c) == Offers(s, b, c) + if c == d then 1 else 0 {
      SendCounts(s, b, c);
    }
    FirstOfDistinct(d, Rest(r, b));
    assert forall c :: c in Rest(s, b) <==> c == d || c in Rest(r, b);
    assert ServesOnce(r, b);
    IsOnCourse(r, b);
  }

  lemma FirstOfDistinct(d: nat, rest: seq<nat>)
    requires Distinct([d] + rest)
    ensures Distinct(rest) && d !in rest
  {
    var all := [d] + rest;
    assert all[0] == d && forall p :: 0 <= p < |rest| ==> rest[p] == all[p + 1];
  }

  lemma OnCourseIs(s: State, b: nat)
    requires WellFormed(s) && b < |s.casts| && OnCourse(s, b)
    ensures Steady(s, b) && ServesOnce(s, b) && !MeetsClosed(s.chans, Rest(s, b))
  {}

  lemma IsOnCourse(s: State, b: nat)
    requires WellFormed(s) && b < |s.casts| && Steady(s, b) && ServesOnce(s, b) && !MeetsClosed(s.chans, Rest(s, b))
    ensures OnCourse(s, b)
  {}

  lemma OpenTarget(s: State, b: nat)
    requires WellFormed(s) && s.fault == NoFault && b < |s.casts| && Unfinished(s.casts[b])
    requires !MeetsClosed(s.chans, Rest(s, b))
    ensures !s.chans[Target(s, b)].closed
  {
    RestMoves(s, b);
  }

  // ---------------------------------------------------------------- somebody leaves

  /** Where the removal of element `i` from a list of length `n` leaves the window `k..m`
      intact for good: the list stays at least as long as the window reaches. */
  predicate Lasting(i: nat, k: nat, m: nat, n: nat) {
    m <= i || (k <= i && m < n)
  }

  /** The guard a caller of `unsubscribe` could check: the broadcast does not hold `ch`, and
      it has nothing left to load; or it iterates over an array the list has since outgrown
      and `ch` is not ahead; or it iterates over the list's own array and `ch` came after the
      window, or is ahead while the list is longer than the window. */
  ghost predicate Harmless(s: State, b: nat, ch: nat)
    requires WellFormed(s) && b < |s.casts| && ch < |s.chans|
  {
    var k, m := First(s.casts[b]), s.casts[b].view.len;
    var i, n := Position(s, ch), Lookup(s, s.casts[b].job).len;
    && s.casts[b].held != Some(ch)
    && (|| k == m
        || (!SameArray(s, b) && ch !in Ahead(s, b))
        || (SameArray(s, b) && Lasting(i, k, m, n)))
  }

  /** The broadcast holds `ch`, or has it ahead and either iterates over an outgrown array, or
      `ch` is the last element of both list and window. */
  ghost predicate Doomed(s: State, b: nat, ch: nat)
    requires WellFormed(s) && b < |s.casts| && ch < |s.chans|
  {
    || s.casts[b].held == Some(ch)
    || (ch in Ahead(s, b) && (SameArray(s, b) ==> Position(s, ch) + 1 == s.casts[b].view.len == |List(s, b)|))
  }

  /** `before` holds open channels only, and `ch` is the only one that gets closed. */
  lemma OnlyLeaverCloses(s: State, ch: nat, r: State, targets: seq<nat>)
    requires ch < |s.chans| && !MeetsClosed(s.chans, targets)
    requires r.chans == s.chans[ch := s.chans[ch].(closed := true, until := |s.casts|)]
    ensures MeetsClosed(r.chans, targets) <==> ch in targets
  {
    if ch in targets {
      var p :| 0 <= p < |targets| && targets[p] == ch;
      assert r.chans[targets[p]].closed;
    }
  }

  lemma ListIsOpen(s: State, b: nat)
    requires WellFormed(s) && b < |s.casts| && s.casts[b].job in s.subs && ListOk(s, s.casts[b].job)
    ensures !MeetsClosed(s.chans, List(s, b))
  {}

  lemma PartIsOpen(chans: seq<Chan>, part: seq<nat>, whole: seq<nat>)
    requires !MeetsClosed(chans, whole) && forall c :: c in part ==> c in whole
    ensures !MeetsClosed(chans, part)
  {
    forall p | 0 <= p < |part| && part[p] < |chans| ensures !chans[part[p]].closed {
      assert part[p] in whole;
    }
  }

  /** What is ahead meets the leaver in the end. */
  lemma AheadMeets(s: State, b: nat, ch: nat)
    requires Leaving(s, b, ch) && !MeetsClosed(s.chans, Ahead(s, b))
    requires Shares(s, b) ==> s.casts[b].view.len <= |List(s, b)|
    ensures var r := DoUnsubscribe(s, ch);
      b < |r.casts| && (MeetsClosed(r.chans, Ahead(r, b)) <==>
        ch in Ahead(s, b) && (SameArray(s, b) ==> Position(s, ch) + 1 == s.casts[b].view.len == |List(s, b)|))
  {
    LeavingList(s, b, ch);
    var r, k, m := DoUnsubscribe(s, ch), First(s.casts[b]), s.casts[b].view.len;
    if k == m {
      assert Ahead(s, b) == [] && Ahead(r, b) == [];
    } else if SameArray(s, b) {
      AheadSameArray(s, b, ch);
      ListIsOpen(s, b);
      var list, i := List(s, b), Position(s, ch);
      hide *;
      assert k <= m;
      ShiftWithin(list, i, k, m);
      TailWithin(list, k);
      PartIsOpen(s.chans, Ahead(r, b), list);
      OnlyLeaverCloses(s, ch, r, Ahead(r, b));
      LastOneStays(list, i, k, m, Ahead(s, b), Ahead(r, b));
    } else {
      AheadOldArray(s, b, ch);
      hide *;
      OnlyLeaverCloses(s, ch, r, Ahead(s, b));
    }
  }

  lemma TailWithin(list: seq<nat>, k: nat)
    requires k <= |list|
    ensures forall c :: c in list[k..] ==> c in list
  {}

  /** Right after `ch` left, a closed channel is among the remaining targets exactly when
      `ch` doomed the broadcast. */
  lemma LeavingMeets(s: State, b: nat, ch: nat)
    requires Leaving(s, b, ch) && !MeetsClosed(s.chans, Rest(s, b))
    requires Shares(s, b) ==> s.casts[b].view.len <= |List(s, b)|
    ensures var r := DoUnsubscribe(s, ch);
      b < |r.casts| && (MeetsClosed(r.chans, Rest(r, b)) <==> Doomed(s, b, ch))
  {
    LeavingList(s, b, ch);
    var r := DoUnsubscribe(s, ch);
    var held := if s.casts[b].held.Some? then [s.casts[b].held.value] else [];
    assert ch in held <==> s.casts[b].held == Some(ch);
    assert r.casts[b].held == s.casts[b].held;
    assert Rest(s, b) == held + Ahead(s, b) && Rest(r, b) == held + Ahead(r, b);
    hide Leaving, DoUnsubscribe, Ahead, Rest, WellFormed, MeetsClosed;
    MeetsClosedConcat(s.chans, held, Ahead(s, b));
    MeetsClosedConcat(r.chans, held, Ahead(r, b));
    OnlyLeaverCloses(s, ch, r, held);
    AheadMeets(s, b, ch);
  }

  /** A harmless departure takes nobody but the leaver off the course and puts on it only
      listed channels that have not been served. */
  ghost predicate StaysAhead(s: State, b: nat, ch: nat, after: seq<nat>)
    requires WellFormed(s) && b < |s.casts|
  {
    && Distinct(after)
    && (forall c :: c in Ahead(s, b) && c != ch ==> c in after)
    && (forall c :: c in after ==> c in Ahead(s, b) || Fresh(s, b, c))
  }

  lemma AheadAfterLeaving(s: State, b: nat, ch: nat)
    requires Leaving(s, b, ch) && Steady(s, b) && Distinct(Rest(s, b)) && Harmless(s, b, ch)
    ensures b < |DoUnsubscribe(s, ch).casts| && StaysAhead(s, b, ch, Ahead(DoUnsubscribe(s, ch), b))
  {
    LeavingList(s, b, ch);
    AheadDistinct(s, b);
    var r, k, m := DoUnsubscribe(s, ch), First(s.casts[b]), s.casts[b].view.len;
    if k == m {
      assert Ahead(s, b) == [] && Ahead(r, b) == [];
    } else if SameArray(s, b) {
      AheadSameArray(s, b, ch);
      var list, i := List(s, b), Position(s, ch);
      forall p | m <= p < |list| ensures Fresh(s, b, list[p]) { assert Shares(s, b); }
      hide *;
      LastingWindow(list, i, k, m, Ahead(s, b), Ahead(r, b));
      forall c | c in Ahead(r, b) && c !in Ahead(s, b) ensures Fresh(s, b, c) {
        var p :| m <= p < |list| && list[p] == c;
      }
      IsStaysAhead(s, b, ch, Ahead(r, b));
    } else {
      AheadOldArray(s, b, ch);
    }
  }

  lemma IsStaysAhead(s: State, b: nat, ch: nat, after: seq<nat>)
    requires WellFormed(s) && b < |s.casts| && Distinct(after)
    requires forall c :: c in Ahead(s, b) && c != ch ==> c in after
    requires forall c :: c in after && c !in Ahead(s, b) ==> Fresh(s, b, c)
    ensures StaysAhead(s, b, ch, after)
  {}

  lemma AheadDistinct(s: State, b: nat)
    requires WellFormed(s) && b < |s.casts| && Distinct(Rest(s, b))
    ensures Distinct(Ahead(s, b)) && (s.casts[b].held.Some? ==> s.casts[b].held.value !in Ahead(s, b))
  {
    if s.casts[b].held.Some? { FirstOfDistinct(s.casts[b].held.value, Ahead(s, b)); }
    else { assert Rest(s, b) == Ahead(s, b); }
  }

  /** The window after a removal that is lasting. */
  lemma LastingWindow(list: seq<nat>, i: nat, k: nat, m: nat, before: seq<nat>, after: seq<nat>)
    requires i < |list| && k < m <= |list| && Distinct(list) && Lasting(i, k, m, |list|)
    requires before == list[k..m] && after == ShiftLeft(list, i, |list|)[k..m]
    ensures Distinct(after)
    ensures forall c :: c in before && c != list[i] ==> c in after
    ensures forall c :: c in after && c !in before ==> exists p :: m <= p < |list| && list[p] == c
  {
    ShiftUnderIterator(list, i, k, m);
    ShiftWithin(list, i, k, m);
    hide ShiftLeft;
    forall c | c in before && c != list[i] ensures c in after {
      var p :| 0 <= p < |before| && before[p] == c;
      assert list[k + p] == c;
    }
    forall c | c in after ensures c in before || exists p :: m <= p < |list| && list[p] == c {
      var q :| 0 <= q < |after| && after[q] == c;
      assert after[q] in list[k..];
      var p :| 0 <= p < |list[k..]| && list[k..][p] == c;
      if p < m - k { assert before[p] == c; } else { assert list[k + p] == c; }
    }
  }

  lemma LeavingKeepsSteady(s: State, b: nat, ch: nat)
    requires Leaving(s, b, ch) && Steady(s, b) && Harmless(s, b, ch)
    ensures b < |DoUnsubscribe(s, ch).casts| && Steady(DoUnsubscribe(s, ch), b)
  {
    LeavingList(s, b, ch);
    var r, list, i, m := DoUnsubscribe(s, ch), List(s, b), Position(s, ch), s.casts[b].view.len;
    if Shares(r, b) {
      assert Shares(s, b) && Lasting(i, First(s.casts[b]), m, |list|);
      assert m < |list|;
      forall p | m <= p < |List(r, b)| ensures Fresh(r, b, List(r, b)[p]) {
        var q := if p < i then p else p + 1;
        assert List(r, b)[p] == list[q] && Fresh(s, b, list[q]);
        assert Offers(r, b, list[q]) == Offers(s, b, list[q]);
      }
    }
  }

  /** Closing the leaver changes nothing else about the other channels. */
  lemma LeavingOffers(s: State, b: nat, ch: nat, c: nat)
    requires Leaving(s, b, ch) && c < |s.chans|
    ensures var r := DoUnsubscribe(s, ch);
      b < |r.casts| && c < |r.chans| == |s.chans| && Offers(r, b, c) == Offers(s, b, c)
  {
    LeavingList(s, b, ch);
  }

  /** What is still to be sent after a harmless departure. */
  lemma RestAfterLeaving(s: State, b: nat, ch: nat)
    requires Leaving(s, b, ch) && Steady(s, b) && Distinct(Rest(s, b)) && Harmless(s, b, ch)
    ensures b < |DoUnsubscribe(s, ch).casts|
    ensures var rest := Rest(DoUnsubscribe(s, ch), b);
      && Distinct(rest)
      && (forall c :: c in Rest(s, b) && c != ch ==> c in rest)
      && (forall c :: c in rest ==> c in Rest(s, b) || Fresh(s, b, c))
  {
    LeavingList(s, b, ch);
    AheadAfterLeaving(s, b, ch);
    AheadDistinct(s, b);
    var r := DoUnsubscribe(s, ch);
    assert r.casts[b].held == s.casts[b].held;
    hide Leaving, DoUnsubscribe, Ahead, WellFormed, Offers, Harmless, Steady;
  }

  lemma HarmlessIsNotDoomed(s: State, b: nat, ch: nat)
    requires Leaving(s, b, ch) && Steady(s, b) && Harmless(s, b, ch)
    ensures !Doomed(s, b, ch)
  {
    LeavingList(s, b, ch);
    var k, m := First(s.casts[b]), s.casts[b].view.len;
    if ch in Ahead(s, b) && SameArray(s, b) {
      AheadSameArray(s, b, ch);
      var p :| 0 <= p < |Ahead(s, b)| && Ahead(s, b)[p] == ch;
      assert List(s, b)[k + p] == ch;
    }
  }

  lemma LeavingKeepsCourse(s: State, b: nat, ch: nat)
    requires Leaving(s, b, ch) && OnCourse(s, b) && Harmless(s, b, ch)
    ensures var r := DoUnsubscribe(s, ch);
      && b < |r.casts| && OnCourse(r, b)
      && forall c :: c != ch && Promised(s, b, c) ==> Promised(r, b, c)
  {
    var r := DoUnsubscribe(s, ch);
    LeavingList(s, b, ch);
    hide Leaving, DoUnsubscribe, Rest, WellFormed, Offers, Harmless, Doomed, MeetsClosed;
    LeavingMeets(s, b, ch);
    HarmlessIsNotDoomed(s, b, ch);
    LeavingKeepsSteady(s, b, ch);
    RestAfterLeaving(s, b, ch);
    forall c | 0 <= c < |s.chans| ensures Offers(r, b, c) == Offers(s, b, c) { LeavingOffers(s, b, ch, c); }
    hide Steady;
  }

  lemma FinishedKeepsCourse(s: State, b: nat, ch: nat)
    requires Inv(s) && s.fault == NoFault && b < |s.casts| && OnCourse(s, b) && !Unfinished(s.casts[b])
    requires ch < |s.chans| && !s.chans[ch].closed
    ensures var r := DoUnsubscribe(s, ch);
      && b < |r.casts| && OnCourse(r, b)
      && forall c :: Promised(s, b, c) ==> Promised(r, b, c)
  {
    FinishedStays(s, b, ch);
    var r := DoUnsubscribe(s, ch);
    hide Inv, DoUnsubscribe, Rest, WellFormed, Offers;
    RestIsEmpty(s, b);
    RestIsEmpty(r, b);
    FinishedIsSteady(r, b);
    NothingClosed(r.chans);
  }

  lemma FinishedStays(s: State, b: nat, ch: nat)
    requires Inv(s) && b < |s.casts| && !Unfinished(s.casts[b]) && ch < |s.chans| && !s.chans[ch].closed
    ensures var r := DoUnsubscribe(s, ch);
      && b < |r.casts| && r.casts[b] == s.casts[b] && |r.chans| == |s.chans|
      && forall c :: 0 <= c < |s.chans| ==> Offers(r, b, c) == Offers(s, b, c)
  {
    FoundIsOpen(s, ch);
    UnsubscribeRest(s, ch);
    var r := DoUnsubscribe(s, ch);
    assert r.casts[b] == s.casts[b];
    hide Inv, DoUnsubscribe, WellFormed;
  }

  lemma DepartureKeepsCourse(s: State, b: nat, ch: nat)
    requires Inv(s) && s.fault == NoFault && b < |s.casts| && OnCourse(s, b)
    requires ch < |s.chans| && !s.chans[ch].closed && s.chans[ch].job == s.casts[b].job && Harmless(s, b, ch)
    ensures var r := DoUnsubscribe(s, ch);
      && r.fault == NoFault && b < |r.casts| && OnCourse(r, b)
      && forall c :: c != ch && Promised(s, b, c) ==> Promised(r, b, c)
  {
    UnsubscribeNoFault(s, ch);
    if Unfinished(s.casts[b]) {
      IsLeaving(s, b, ch);
      hide Inv, Leaving, DoUnsubscribe, Rest, WellFormed, Offers, Harmless, Steady;
      LeavingKeepsCourse(s, b, ch);
    } else {
      FinishedKeepsCourse(s, b, ch);
    }
  }

  // ---------------------------------------------------------------- where it starts

  /** What an undisturbed broadcast has still to send to is the rest of its snapshot. */
  lemma UndisturbedRest(s: State, b: nat)
    requires WellFormed(s) && b < |s.casts| && FlightOk(s, b) && SnapOk(s, b)
    requires !s.casts[b].disturbed && Unfinished(s.casts[b])
    ensures s.casts[b].next < |s.casts[b].snap| == s.casts[b].view.len
    ensures Rest(s, b) == s.casts[b].snap[s.casts[b].next..]
  {
    var k := s.casts[b];
    assert Items(s, k.view) == k.snap;
    hide WellFormed, SnapOk, FlightOk, Items;
    assert k.snap[k.next..] == [k.snap[k.next]] + k.snap[k.next + 1..];
  }

  /** While it loads from the list's own array its snapshot is a prefix of the list. */
  lemma UndisturbedList(s: State, b: nat)
    requires Inv(s) && b < |s.casts| && !s.casts[b].disturbed && Unfinished(s.casts[b])
    ensures var k, m := s.casts[b], s.casts[b].view.len;
      && k.job in s.subs && |k.snap| == m
      && (k.held.Some? ==> k.held.value in k.snap)
      && (SameArray(s, b) ==> m <= |List(s, b)| && Distinct(List(s, b)) && k.snap == List(s, b)[..m])
  {
    var k := s.casts[b];
    assert FlightOk(s, b) && SnapOk(s, b);
    assert k.snap[k.next] in k.snap && Enrolled(s, k.snap[k.next]) && ListOk(s, k.job);
  }

  /** What has been offered so far. */
  lemma UndisturbedOffers(s: State, b: nat, c: nat)
    requires Ledger(s) && b < |s.casts| && !s.casts[b].disturbed && c < |s.chans|
    ensures s.casts[b].next <= |s.casts[b].snap|
    ensures Offers(s, b, c) == if c in s.casts[b].snap[..s.casts[b].next] then 1 else 0
  {
    assert Inv(s) && SnapOk(s, b) && OfferedOnce(s, b, c);
  }

  lemma UndisturbedSteady(s: State, b: nat)
    requires Ledger(s) && b < |s.casts| && !s.casts[b].disturbed && Unfinished(s.casts[b])
    ensures Steady(s, b)
  {
    assert WellFormed(s) && Inv(s);
    UndisturbedList(s, b);
    if Shares(s, b) {
      var k, list := s.casts[b], List(s, b);
      assert forall p :: 0 <= p < |list| ==> list[p] < |s.chans| by { assert ListOk(s, k.job); }
      hide Ledger, Inv, List, Offers, WellFormed;
      forall p | k.view.len <= p < |list| ensures Fresh(s, b, list[p]) {
        assert list[p] !in k.snap;
        UndisturbedOffers(s, b, list[p]);
      }
    }
  }

  lemma UndisturbedIsOpen(s: State, b: nat)
    requires Inv(s) && b < |s.casts| && !s.casts[b].disturbed && Unfinished(s.casts[b])
    ensures !MeetsClosed(s.chans, s.casts[b].snap)
  {
    assert FlightOk(s, b);
  }

  /** An undisturbed broadcast is on its course, and its promises are its snapshot. */
  lemma UndisturbedOnCourse(s: State, b: nat)
    requires Ledger(s) && b < |s.casts| && !s.casts[b].disturbed
    ensures OnCourse(s, b)
    ensures forall c :: Promised(s, b, c) <==> c in s.casts[b].snap
  {
    var snap, k := s.casts[b].snap, s.casts[b].next;
    assert WellFormed(s) && Inv(s) && SnapOk(s, b) && FlightOk(s, b);
    assert k <= |snap| && forall c :: c in snap ==> c < |s.chans|;
    hide *;
    SnapDistinct(s, b);
    forall c | 0 <= c < |s.chans| ensures Offers(s, b, c) == if c in snap[..k] then 1 else 0 {
      UndisturbedOffers(s, b, c);
    }
    if Unfinished(s.casts[b]) {
      UndisturbedRest(s, b);
      UndisturbedSteady(s, b);
      UndisturbedIsOpen(s, b);
      PartIsOpen(s.chans, snap[k..], snap);
    } else {
      FinishedRest(s, b);
      NothingClosed(s.chans);
    }
    CourseOfSnap(s, b, snap, k);
  }

  lemma FinishedRest(s: State, b: nat)
    requires WellFormed(s) && b < |s.casts| && !Unfinished(s.casts[b]) && SnapOk(s, b)
    ensures Rest(s, b) == [] == s.casts[b].snap[s.casts[b].next..] && Steady(s, b)
  {}

  lemma CourseOfSnap(s: State, b: nat, snap: seq<nat>, k: nat)
    requires WellFormed(s) && b < |s.casts| && Distinct(snap) && k <= |snap| && Rest(s, b) == snap[k..]
    requires Steady(s, b) && !MeetsClosed(s.chans, snap[k..]) && forall c :: c in snap ==> c < |s.chans|
    requires forall c :: 0 <= c < |s.chans| ==> Offers(s, b, c) == if c in snap[..k] then 1 else 0
    ensures OnCourse(s, b)
    ensures forall c :: Promised(s, b, c) <==> c in snap
  {
    hide Steady, MeetsClosed, WellFormed, Rest, Offers;
    SnapSplit(snap, k);
    hide Distinct;
  }

  lemma SnapSplit(snap: seq<nat>, k: nat)
    requires Distinct(snap) && k <= |snap|
    ensures Distinct(snap[k..])
    ensures forall c :: c in snap <==> c in snap[..k] || c in snap[k..]
    ensures forall c :: !(c in snap[..k] && c in snap[k..])
  {}

  // ---------------------------------------------------------------- any continuation

  /** Broadcast `b` has met a closed channel. */
  predicate PanicsOn(s: State, b: nat) {
    s.fault.SendOnClosed? && s.fault.cast == b
  }

  /** Nobody leaves the job of `b` while `b` has sends left. */
  ghost predicate Peaceful(s: State, es: seq<Event>, b: nat)
    requires WellFormed(s)
    decreases |es|
  {
    es == [] || (!Disturbs(s, es[0], b) && Peaceful(Step(s, es[0]), es[1..], b))
  }

  lemma StepKeepsCourse(s: State, e: Event, b: nat)
    requires Ledger(s) && b < |s.casts| && OnCourse(s, b) && !Disturbs(s, e, b) && !PanicsOn(s, b)
    ensures b < |Step(s, e).casts| && OnCourse(Step(s, e), b) && !PanicsOn(Step(s, e), b)
    ensures forall c :: Promised(s, b, c) ==> Promised(Step(s, e), b, c)
  {
    assert WellFormed(s) && Inv(s);
    if s.fault == NoFault {
      if e == Load(b) {
        if MayLoad(s, b) { LoadKeepsCourse(s, b); }
      } else if e == Send(b) {
        if MaySend(s, b) { SendKeepsCourse(s, b); }
      } else {
        BesideKeepsCourse(s, e, b);
        OthersPanic(s, e, b);
      }
    }
  }

  lemma OthersPanic(s: State, e: Event, b: nat)
    requires WellFormed(s) && s.fault == NoFault && e != Send(b)
    ensures !PanicsOn(Step(s, e), b)
  {
    hide WellFormed, Position, Target, Items, Disturb;
  }

  /** Whatever happens next, as long as nobody leaves the job, the broadcast stays on course. */
  lemma {:induction false} PeaceKeepsCourse(s: State, es: seq<Event>, b: nat)
    requires Ledger(s) && b < |s.casts| && OnCourse(s, b) && !PanicsOn(s, b) && Peaceful(s, es, b)
    ensures var t := ExecFrom(s, es);
      && b < |t.casts| && OnCourse(t, b) && !PanicsOn(t, b)
      && forall c :: Promised(s, b, c) ==> Promised(t, b, c)
    decreases |es|
  {
    if es != [] {
      hide Step, Ledger, OnCourse, Disturbs, Promised;
      StepKeepsCourse(s, es[0], b);
      StepKeepsLedger(s, es[0]);
      PeaceKeepsCourse(Step(s, es[0]), es[1..], b);
    }
  }

  /** The same without a course: what it is on its way to stays open. */
  lemma StepKeepsOpen(s: State, e: Event, b: nat)
    requires Ledger(s) && b < |s.casts| && !Disturbs(s, e, b) && !PanicsOn(s, b)
    requires !MeetsClosed(s.chans, Rest(s, b))
    ensures b < |Step(s, e).casts| && !MeetsClosed(Step(s, e).chans, Rest(Step(s, e), b)) && !PanicsOn(Step(s, e), b)
  {
    assert WellFormed(s) && Inv(s);
    var r := Step(s, e);
    if s.fault == NoFault {
      if !Unfinished(s.casts[b]) {
        OthersAreDone(s, e, b);
      } else if e == Load(b) {
        if MayLoad(s, b) { LoadMoves(s, b); LoadIs(s, b); }
      } else if e == Send(b) {
        if MaySend(s, b) { SendStaysOpen(s, b); }
      } else {
        BesideKeepsOpen(s, e, b);
        OthersPanic(s, e, b);
      }
    }
  }

  lemma SendStaysOpen(s: State, b: nat)
    requires WellFormed(s) && s.fault == NoFault && MaySend(s, b) && !MeetsClosed(s.chans, Rest(s, b))
    ensures var r := Step(s, Send(b)); b < |r.casts| && !MeetsClosed(r.chans, Rest(r, b)) && r.fault == NoFault
  {
    var r := Step(s, Send(b));
    OpenTarget(s, b);
    SendIs(s, b);
    hide Step, WellFormed, Rest, Target, MeetsClosed;
    SendMoves(s, b);
    SendKeepsOpen(s, b);
    MeetsClosedConcat(s.chans, [Target(s, b)], Rest(r, b));
    MeetsClosedSame(s.chans, r.chans, Rest(r, b));
  }

  /** A finished broadcast stays finished. */
  lemma OthersAreDone(s: State, e: Event, b: nat)
    requires WellFormed(s) && s.fault == NoFault && b < |s.casts| && !Unfinished(s.casts[b])
    ensures var r := Step(s, e);
      b < |r.casts| && !Unfinished(r.casts[b]) && !MeetsClosed(r.chans, Rest(r, b)) && !PanicsOn(r, b)
  {
    var r := Step(s, e);
    assert !MaySend(s, b);
    if e == Send(b) { assert r == s; } else { OthersPanic(s, e, b); }
    hide Step, WellFormed, MaySend;
    StepOnCast(s, e, b);
    NextAfter(s, e, b);
    RestIsEmpty(r, b);
    NothingClosed(r.chans);
  }

  lemma {:induction false} PeaceKeepsOpen(s: State, es: seq<Event>, b: nat)
    requires Ledger(s) && b < |s.casts| && !PanicsOn(s, b) && Peaceful(s, es, b)
    requires !MeetsClosed(s.chans, Rest(s, b))
    ensures !PanicsOn(ExecFrom(s, es), b)
    decreases |es|
  {
    if es != [] {
      hide Step, Ledger, MeetsClosed, Rest, Disturbs;
      StepKeepsOpen(s, es[0], b);
      StepKeepsLedger(s, es[0]);
      PeaceKeepsOpen(Step(s, es[0]), es[1..], b);
    }
  }
}
