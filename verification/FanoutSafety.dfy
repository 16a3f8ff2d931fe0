/** What every step of the fan-out keeps, and what follows for every run. */
module FanoutSafety {
  import opened Fanout

  ghost predicate Distinct(list: seq<nat>) {
    forall p, q :: 0 <= p < q < |list| ==> list[p] != list[q]
  }

  // ---------------------------------------------------------------- the invariant

  /** The list of `job` holds pairwise distinct open channels of that job. */
  ghost predicate ListOk(s: State, job: int)
    requires WellFormed(s) && job in s.subs
  {
    var list := Items(s, s.subs[job]);
    && s.arrays[s.subs[job].arr].job == job
    && (forall i :: 0 <= i < |list| ==>
          list[i] < |s.chans| && s.chans[list[i]].job == job && !s.chans[list[i]].closed)
    && (forall i, k :: 0 <= i < k < |list| ==> list[i] != list[k])
  }

  /** An open channel is in the list of its job. */
  ghost predicate Enrolled(s: State, c: nat)
    requires WellFormed(s) && c < |s.chans|
  {
    s.chans[c].closed || (s.chans[c].job in s.subs && c in Items(s, s.subs[s.chans[c].job]))
  }

  /** The recorded snapshot is the set of channels of the job that were registered when
      broadcast `b` was issued. */
  ghost predicate SnapOk(s: State, b: nat)
    requires b < |s.casts|
  {
    var k := s.casts[b];
    && |k.snap| == k.view.len
    && (forall i, j :: 0 <= i < j < |k.snap| ==> k.snap[i] != k.snap[j])
    && (forall c :: c in k.snap ==> c < |s.chans|)
    && (forall c :: 0 <= c < |s.chans| ==> (c in k.snap <==> Registered(s, c, b)))
  }

  ghost predicate Registered(s: State, c: nat, b: nat)
    requires b < |s.casts| && c < |s.chans|
  {
    s.chans[c].job == s.casts[b].job && s.chans[c].since <= b && (s.chans[c].closed ==> b < s.chans[c].until)
  }

  /** While nobody leaves the job, an unfinished broadcast still sees its snapshot, and
      all of it is open. */
  ghost predicate FlightOk(s: State, b: nat)
    requires WellFormed(s) && b < |s.casts|
  {
    var k := s.casts[b];
    Unfinished(k) ==>
      && s.arrays[k.view.arr].job == k.job
      && (!k.disturbed ==>
            && Items(s, k.view) == k.snap
            && (k.held.Some? ==> k.next < |k.snap| && k.held.value == k.snap[k.next])
            && (forall c :: c in k.snap && c < |s.chans| ==> !s.chans[c].closed)
            && (k.job in s.subs && s.subs[k.job].arr == k.view.arr ==> k.view.len <= s.subs[k.job].len))
  }

  ghost predicate FaultOk(s: State) {
    match s.fault
    case NoFault => true
    case SendOnClosed(b, c) => b < |s.casts| && s.casts[b].disturbed
    case CloseOfClosed(c) => false
  }

  ghost predicate Inv(s: State) {
    && WellFormed(s)
    && (forall j :: j in s.subs ==> ListOk(s, j))
    && (forall c :: 0 <= c < |s.chans| ==> Enrolled(s, c) && s.chans[c].since <= |s.casts|)
    && (forall c :: 0 <= c < |s.chans| && s.chans[c].closed ==> s.chans[c].until <= |s.casts|)
    && (forall b :: 0 <= b < |s.casts| ==> SnapOk(s, b) && FlightOk(s, b))
    && FaultOk(s)
  }

  // ---------------------------------------------------------------- every step keeps it

  /** The lists after `SubscribeLogs`. */
  lemma SubscribeLists(s: State, job: int, room: nat)
    requires Inv(s)
    ensures var r := DoSubscribe(s, job, room);
      && job in r.subs && Items(r, r.subs[job]) == Items(s, Lookup(s, job)) + [|s.chans|]
      && forall j :: j in r.subs && j != job ==> j in s.subs && Items(r, r.subs[j]) == Items(s, s.subs[j])
  {
    var r := DoSubscribe(s, job, room);
    forall j | j in r.subs && j != job ensures j in s.subs && Items(r, r.subs[j]) == Items(s, s.subs[j]) {
      assert ListOk(s, j);
    }
    if job in s.subs { assert ListOk(s, job); }
    assert Items(r, r.subs[job]) == Items(s, Lookup(s, job)) + [|s.chans|];
  }

  lemma SubscribeKeepsLists(s: State, job: int, room: nat, j: int)
    requires Inv(s) && j in DoSubscribe(s, job, room).subs
    ensures ListOk(DoSubscribe(s, job, room), j)
  {
    SubscribeLists(s, job, room);
    var r := DoSubscribe(s, job, room);
    assert j != job ==> j in s.subs && ListOk(s, j);
    assert job in s.subs ==> ListOk(s, job);
    assert r.arrays[r.subs[j].arr].job == j;
    assert |r.chans| == |s.chans| + 1 && r.chans[..|s.chans|] == s.chans
        && r.chans[|s.chans|].job == job && !r.chans[|s.chans|].closed;
    hide Inv, Items, DoSubscribe, WellFormed;
    JoinedList(s, r, if j in s.subs then Items(s, s.subs[j]) else [], j);
  }

  /** A list with or without the new channel. */
  lemma JoinedList(s: State, r: State, list: seq<nat>, j: int)
    requires WellFormed(r) && j in r.subs && r.arrays[r.subs[j].arr].job == j
    requires |r.chans| == |s.chans| + 1 && r.chans[..|s.chans|] == s.chans
    requires forall i :: 0 <= i < |list| ==>
      list[i] < |s.chans| && s.chans[list[i]].job == j && !s.chans[list[i]].closed
    requires Distinct(list)
    requires Items(r, r.subs[j]) == list
      || (Items(r, r.subs[j]) == list + [|s.chans|] && r.chans[|s.chans|].job == j && !r.chans[|s.chans|].closed)
    ensures ListOk(r, j)
  {
    hide Items, WellFormed;
    assert forall c :: 0 <= c < |s.chans| ==> r.chans[c] == s.chans[c];
  }

  lemma SubscribeKeepsEnrolled(s: State, job: int, room: nat, c: nat)
    requires Inv(s) && c <= |s.chans|
    ensures Enrolled(DoSubscribe(s, job, room), c)
  {
    SubscribeLists(s, job, room);
    if c < |s.chans| { assert Enrolled(s, c); }
  }

  lemma SubscribeKeepsCasts(s: State, job: int, room: nat, b: nat)
    requires Inv(s) && b < |s.casts|
    ensures SnapOk(DoSubscribe(s, job, room), b) && FlightOk(DoSubscribe(s, job, room), b)
  {
    var r := DoSubscribe(s, job, room);
    assert SnapOk(s, b) && FlightOk(s, b);
    forall c | 0 <= c < |r.chans| ensures c in r.casts[b].snap <==> Registered(r, c, b) {
      if c < |s.chans| { assert c in s.casts[b].snap <==> Registered(s, c, b); }
    }
    if Unfinished(r.casts[b]) && !r.casts[b].disturbed {
      assert Items(r, r.casts[b].view) == Items(s, s.casts[b].view);
    }
  }

  lemma SubscribeKeepsInv(s: State, job: int, room: nat)
    requires Inv(s) && s.fault == NoFault
    ensures Inv(DoSubscribe(s, job, room))
  {
    var r := DoSubscribe(s, job, room);
    hide ListOk, Enrolled, SnapOk, FlightOk, WellFormed;
    forall j | j in r.subs ensures ListOk(r, j) { SubscribeKeepsLists(s, job, room, j); }
    forall c | 0 <= c < |r.chans| ensures Enrolled(r, c) { SubscribeKeepsEnrolled(s, job, room, c); }
    forall b | 0 <= b < |r.casts| ensures SnapOk(r, b) && FlightOk(r, b) { SubscribeKeepsCasts(s, job, room, b); }
  }

  /** In every state of the invariant `close` is only called on an open channel. */
  lemma FoundIsOpen(s: State, ch: nat)
    requires Inv(s) && ch < |s.chans|
    ensures Found(s, ch) <==> !s.chans[ch].closed
  {
    var job := s.chans[ch].job;
    assert Enrolled(s, ch);
    if job in s.subs { assert ListOk(s, job); }
  }

  /** The list an effective `unsubscribe` leaves. */
  lemma UnsubscribeList(s: State, ch: nat)
    requires Inv(s) && s.fault == NoFault && ch < |s.chans| && Found(s, ch)
    ensures var job, r := s.chans[ch].job, DoUnsubscribe(s, ch);
            var list, i := Items(s, Lookup(s, job)), Position(s, ch);
            job in s.subs && job in r.subs && r.fault == NoFault && Items(r, r.subs[job]) == list[..i] + list[i + 1..]
    ensures forall j :: j in s.subs && j != s.chans[ch].job ==>
      j in DoUnsubscribe(s, ch).subs && Items(DoUnsubscribe(s, ch), DoUnsubscribe(s, ch).subs[j]) == Items(s, s.subs[j])
  {
    FoundIsOpen(s, ch);
    var job, r := s.chans[ch].job, DoUnsubscribe(s, ch);
    assert job in s.subs;
    assert forall j :: j in s.subs ==> s.arrays[s.subs[j].arr].job == j by {
      forall j | j in s.subs ensures s.arrays[s.subs[j].arr].job == j { assert ListOk(s, j); }
    }
    hide Inv, Items;
    OwnListShifts(s, ch);
    forall j | j in s.subs && j != job ensures j in r.subs && Items(r, r.subs[j]) == Items(s, s.subs[j]) {
      OtherListStays(s, ch, j);
    }
  }

  lemma OwnListShifts(s: State, ch: nat)
    requires WellFormed(s) && s.fault == NoFault && ch < |s.chans| && Found(s, ch) && !s.chans[ch].closed
    ensures var job, r := s.chans[ch].job, DoUnsubscribe(s, ch);
            var list, i := Items(s, Lookup(s, job)), Position(s, ch);
            job in r.subs && r.fault == NoFault && Items(r, r.subs[job]) == list[..i] + list[i + 1..]
  {
    var job, r := s.chans[ch].job, DoUnsubscribe(s, ch);
    var v, i := Lookup(s, job), Position(s, ch);
    assert Items(r, r.subs[job]) == Items(s, v)[..i] + Items(s, v)[i + 1..];
  }

  lemma OtherListStays(s: State, ch: nat, j: int)
    requires WellFormed(s) && ch < |s.chans| && Found(s, ch) && j in s.subs && j != s.chans[ch].job
    requires s.chans[ch].job in s.subs && s.arrays[s.subs[j].arr].job == j
    requires s.arrays[s.subs[s.chans[ch].job].arr].job == s.chans[ch].job
    ensures var r := DoUnsubscribe(s, ch); j in r.subs && Items(r, r.subs[j]) == Items(s, s.subs[j])
  {}

  /** What else an effective `unsubscribe` changes. */
  lemma UnsubscribeRest(s: State, ch: nat)
    requires WellFormed(s) && ch < |s.chans| && Found(s, ch) && !s.chans[ch].closed
    ensures var r := DoUnsubscribe(s, ch);
      && r.subs.Keys == s.subs.Keys && |r.arrays| == |s.arrays|
      && (forall j :: j in s.subs ==> r.subs[j].arr == s.subs[j].arr)
      && (forall a :: 0 <= a < |s.arrays| ==> r.arrays[a].job == s.arrays[a].job)
      && r.chans == s.chans[ch := s.chans[ch].(closed := true, until := |s.casts|)]
  {}

  /** A list of distinct elements without one of them. */
  lemma WithoutOne(list: seq<nat>, i: nat, without: seq<nat>)
    requires i < |list| && without == list[..i] + list[i + 1..]
    requires Distinct(list)
    ensures Distinct(without)
    ensures forall x :: x in without <==> x in list && x != list[i]
  {
    forall x | x in list && x != list[i] ensures x in without {
      var p :| 0 <= p < |list| && list[p] == x;
      assert without[if p < i then p else p - 1] == x;
    }
  }

  lemma UnsubscribeKeepsLists(s: State, ch: nat, j: int)
    requires Inv(s) && s.fault == NoFault && ch < |s.chans| && Found(s, ch)
    requires j in DoUnsubscribe(s, ch).subs
    ensures ListOk(DoUnsubscribe(s, ch), j)
  {
    FoundIsOpen(s, ch);
    UnsubscribeList(s, ch);
    UnsubscribeRest(s, ch);
    assert ListOk(s, j) && ListOk(s, s.chans[ch].job);
    var r, list := DoUnsubscribe(s, ch), Items(s, s.subs[j]);
    hide DoUnsubscribe, Inv, Items;
    if j == s.chans[ch].job {
      WithoutOne(list, Position(s, ch), Items(r, r.subs[j]));
    }
    ListFrom(s, r, ch, j);
  }

  lemma ListFrom(s: State, r: State, ch: nat, j: int)
    requires WellFormed(s) && WellFormed(r) && ch < |s.chans| && j in s.subs && j in r.subs && ListOk(s, j)
    requires |r.chans| == |s.chans| && forall c :: 0 <= c < |s.chans| && c != ch ==> r.chans[c] == s.chans[c]
    requires r.arrays[r.subs[j].arr].job == j
    requires var list, without := Items(s, s.subs[j]), Items(r, r.subs[j]);
      && (forall x :: x in without ==> x in list && x != ch)
      && Distinct(without)
    ensures ListOk(r, j)
  {
    hide Items;
    var without := Items(r, r.subs[j]);
    forall i | 0 <= i < |without|
      ensures without[i] < |r.chans| && r.chans[without[i]].job == j && !r.chans[without[i]].closed
    {
      assert without[i] in Items(s, s.subs[j]);
    }
  }

  lemma UnsubscribeKeepsEnrolled(s: State, ch: nat, c: nat)
    requires Inv(s) && s.fault == NoFault && ch < |s.chans| && Found(s, ch) && c < |s.chans|
    ensures Enrolled(DoUnsubscribe(s, ch), c)
  {
    FoundIsOpen(s, ch);
    UnsubscribeList(s, ch);
    UnsubscribeRest(s, ch);
    assert Enrolled(s, c) && ListOk(s, s.chans[ch].job);
    var r, job := DoUnsubscribe(s, ch), s.chans[ch].job;
    hide DoUnsubscribe, Inv, Items;
    WithoutOne(Items(s, s.subs[job]), Position(s, ch), Items(r, r.subs[job]));
  }

  lemma UnsubscribeKeepsCasts(s: State, ch: nat, b: nat)
    requires Inv(s) && s.fault == NoFault && ch < |s.chans| && Found(s, ch) && b < |s.casts|
    ensures SnapOk(DoUnsubscribe(s, ch), b) && FlightOk(DoUnsubscribe(s, ch), b)
  {
    FoundIsOpen(s, ch);
    var r, job := DoUnsubscribe(s, ch), s.chans[ch].job;
    assert ListOk(s, job);
    assert SnapOk(s, b) && FlightOk(s, b);
    forall c | 0 <= c < |r.chans| ensures c in r.casts[b].snap <==> Registered(r, c, b) {
      assert c in s.casts[b].snap <==> Registered(s, c, b);
    }
    if Unfinished(r.casts[b]) && !r.casts[b].disturbed {
      assert s.casts[b].job != job;
      assert Items(r, r.casts[b].view) == Items(s, s.casts[b].view);
    }
  }

  lemma UnsubscribeKeepsInv(s: State, ch: nat)
    requires Inv(s) && s.fault == NoFault && ch < |s.chans|
    ensures Inv(DoUnsubscribe(s, ch))
  {
    FoundIsOpen(s, ch);
    if Found(s, ch) {
      var r := DoUnsubscribe(s, ch);
      forall j | j in r.subs ensures ListOk(r, j) { UnsubscribeKeepsLists(s, ch, j); }
      forall c | 0 <= c < |r.chans| ensures Enrolled(r, c) { UnsubscribeKeepsEnrolled(s, ch, c); }
      forall b | 0 <= b < |r.casts| ensures SnapOk(r, b) && FlightOk(r, b) { UnsubscribeKeepsCasts(s, ch, b); }
    }
  }

  lemma SnapshotKeepsInv(s: State, job: int, text: string)
    requires Inv(s) && s.fault == NoFault
    ensures Inv(DoSnapshot(s, job, text))
  {
    var r := DoSnapshot(s, job, text);
    forall j | j in r.subs ensures ListOk(r, j) {
      assert ListOk(s, j);
      assert Items(r, r.subs[j]) == Items(s, s.subs[j]);
    }
    forall c | 0 <= c < |r.chans| ensures Enrolled(r, c) {
      assert Enrolled(s, c);
      if !s.chans[c].closed { assert Items(r, r.subs[s.chans[c].job]) == Items(s, s.subs[s.chans[c].job]); }
    }
    forall b | 0 <= b < |r.casts| ensures SnapOk(r, b) && FlightOk(r, b) {
      if b < |s.casts| {
        assert SnapOk(s, b) && FlightOk(s, b);
        forall c | 0 <= c < |r.chans| ensures c in r.casts[b].snap <==> Registered(r, c, b) {
          assert c in s.casts[b].snap <==> Registered(s, c, b);
        }
        assert Items(r, r.casts[b].view) == Items(s, s.casts[b].view);
      } else {
        if job in s.subs { assert ListOk(s, job); }
        assert Items(r, r.casts[b].view) == r.casts[b].snap;
        forall c | 0 <= c < |r.chans| ensures c in r.casts[b].snap <==> Registered(r, c, b) {
          assert Enrolled(s, c);
        }
      }
    }
  }

  /** Broadcast `b` is where it was, or has loaded its target, or has moved on from it. */
  ghost predicate CastMoves(s: State, r: State, b: nat)
    requires WellFormed(s) && b < |s.casts| && b < |r.casts|
  {
    var k, l := s.casts[b], r.casts[b];
    && l == k.(next := l.next, held := l.held) && k.next <= l.next
    && (l.held.Some? ==> l.next == k.next && Unfinished(k) && l.held.value == Target(s, b))
  }

  /** Changing the queue and history of one channel, the positions of broadcasts, or
      recording a fault of the allowed kind keeps the invariant. */
  lemma QueueChangeKeepsInv(s: State, r: State, c: nat)
    requires Inv(s) && WellFormed(r) && c < |s.chans| == |r.chans|
    requires r.subs == s.subs && r.arrays == s.arrays && |r.casts| == |s.casts| && FaultOk(r)
    requires forall x :: 0 <= x < |s.chans| && x != c ==> r.chans[x] == s.chans[x]
    requires r.chans[c].job == s.chans[c].job && r.chans[c].closed == s.chans[c].closed
    requires r.chans[c].since == s.chans[c].since && r.chans[c].until == s.chans[c].until
    requires forall b :: 0 <= b < |s.casts| ==> CastMoves(s, r, b)
    ensures Inv(r)
  {
    forall j | j in r.subs ensures ListOk(r, j) {
      assert ListOk(s, j);
      assert Items(r, r.subs[j]) == Items(s, s.subs[j]);
    }
    forall x | 0 <= x < |r.chans| ensures Enrolled(r, x) {
      assert Enrolled(s, x);
      if !s.chans[x].closed { assert Items(r, r.subs[s.chans[x].job]) == Items(s, s.subs[s.chans[x].job]); }
    }
    forall b | 0 <= b < |r.casts| ensures SnapOk(r, b) && FlightOk(r, b) {
      assert SnapOk(s, b) && FlightOk(s, b) && CastMoves(s, r, b);
      forall x | 0 <= x < |r.chans| ensures x in r.casts[b].snap <==> Registered(r, x, b) {
        assert x in s.casts[b].snap <==> Registered(s, x, b);
      }
      assert Items(r, r.casts[b].view) == Items(s, s.casts[b].view);
      if Unfinished(r.casts[b]) && Unfinished(s.casts[b]) && !s.casts[b].disturbed { TargetInSnap(s, b); }
    }
  }

  /** While nobody leaves the job, the target of a broadcast is the one its snapshot names. */
  lemma TargetInSnap(s: State, b: nat)
    requires WellFormed(s) && b < |s.casts| && SnapOk(s, b) && FlightOk(s, b)
    requires Unfinished(s.casts[b]) && !s.casts[b].disturbed
    ensures |s.casts[b].snap| == s.casts[b].view.len && Target(s, b) == s.casts[b].snap[s.casts[b].next]
  {
    assert Items(s, s.casts[b].view)[s.casts[b].next] == s.casts[b].snap[s.casts[b].next];
  }

  /** An undisturbed broadcast sends to the channel its snapshot names, and that channel is open. */
  lemma UndisturbedTarget(s: State, b: nat)
    requires Inv(s) && b < |s.casts| && Unfinished(s.casts[b]) && !s.casts[b].disturbed
    ensures |s.casts[b].snap| == s.casts[b].view.len
    ensures Target(s, b) == s.casts[b].snap[s.casts[b].next]
    ensures !s.chans[Target(s, b)].closed
  {
    assert SnapOk(s, b) && FlightOk(s, b);
    TargetInSnap(s, b);
  }

  lemma SnapDistinct(s: State, b: nat)
    requires Inv(s) && b < |s.casts|
    ensures Distinct(s.casts[b].snap)
  {
    assert SnapOk(s, b);
  }

  /** Broadcasts that stay as they are. */
  lemma OthersMove(s: State, r: State, b: nat)
    requires WellFormed(s) && b < |s.casts| == |r.casts| && CastMoves(s, r, b)
    requires r.casts == s.casts[b := r.casts[b]]
    ensures forall x :: 0 <= x < |s.casts| ==> CastMoves(s, r, x)
  {}

  lemma LoadKeepsInv(s: State, b: nat)
    requires Inv(s) && MayLoad(s, b)
    ensures Inv(DoLoad(s, b))
  {
    assert WellFormed(s);
    var r, c := DoLoad(s, b), Target(s, b);
    OthersMove(s, r, b);
    hide Inv, WellFormed, Target;
    QueueChangeKeepsInv(s, r, c);
  }

  lemma OfferKeepsInv(s: State, b: nat)
    requires Inv(s) && s.fault == NoFault && MaySend(s, b) && !s.chans[Target(s, b)].closed
    ensures Inv(DoSend(s, b))
  {
    assert WellFormed(s) && Unfinished(s.casts[b]);
    var r, c := DoSend(s, b), Target(s, b);
    OthersMove(s, r, b);
    hide Inv, WellFormed, Target;
    QueueChangeKeepsInv(s, r, c);
  }

  lemma SendKeepsInv(s: State, b: nat)
    requires Inv(s) && s.fault == NoFault && MaySend(s, b)
    ensures Inv(DoSend(s, b))
  {
    assert WellFormed(s) && Unfinished(s.casts[b]);
    if s.chans[Target(s, b)].closed {
      if !s.casts[b].disturbed { UndisturbedTarget(s, b); }
      OthersMove(s, DoSend(s, b), b);
      hide Inv, WellFormed, Target;
      QueueChangeKeepsInv(s, DoSend(s, b), Target(s, b));
    } else {
      OfferKeepsInv(s, b);
    }
  }

  lemma StepKeepsInv(s: State, e: Event)
    requires Inv(s)
    ensures Inv(Step(s, e))
  {
    if s.fault == NoFault {
      match e
      case Subscribe(job, room) => SubscribeKeepsInv(s, job, room);
      case Unsubscribe(ch) => if ch < |s.chans| { UnsubscribeKeepsInv(s, ch); }
      case Snapshot(job, text) => SnapshotKeepsInv(s, job, text);
      case Load(b) => if MayLoad(s, b) { LoadKeepsInv(s, b); }
      case Send(b) => if MaySend(s, b) { SendKeepsInv(s, b); }
      case Receive(ch) =>
        if ch < |s.chans| && s.chans[ch].queue != [] { QueueChangeKeepsInv(s, DoReceive(s, ch), ch); }
    }
  }

  lemma {:induction false} ExecInv(es: seq<Event>)
    ensures Inv(Exec(es))
  {
    if es != [] {
      ExecInv(es[..|es| - 1]);
      StepKeepsInv(Exec(es[..|es| - 1]), es[|es| - 1]);
    }
  }

  // ---------------------------------------------------------------- effect of one step

  /** The event closes channel `c` in state `s`. */
  ghost predicate Closes(s: State, e: Event, c: nat)
    requires WellFormed(s)
  {
    s.fault == NoFault && e == Unsubscribe(c) && c < |s.chans| && Found(s, c)
  }

  /** The event removes a subscriber of broadcast `b`'s job while `b` has sends left. */
  ghost predicate Disturbs(s: State, e: Event, b: nat)
    requires WellFormed(s)
  {
    && b < |s.casts| && Unfinished(s.casts[b])
    && e.Unsubscribe? && Closes(s, e, e.ch) && s.chans[e.ch].job == s.casts[b].job
  }

  lemma StepOnChan(s: State, e: Event, c: nat)
    requires WellFormed(s) && c < |s.chans|
    ensures var r := Step(s, e);
      && c < |r.chans| && r.chans[c].job == s.chans[c].job && r.chans[c].since == s.chans[c].since
      && (r.chans[c].closed <==> s.chans[c].closed || Closes(s, e, c))
  {
    hide Items, ShiftLeft, Position, Found, Disturb, WellFormed, Target;
  }

  lemma StepOnCast(s: State, e: Event, b: nat)
    requires WellFormed(s) && b < |s.casts|
    ensures var r := Step(s, e);
      && b < |r.casts| && r.casts[b].job == s.casts[b].job && r.casts[b].snap == s.casts[b].snap
      && r.casts[b].view == s.casts[b].view && r.casts[b].text == s.casts[b].text
      && r.casts[b].alone == s.casts[b].alone
      && s.casts[b].next <= r.casts[b].next
      && (r.casts[b].disturbed <==> s.casts[b].disturbed || Disturbs(s, e, b))
  {
    hide Items, ShiftLeft, Position, Found, Offer, WellFormed, Target;
  }

  lemma StepGrows(s: State, e: Event)
    requires WellFormed(s)
    ensures var r := Step(s, e);
      && |s.chans| <= |r.chans| <= |s.chans| + 1 && |s.casts| <= |r.casts| <= |s.casts| + 1
      && (|r.chans| > |s.chans| ==> !r.chans[|s.chans|].closed)
      && (|r.casts| > |s.casts| ==> !r.casts[|s.casts|].disturbed)
      && (s.fault != NoFault ==> r == s)
  {
    hide Items, ShiftLeft, Position, Found, WellFormed, Target;
  }

  // ---------------------------------------------------------------- channel lifecycle

  /** In every run: a job's list holds exactly its open channels, each once; a send never
      meets a closed channel unless somebody left the job during that broadcast; `close`
      is never called twice on a channel. */
  lemma ChannelLifecycle(es: seq<Event>)
    ensures var s := Exec(es);
      && (forall j :: j in s.subs ==>
            var list := Items(s, s.subs[j]);
            && (forall i, k :: 0 <= i < k < |list| ==> list[i] != list[k])
            && (forall c :: 0 <= c < |s.chans| ==> (c in list <==> s.chans[c].job == j && !s.chans[c].closed)))
      && (forall c :: 0 <= c < |s.chans| && !s.chans[c].closed ==> s.chans[c].job in s.subs)
      && !s.fault.CloseOfClosed?
      && (s.fault.SendOnClosed? ==> s.fault.cast < |s.casts| && s.casts[s.fault.cast].disturbed)
  {
    ExecInv(es);
    var s := Exec(es);
    forall j, c | j in s.subs && 0 <= c < |s.chans|
      ensures c in Items(s, s.subs[j]) <==> s.chans[c].job == j && !s.chans[c].closed
    {
      assert ListOk(s, j) && Enrolled(s, c);
    }
    forall j | j in s.subs
      ensures forall i, k :: 0 <= i < k < s.subs[j].len ==> Items(s, s.subs[j])[i] != Items(s, s.subs[j])[k]
    {
      assert ListOk(s, j);
    }
    forall c | 0 <= c < |s.chans| && !s.chans[c].closed ensures s.chans[c].job in s.subs { assert Enrolled(s, c); }
  }

  /** How many times a run executes `close` on channel `c`. */
  ghost function Closings(es: seq<Event>, c: nat): nat {
    if es == [] then 0
    else Closings(es[..|es| - 1], c) + if Closes(Exec(es[..|es| - 1]), es[|es| - 1], c) then 1 else 0
  }

  /** A channel is closed at most once in a run, and once exactly when it is closed at the end. */
  lemma {:induction false} ClosedAtMostOnce(es: seq<Event>, c: nat)
    ensures var s := Exec(es);
      Closings(es, c) == if c < |s.chans| && s.chans[c].closed then 1 else 0
  {
    if es != [] {
      var init, e := es[..|es| - 1], es[|es| - 1];
      var s := Exec(init);
      ClosedAtMostOnce(init, c);
      assert Exec(es) == Step(s, e);
      assert Closings(es, c) == Closings(init, c) + if Closes(s, e, c) then 1 else 0;
      hide Exec, Step, WellFormed, Closings, Found;
      StepGrows(s, e);
      if c < |s.chans| {
        StepOnChan(s, e, c);
        OpenIffFound(init, c);
      }
    }
  }

  lemma OpenIffFound(es: seq<Event>, c: nat)
    requires c < |Exec(es).chans|
    ensures Found(Exec(es), c) <==> !Exec(es).chans[c].closed
  {
    ExecInv(es);
    FoundIsOpen(Exec(es), c);
  }

  /** Calling `unsubscribe` again changes nothing, whatever happened in between. */
  lemma UnsubscribeAgain(es: seq<Event>, ch: nat, more: seq<Event>)
    requires ch < |Exec(es).chans|
    ensures var later := Exec(es + [Unsubscribe(ch)] + more);
      Step(later, Unsubscribe(ch)) == later
  {
    var s, all := Exec(es), es + [Unsubscribe(ch)] + more;
    assert es + [Unsubscribe(ch)] == (es + [Unsubscribe(ch)])[..|es|] + [Unsubscribe(ch)];
    assert (es + [Unsubscribe(ch)])[..|es|] == es;
    StepOnChan(s, Unsubscribe(ch), ch);
    StepGrows(s, Unsubscribe(ch));
    OpenIffFound(es, ch);
    LaterStates(es + [Unsubscribe(ch)], ch, more);
    if ch < |Exec(all).chans| { OpenIffFound(all, ch); }
  }

  lemma FaultStays(s: State, e: Event)
    requires WellFormed(s) && s.fault != NoFault
    ensures Step(s, e) == s
  {}

  /** Closed channels stay closed, and a run that panicked has stopped. */
  lemma {:induction false} LaterStates(es: seq<Event>, c: nat, more: seq<Event>)
    requires c < |Exec(es).chans|
    ensures var s, t := Exec(es), Exec(es + more);
      c < |t.chans| && (s.chans[c].closed ==> t.chans[c].closed) && (s.fault != NoFault ==> t == s)
  {
    if more == [] {
      assert es + more == es;
    } else {
      var init, e := more[..|more| - 1], more[|more| - 1];
      assert es + more == (es + init) + [e];
      var t := Exec(es + init);
      hide Step, Exec, WellFormed, Closes;
      ExecSnoc(es + init, e);
      LaterStates(es, c, init);
      if t.fault != NoFault { FaultStays(t, e); }
      StepOnChan(t, e, c);
      StepGrows(t, e);
    }
  }

  // ---------------------------------------------------------------- what "disturbed" means

  /** Event `k` of the run removes a subscriber of broadcast `b`'s job while `b` has sends left. */
  ghost predicate DisturbsAt(es: seq<Event>, k: nat, b: nat)
    requires k < |es|
  {
    Disturbs(Exec(es[..k]), es[k], b)
  }

  /** The flag is set exactly when an effective `unsubscribe` of the job lies between the
      snapshot of the broadcast and its last send. */
  lemma {:induction false} DisturbedIff(es: seq<Event>, b: nat)
    requires b < |Exec(es).casts|
    ensures Exec(es).casts[b].disturbed <==> exists k :: 0 <= k < |es| && DisturbsAt(es, k, b)
  {
    var last := |es| - 1;
    var init := es[..last];
    if b < |Exec(init).casts| {
      hide Exec, DisturbsAt;
      DisturbedIff(init, b);
      DisturbedStep(es, b);
      DisturbedSplit(es, b);
    } else {
      assert Exec(es) == Step(Exec(init), es[last]);
      assert DisturbsAt(es, last, b) <==> Disturbs(Exec(init), es[last], b);
      hide Exec, Step, DisturbsAt, Disturbs;
      NewUndisturbed(Exec(init), es[last], b);
      forall k | 0 <= k < last ensures !DisturbsAt(init, k, b) { NotYetDisturbed(init, k, b); }
      DisturbedSplit(es, b);
    }
  }

  /** A broadcast that the event issues has not been disturbed. */
  lemma NewUndisturbed(s: State, e: Event, b: nat)
    requires WellFormed(s) && |s.casts| <= b < |Step(s, e).casts|
    ensures !Step(s, e).casts[b].disturbed && !Disturbs(s, e, b)
  {
    StepGrows(s, e);
  }

  lemma NotYetDisturbed(es: seq<Event>, k: nat, b: nat)
    requires k < |es| && |Exec(es).casts| <= b
    ensures !DisturbsAt(es, k, b)
  {
    hide Exec, Closes, WellFormed;
    CastsGrow(es, k);
  }

  lemma DisturbedStep(es: seq<Event>, b: nat)
    requires es != [] && b < |Exec(es[..|es| - 1]).casts|
    ensures b < |Exec(es).casts|
    ensures Exec(es).casts[b].disturbed <==>
      Exec(es[..|es| - 1]).casts[b].disturbed || DisturbsAt(es, |es| - 1, b)
  {
    hide Step;
    StepOnCast(Exec(es[..|es| - 1]), es[|es| - 1], b);
  }

  lemma DisturbedSplit(es: seq<Event>, b: nat)
    requires es != []
    ensures var last := |es| - 1;
      (exists k :: 0 <= k < |es| && DisturbsAt(es, k, b)) <==>
        DisturbsAt(es, last, b) || exists k :: 0 <= k < last && DisturbsAt(es[..last], k, b)
  {
    var last := |es| - 1;
    forall k | 0 <= k < last ensures DisturbsAt(es, k, b) <==> DisturbsAt(es[..last], k, b) {
      assert es[..k] == es[..last][..k];
    }
    if k :| 0 <= k < |es| && DisturbsAt(es, k, b) {
      assert k == last || DisturbsAt(es[..last], k, b);
    }
    if k :| 0 <= k < last && DisturbsAt(es[..last], k, b) { assert DisturbsAt(es, k, b); }
  }

  lemma {:induction false} CastsGrow(es: seq<Event>, k: nat)
    requires k <= |es|
    ensures |Exec(es[..k]).casts| <= |Exec(es).casts|
  {
    if k == |es| {
      assert es[..k] == es;
    } else {
      CastsGrow(es[..|es| - 1], k);
      StepGrows(Exec(es[..|es| - 1]), es[|es| - 1]);
      assert es[..|es| - 1][..k] == es[..k];
    }
  }

  /** A run in which nobody leaves a job between a snapshot and the last send of a
      broadcast to that job never panics. */
  lemma DisciplinedRunsNeverPanic(es: seq<Event>)
    requires forall k, b :: 0 <= k < |es| && 0 <= b < |Exec(es).casts| ==> !DisturbsAt(es, k, b)
    ensures Exec(es).fault == NoFault
  {
    ExecInv(es);
    var s := Exec(es);
    if s.fault.SendOnClosed? { DisturbedIff(es, s.fault.cast); }
  }
}
