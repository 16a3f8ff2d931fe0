/** The fan-out part of the `Engine` object: the subscriber map, its slices over shared
    backing arrays, and the channels.  Each method is one atomic step of `Fanout`, except
    `BroadcastLog`, which is a whole call that nothing interrupts. */
module LogEngine {
  import opened Values
  import opened Fanout
  import opened FanoutSafety
  import opened FanoutDelivery
  import opened FanoutLeaving

  class Engine {
    var subscribers: map<int, Slice>
    /** Every backing array allocated so far, with the job it was allocated for. */
    var backing: seq<array<nat>>
    var owner: seq<int>
    var chans: seq<Chan>
    /** The broadcast calls so far; those with sends left are the goroutines under way. */
    var casts: seq<Cast>
    var fault: Fault

    ghost function View(): State
      reads this, backing
      requires |owner| == |backing|
    {
      State(chans,
            seq(|backing|, i requires 0 <= i < |backing| && |owner| == |backing| reads this, backing =>
              Backing(owner[i], backing[i][..])),
            subscribers, casts, fault)
    }

    ghost predicate Valid()
      reads this, backing
    {
      && |owner| == |backing|
      && (forall i, k :: 0 <= i < k < |backing| ==> backing[i] != backing[k])
      && WellFormed(View())
    }

    constructor ()
      ensures Valid() && View() == INIT && fresh(backing)
    {
      subscribers, backing, owner, chans, casts, fault := map[], [], [], [], [], NoFault;
    }

    /** `append` when the array has room: the element is written behind the slice. */
    method AppendInPlace(v: Slice, ch: nat)
      requires Valid() && v.arr < |backing| && v.len < backing[v.arr].Length
      modifies backing[v.arr]
      ensures |owner| == |backing|
      ensures View() == old(View()).(
        arrays := old(View()).arrays[v.arr := Backing(owner[v.arr], old(backing[v.arr][..])[v.len := ch])])
    {
      ghost var before := View();
      backing[v.arr][v.len] := ch;
      assert View().arrays == before.arrays[v.arr := Backing(owner[v.arr], old(backing[v.arr][..])[v.len := ch])];
    }

    /** `append` when it has to allocate: the elements are copied to a larger array. */
    method AppendGrowing(v: Slice, job: int, ch: nat, room: nat)
      requires Valid() && InRange(View(), v)
      modifies this`backing, this`owner
      ensures |owner| == |backing| && |backing| == |old(backing)| + 1
      ensures backing[..|old(backing)|] == old(backing) && fresh(backing[|old(backing)|])
      ensures View() == old(View()).(
        arrays := old(View()).arrays + [Backing(job, Items(old(View()), v) + [ch] + seq(room, _ => 0))])
    {
      ghost var before := View();
      var prefix := if v.len == 0 then [] else backing[v.arr][..v.len];
      var grown := new nat[v.len + 1 + room](i requires 0 <= i =>
        if i < v.len then prefix[i] else if i == v.len then ch else 0);
      backing, owner := backing + [grown], owner + [job];
      assert grown[..] == Items(before, v) + [ch] + seq(room, _ => 0);
      assert View().arrays == before.arrays + [Backing(job, grown[..])];
    }

    /** `SubscribeLogs`. */
    method SubscribeLogs(job: int, room: nat) returns (ch: nat)
      requires Valid() && fault == NoFault
      modifies this, backing
      ensures Valid() && fresh(set a | a in backing && a !in old(backing))
      ensures View() == Step(old(View()), Subscribe(job, room))
      ensures ch == |old(chans)| && ch < |chans|
    {
      ghost var before := View();
      ch := |chans|;
      Enroll(job, ch, room);
      chans := chans + [Chan(job, [], false, |casts|, 0, [], [], [])];
      hide Append, WellFormed, Items;
      assert View() == DoSubscribe(before, job, room);
    }

    /** The list of the job grows by one. */
    method Enroll(job: int, ch: nat, room: nat)
      requires Valid()
      modifies this`subscribers, this`backing, this`owner, backing
      ensures |owner| == |backing| && (forall i, k :: 0 <= i < k < |backing| ==> backing[i] != backing[k])
      ensures fresh(set a | a in backing && a !in old(backing))
      ensures View() == Append(old(View()), job, ch, room)
    {
      var v := if job in subscribers then subscribers[job] else Slice(0, 0);
      if job in subscribers && v.len < backing[v.arr].Length {
        AppendInPlace(v, ch);
        subscribers := subscribers[job := Slice(v.arr, v.len + 1)];
      } else {
        AppendGrowing(v, job, ch, room);
        subscribers := subscribers[job := Slice(|backing| - 1, v.len + 1)];
      }
    }

    /** Replaces the contents of one backing array by what `ShiftDown` leaves. */
    method RemoveFrom(v: Slice, i: nat)
      requires Valid() && v.arr < |backing| && i < v.len <= backing[v.arr].Length
      modifies backing[v.arr]
      ensures |owner| == |backing|
      ensures View() == old(View()).(arrays :=
        old(View()).arrays[v.arr := Backing(owner[v.arr], ShiftLeft(old(backing[v.arr][..]), i, v.len))])
    {
      ghost var before := View();
      ShiftDown(backing[v.arr], i, v.len);
      assert View().arrays ==
        before.arrays[v.arr := Backing(owner[v.arr], ShiftLeft(old(backing[v.arr][..]), i, v.len))];
    }

    /** `delete` of the found element: the list shrinks and the channel is closed. */
    method Leave(ch: nat, v: Slice, i: nat)
      requires Valid() && fault == NoFault && ch < |chans| && chans[ch].job in subscribers
      requires v == subscribers[chans[ch].job] && i == Position(View(), ch) < v.len
      modifies this`subscribers, this`casts, this`chans, this`fault, backing[v.arr]
      ensures |owner| == |backing| && View() == DoUnsubscribe(old(View()), ch)
    {
      ghost var before := View();
      UnsubscribeIs(before, ch);
      hide *;
      var job := chans[ch].job;
      RemoveFrom(v, i);
      subscribers := subscribers[job := Slice(v.arr, v.len - 1)];
      casts := Disturb(casts, job);
      if chans[ch].closed {
        fault := CloseOfClosed(ch);
      } else {
        chans := chans[ch := chans[ch].(closed := true, until := |casts|)];
      }
    }

    /** `unsubscribe`: finds the channel, shifts the rest of the backing array over it and
        closes it. */
    method Unsubscribe(ch: nat)
      requires Valid() && fault == NoFault && ch < |chans|
      modifies this, backing
      ensures Valid() && backing == old(backing)
      ensures View() == Step(old(View()), Fanout.Unsubscribe(ch))
    {
      ghost var before := View();
      var job := chans[ch].job;
      if job in subscribers {
        var v := subscribers[job];
        var i := FindFirst(backing[v.arr], v.len, ch);
        assert i == Position(before, ch) by { assert Items(before, v) == backing[v.arr][..v.len]; }
        UnsubscribeStep(before, ch);
        hide Step, DoUnsubscribe, Position, Items, IndexOf;
        if i < v.len { Leave(ch, v, i); }
      }
    }

    /** The part of `broadcastLog` under the read lock: the slice header is copied. */
    method TakeSnapshot(job: int, text: string) returns (b: nat)
      requires Valid() && fault == NoFault
      modifies this
      ensures Valid() && backing == old(backing)
      ensures View() == Step(old(View()), Snapshot(job, text))
      ensures b == |old(casts)| && b < |casts|
    {
      ghost var before := View();
      var v := if job in subscribers then subscribers[job] else Slice(0, 0);
      var items := if v.len == 0 then [] else backing[v.arr][..v.len];
      var alone := forall k :: 0 <= k < |casts| && casts[k].job == job ==> !Unfinished(casts[k]);
      b := |casts|;
      casts := casts + [Cast(job, text, v, 0, None, items, alone, false)];
      assert View().arrays == before.arrays;
      assert View() == DoSnapshot(before, job, text);
    }

    /** `range` reads the next element from the shared array. */
    method LoadNext(b: nat)
      requires Valid() && fault == NoFault && MayLoad(View(), b)
      modifies this
      ensures Valid() && backing == old(backing) && |casts| == |old(casts)|
      ensures View() == Step(old(View()), Load(b))
    {
      ghost var before := View();
      var c := backing[casts[b].view.arr][casts[b].next];
      assert c == Target(before, b);
      casts := casts[b := casts[b].(held := Some(c))];
      assert View().arrays == before.arrays;
      assert View() == DoLoad(before, b);
    }

    /** The `select` sends to the element that was read, or drops the message. */
    method SendHeld(b: nat)
      requires Valid() && fault == NoFault && MaySend(View(), b)
      modifies this
      ensures Valid() && backing == old(backing) && |casts| == |old(casts)|
      ensures View() == Step(old(View()), Send(b))
    {
      ghost var before := View();
      var c := casts[b].held.value;
      if chans[c].closed {
        fault := SendOnClosed(b, c);
      } else {
        chans := chans[c := Offer(chans[c], Packet(b, casts[b].text))];
        casts := casts[b := casts[b].(next := casts[b].next + 1, held := None)];
      }
      assert View().arrays == before.arrays;
      assert View() == DoSend(before, b);
    }

    /** `msg, ok := <-sub` when a message is waiting. */
    method ReceiveFrom(ch: nat) returns (msg: Option<Packet>)
      requires Valid() && fault == NoFault && ch < |chans|
      modifies this
      ensures Valid() && backing == old(backing)
      ensures View() == Step(old(View()), Receive(ch))
      ensures msg == if old(chans[ch].queue) == [] then None else Some(old(chans[ch].queue[0]))
    {
      ghost var before := View();
      var c := chans[ch];
      msg := None;
      if c.queue != [] {
        msg := Some(c.queue[0]);
        chans := chans[ch := c.(queue := c.queue[1..], received := c.received + [c.queue[0]])];
      }
      assert View().arrays == before.arrays;
      assert View() == DoReceive(before, ch);
    }

    /** A call of `broadcastLog` during which no other goroutine takes a step. */
    method BroadcastLog(job: int, text: string)
      requires Valid() && fault == NoFault
      modifies this
      ensures Valid() && backing == old(backing)
      ensures View() == Broadcast(old(View()), job, text)
    {
      var b := TakeSnapshot(job, text);
      ghost var goal := Drain(View(), b);
      while fault == NoFault && Unfinished(casts[b])
        invariant Valid() && backing == old(backing) && b < |casts|
        invariant Drain(View(), b) == goal
        decreases fault == NoFault, casts[b].view.len - First(casts[b]), casts[b].view.len - casts[b].next
      {
        ghost var s := View();
        DrainStep(s, b);
        if casts[b].held.None? { LoadNext(b); } else { SendHeld(b); }
      }
      DrainEnd(View(), b);
    }
  }

  lemma UnsubscribeStep(s: State, ch: nat)
    requires WellFormed(s) && s.fault == NoFault && ch < |s.chans|
    ensures Step(s, Fanout.Unsubscribe(ch)) == if Found(s, ch) then DoUnsubscribe(s, ch) else s
  {}

  /** The parts of an effective `unsubscribe`. */
  lemma UnsubscribeIs(s: State, ch: nat)
    requires WellFormed(s) && ch < |s.chans| && Found(s, ch)
    ensures var job := s.chans[ch].job;
      var v, i := Lookup(s, job), Position(s, ch);
      var cells := ShiftLeft(s.arrays[v.arr].cells, i, v.len);
      var s1 := s.(arrays := s.arrays[v.arr := Backing(s.arrays[v.arr].job, cells)],
                   subs := s.subs[job := Slice(v.arr, v.len - 1)], casts := Disturb(s.casts, job));
      DoUnsubscribe(s, ch) ==
        if s.chans[ch].closed then s1.(fault := CloseOfClosed(ch))
        else s1.(chans := s.chans[ch := s.chans[ch].(closed := true, until := |s.casts|)])
  {}

  /** A whole call of `broadcastLog` that nothing interrupts. */
  ghost function Broadcast(s: State, job: int, text: string): (r: State)
    requires WellFormed(s)
    ensures WellFormed(r)
  {
    if s.fault != NoFault then s else Drain(DoSnapshot(s, job, text), |s.casts|)
  }

  /** The search loop of `unsubscribe`. */
  method FindFirst(a: array<nat>, n: nat, ch: nat) returns (i: nat)
    requires n <= a.Length
    ensures i == IndexOf(a[..n], ch)
  {
    i := 0;
    while i < n && a[i] != ch
      invariant i <= n
      invariant ch !in a[..i]
    {
      i := i + 1;
    }
    FirstIndexIs(a[..n], ch, i);
  }

  lemma FirstIndexIs(list: seq<nat>, ch: nat, i: nat)
    requires i <= |list| && ch !in list[..i] && (i < |list| ==> list[i] == ch)
    ensures IndexOf(list, ch) == i
  {}

  /** `append(subs[:i], subs[i+1:]...)` on the array itself. */
  method ShiftDown(a: array<nat>, i: nat, n: nat)
    requires i < n <= a.Length
    modifies a
    ensures a[..] == ShiftLeft(old(a[..]), i, n)
  {
    var k := i;
    while k + 1 < n
      invariant i <= k < n
      invariant forall p :: 0 <= p < a.Length ==> a[p] == if i <= p < k then old(a[p + 1]) else old(a[p])
    {
      a[k] := a[k + 1];
      k := k + 1;
    }
  }

  /** The texts of packets. */
  ghost function Texts(ps: seq<Packet>): (r: seq<string>)
    ensures |r| == |ps| && forall i :: 0 <= i < |r| ==> r[i] == ps[i].text
  {
    seq(|ps|, i requires 0 <= i < |ps| => ps[i].text)
  }

  /** From `s` to `r` channel `c` has been offered the messages `texts` if it is an open
      channel of the job, and nothing otherwise. */
  ghost predicate Reaches(s: State, r: State, job: int, texts: seq<string>, c: nat) {
    && c < |s.chans| && c < |r.chans|
    && r.chans[c].job == s.chans[c].job && r.chans[c].closed == s.chans[c].closed
    && Texts(r.chans[c].offered) == Texts(s.chans[c].offered) +
         if s.chans[c].job == job && !s.chans[c].closed then texts else []
  }

  lemma ReachesItself(s: State, job: int, c: nat)
    requires c < |s.chans|
    ensures Reaches(s, s, job, [], c)
  {}

  lemma ReachesCompose(s: State, t: State, r: State, job: int, a: seq<string>, b: seq<string>, c: nat)
    requires Reaches(s, t, job, a, c) && Reaches(t, r, job, b, c)
    ensures Reaches(s, r, job, a + b, c)
  {}

  /** A broadcast that nothing interrupts offers its message once to every open channel of
      the job and to nobody else. */
  lemma UninterruptedBroadcast(s: State, job: int, text: string, c: nat)
    requires Ledger(s) && s.fault == NoFault && c < |s.chans|
    ensures Reaches(s, Broadcast(s, job, text), job, [text], c)
  {
    var t, b := DoSnapshot(s, job, text), |s.casts|;
    assert t == Step(s, Snapshot(job, text)) && Broadcast(s, job, text) == Drain(t, b);
    SnapshotTargets(s, job, text, c);
    hide Step, Drain, Broadcast, DoSnapshot, Ledger, Rest;
    StepKeepsLedger(s, Snapshot(job, text));
    DrainOffers(t, b, c);
    TextsSnoc(s.chans[c].offered, Packet(b, text));
  }

  lemma TextsSnoc(ps: seq<Packet>, p: Packet)
    ensures Texts(ps + [p]) == Texts(ps) + [p.text]
  {}

  lemma SnapshotTargets(s: State, job: int, text: string, c: nat)
    requires Ledger(s) && s.fault == NoFault && c < |s.chans|
    ensures var t, b := DoSnapshot(s, job, text), |s.casts|;
      && t.chans == s.chans && |t.casts| == b + 1 && !t.casts[b].disturbed && PacketOf(t, b) == Packet(b, text)
      && (c in Rest(t, b) <==> s.chans[c].job == job && !s.chans[c].closed)
  {
    var t, b := DoSnapshot(s, job, text), |s.casts|;
    assert Rest(t, b) == Items(s, Lookup(s, job));
    assert Enrolled(s, c);
    if job in s.subs { assert ListOk(s, job); }
  }

  lemma BroadcastKeepsLedger(s: State, job: int, text: string)
    requires Ledger(s) && s.fault == NoFault
    ensures Ledger(Broadcast(s, job, text)) && Broadcast(s, job, text).fault == NoFault
    ensures |Broadcast(s, job, text).chans| == |s.chans|
  {
    var t := DoSnapshot(s, job, text);
    assert t == Step(s, Snapshot(job, text));
    StepKeepsLedger(s, Snapshot(job, text));
    DrainKeepsLedger(t, |s.casts|);
  }

  /** One turn of the loop of an undisturbed broadcast. */
  lemma TurnIs(t: State, b: nat)
    requires Ledger(t) && t.fault == NoFault && b < |t.casts| && !t.casts[b].disturbed && Unfinished(t.casts[b])
    ensures var k, r := t.casts[b], Step(t, Turn(t.casts[b], b));
      && Ledger(r) && r.fault == NoFault && |r.chans| == |t.chans| && b < |r.casts|
      && r.casts[b] == (if k.held.None? then k.(held := Some(Target(t, b))) else k.(next := k.next + 1, held := None))
      && (k.held.None? ==> r.chans == t.chans)
      && (k.held.Some? ==> r.chans == t.chans[Target(t, b) := Offer(t.chans[Target(t, b)], PacketOf(t, b))])
  {
    assert Inv(t) && WellFormed(t);
    hide Step, Inv, Ledger, WellFormed, Target;
    UndisturbedTarget(t, b);
    StepKeepsLedger(t, Turn(t.casts[b], b));
    if t.casts[b].held.None? { LoadIs(t, b); } else { SendIs(t, b); }
  }

  lemma {:induction false} DrainKeepsLedger(t: State, b: nat)
    requires Ledger(t) && t.fault == NoFault && b < |t.casts| && !t.casts[b].disturbed
    ensures Ledger(Drain(t, b)) && Drain(t, b).fault == NoFault && |Drain(t, b).chans| == |t.chans|
    decreases t.casts[b].view.len - First(t.casts[b]), t.casts[b].view.len - t.casts[b].next
  {
    assert WellFormed(t);
    hide Step, Ledger, Drain, WellFormed;
    if Unfinished(t.casts[b]) {
      TurnIs(t, b);
      DrainStep(t, b);
      DrainKeepsLedger(Step(t, Turn(t.casts[b], b)), b);
    } else {
      DrainEnd(t, b);
    }
  }

  /** What the rest of an undisturbed broadcast offers to `c` when nothing interrupts it. */
  lemma {:induction false} DrainOffers(t: State, b: nat, c: nat)
    requires Ledger(t) && t.fault == NoFault && b < |t.casts| && c < |t.chans| && !t.casts[b].disturbed
    ensures var r := Drain(t, b);
      && r.fault == NoFault && |r.chans| == |t.chans|
      && r.chans[c].job == t.chans[c].job && r.chans[c].closed == t.chans[c].closed
      && r.chans[c].offered == t.chans[c].offered + if c in Rest(t, b) then [PacketOf(t, b)] else []
    decreases t.casts[b].view.len - First(t.casts[b]), t.casts[b].view.len - t.casts[b].next
  {
    assert WellFormed(t);
    if Unfinished(t.casts[b]) {
      hide Step, Ledger, Drain, WellFormed, Rest, Target;
      TurnIs(t, b);
      DrainStep(t, b);
      NextRest(t, b, c);
      DrainOffers(Step(t, Turn(t.casts[b], b)), b, c);
    } else {
      DrainEnd(t, b);
    }
  }

  /** From `t` to `r` the loop of broadcast `b` has taken `c` from its remaining targets, and
      then has offered it the message, or has left both as they were. */
  ghost predicate Passes(t: State, r: State, b: nat, c: nat)
    requires WellFormed(t) && WellFormed(r) && b < |t.casts| && b < |r.casts| && c < |t.chans| == |r.chans|
  {
    && r.chans[c].job == t.chans[c].job && r.chans[c].closed == t.chans[c].closed && PacketOf(r, b) == PacketOf(t, b)
    && (c in Rest(r, b) ==> c in Rest(t, b) && r.chans[c].offered == t.chans[c].offered)
    && (c !in Rest(r, b) ==>
          r.chans[c].offered == t.chans[c].offered + if c in Rest(t, b) then [PacketOf(t, b)] else [])
  }

  lemma LoadPasses(t: State, r: State, b: nat, c: nat)
    requires WellFormed(t) && WellFormed(r) && b < |t.casts| && b < |r.casts| && c < |t.chans|
    requires r.chans == t.chans && r.casts[b].text == t.casts[b].text && Rest(r, b) == Rest(t, b)
    ensures Passes(t, r, b, c)
  {
    hide Rest, WellFormed;
  }

  lemma SendPasses(t: State, r: State, b: nat, d: nat, c: nat)
    requires WellFormed(t) && WellFormed(r) && b < |t.casts| && b < |r.casts| && c < |t.chans| && d < |t.chans|
    requires r.chans == t.chans[d := Offer(t.chans[d], PacketOf(t, b))] && r.casts[b].text == t.casts[b].text
    requires c in Rest(t, b) <==> c == d || c in Rest(r, b)
    requires d !in Rest(r, b)
    ensures Passes(t, r, b, c)
  {
    hide Rest, WellFormed;
  }

  /** The loop leaves its remaining targets as they are when it loads, and offers the message
      to the first of them when it sends. */
  lemma NextRest(t: State, b: nat, c: nat)
    requires Ledger(t) && t.fault == NoFault && b < |t.casts| && !t.casts[b].disturbed && Unfinished(t.casts[b])
    requires c < |t.chans|
    ensures var r := Step(t, Turn(t.casts[b], b));
      |r.chans| == |t.chans| && b < |r.casts| && Passes(t, r, b, c)
  {
    assert Inv(t) && WellFormed(t);
    var d, r := Target(t, b), Step(t, Turn(t.casts[b], b));
    assert t.casts[b].held.None? ==> Turn(t.casts[b], b) == Load(b);
    assert t.casts[b].held.Some? ==> Turn(t.casts[b], b) == Send(b);
    hide *;
    UndisturbedTarget(t, b);
    RestMoves(t, b);
    TurnIs(t, b);
    if t.casts[b].held.None? {
      LoadPasses(t, r, b, c);
    } else {
      DistinctRest(t, b);
      FirstLeaves(Rest(t, b), d, Rest(r, b), c);
      SendPasses(t, r, b, d, c);
    }
  }

  lemma FirstLeaves(before: seq<nat>, d: nat, after: seq<nat>, c: nat)
    requires before == [d] + after && d !in before[1..]
    ensures c in before <==> c == d || c in after
    ensures d !in after
  {
    assert before[1..] == after;
  }

  lemma DistinctRest(t: State, b: nat)
    requires Inv(t) && b < |t.casts| && !t.casts[b].disturbed && Unfinished(t.casts[b])
    ensures Rest(t, b) != [] && Rest(t, b)[0] == Target(t, b)
    ensures Rest(t, b)[0] !in Rest(t, b)[1..]
  {
    assert SnapOk(t, b) && FlightOk(t, b);
    var k := t.casts[b];
    assert Rest(t, b) == k.snap[k.next..];
  }
}
