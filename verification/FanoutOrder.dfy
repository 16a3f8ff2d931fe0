/** Which messages a subscriber is offered over a whole run, how many, and in which order. */
module FanoutOrder {
  import opened Fanout
  import opened FanoutSafety
  import opened FanoutDelivery

  /** Nobody left the job during any broadcast to it. */
  ghost predicate Undisturbed(s: State, job: int) {
    forall b :: 0 <= b < |s.casts| && s.casts[b].job == job ==> !s.casts[b].disturbed
  }

  /** No two broadcasts to the job overlapped. */
  ghost predicate Serial(s: State, job: int) {
    forall b :: 0 <= b < |s.casts| && s.casts[b].job == job ==> s.casts[b].alone
  }

  /** No broadcast to the job has sends left. */
  ghost predicate Quiescent(s: State, job: int) {
    forall b :: 0 <= b < |s.casts| && s.casts[b].job == job ==> !Unfinished(s.casts[b])
  }

  /** Broadcast `b` has passed channel `c` of its snapshot. */
  predicate Passed(s: State, b: nat, c: nat)
    requires b < |s.casts|
  {
    var k := s.casts[b];
    k.next <= |k.snap| && c in k.snap[..k.next]
  }

  /** The messages, in snapshot order, of those of the first `n` broadcasts that passed `c`. */
  function Reached(s: State, c: nat, n: nat): seq<Packet>
    requires n <= |s.casts|
  {
    if n == 0 then [] else Reached(s, c, n - 1) + if Passed(s, n - 1, c) then [PacketOf(s, n - 1)] else []
  }

  /** The messages, in order, broadcast to the job of `c` between its registration and its removal. */
  ghost function Window(s: State, c: nat, n: nat): seq<Packet>
    requires n <= |s.casts| && c < |s.chans|
  {
    if n == 0 then [] else Window(s, c, n - 1) + if Registered(s, c, n - 1) then [PacketOf(s, n - 1)] else []
  }

  /** Message numbers strictly increase: broadcast order, and no message twice. */
  ghost predicate InOrder(ps: seq<Packet>) {
    forall i, j :: 0 <= i < j < |ps| ==> ps[i].id < ps[j].id
  }

  // ---------------------------------------------------------------- which messages

  /** The packet is the message of one of the first `n` broadcasts, which passed `c`. */
  predicate Due(s: State, c: nat, n: nat, p: Packet)
    requires n <= |s.casts|
  {
    p.id < n && p == PacketOf(s, p.id) && Passed(s, p.id, c)
  }

  lemma DueSnoc(s: State, c: nat, n: nat, p: Packet)
    requires 0 < n <= |s.casts|
    ensures Due(s, c, n, p) <==> Due(s, c, n - 1, p) || (p == PacketOf(s, n - 1) && Passed(s, n - 1, c))
    ensures Due(s, c, n - 1, p) ==> p != PacketOf(s, n - 1)
  {
    hide Passed;
  }

  lemma {:induction false} ReachedCount(s: State, c: nat, n: nat, p: Packet)
    requires n <= |s.casts|
    ensures multiset(Reached(s, c, n))[p] == if Due(s, c, n, p) then 1 else 0
  {
    if n == 0 {
      assert Reached(s, c, n) == [] && !Due(s, c, n, p);
    } else {
      hide *;
      ReachedSnoc(s, c, n);
      DueSnoc(s, c, n, p);
      ReachedCount(s, c, n - 1, p);
      CountSnoc(Reached(s, c, n - 1), PacketOf(s, n - 1), p);
    }
  }

  lemma ReachedSnoc(s: State, c: nat, n: nat)
    requires 0 < n <= |s.casts|
    ensures Reached(s, c, n) ==
      if Passed(s, n - 1, c) then Reached(s, c, n - 1) + [PacketOf(s, n - 1)] else Reached(s, c, n - 1)
    ensures PacketOf(s, n - 1).id == n - 1
  {
    hide Passed;
  }

  lemma {:induction false} ReachedInOrder(s: State, c: nat, n: nat)
    requires n <= |s.casts|
    ensures InOrder(Reached(s, c, n)) && forall i :: 0 <= i < |Reached(s, c, n)| ==> Reached(s, c, n)[i].id < n
  {
    if n > 0 { ReachedInOrder(s, c, n - 1); }
  }

  lemma {:induction false} ReachedIsWindow(s: State, c: nat, n: nat)
    requires Inv(s) && n <= |s.casts| && c < |s.chans| && Quiescent(s, s.chans[c].job)
    ensures Reached(s, c, n) == Window(s, c, n)
  {
    if n > 0 {
      ReachedIsWindow(s, c, n - 1);
      var k := s.casts[n - 1];
      assert SnapOk(s, n - 1);
      assert c in k.snap <==> Registered(s, c, n - 1);
      if k.job == s.chans[c].job { assert k.snap[..k.next] == k.snap; }
      else if k.next <= |k.snap| { assert forall x :: x in k.snap[..k.next] ==> x in k.snap; }
    }
  }

  /** In every run: if nobody left the job of `c` during a broadcast to it, the messages
      offered to `c` are exactly those of the broadcasts that passed it, each once. */
  lemma OfferedExactly(es: seq<Event>, c: nat)
    requires c < |Exec(es).chans| && Undisturbed(Exec(es), Exec(es).chans[c].job)
    ensures var s := Exec(es); multiset(s.chans[c].offered) == multiset(Reached(s, c, |s.casts|))
  {
    ExecLedger(es);
    SameMessages(Exec(es), c);
  }

  lemma SameMessages(s: State, c: nat)
    requires Ledger(s) && c < |s.chans| && Undisturbed(s, s.chans[c].job)
    ensures multiset(s.chans[c].offered) == multiset(Reached(s, c, |s.casts|))
  {
    var offered := multiset(s.chans[c].offered);
    forall p: Packet ensures offered[p] == multiset(Reached(s, c, |s.casts|))[p] { CountOf(s, c, p); }
  }

  lemma CountOf(s: State, c: nat, p: Packet)
    requires Ledger(s) && c < |s.chans| && Undisturbed(s, s.chans[c].job)
    ensures multiset(s.chans[c].offered)[p] == multiset(Reached(s, c, |s.casts|))[p]
  {
    ReachedCount(s, c, |s.casts|, p);
    assert Books(s, c);
    if p.id < |s.casts| && p == PacketOf(s, p.id) {
      assert OfferedOnce(s, p.id, c) && SnapOk(s, p.id);
      var k := s.casts[p.id];
      if k.job != s.chans[c].job {
        assert !Genuine(s, s.chans[c].job, p);
        assert Passed(s, p.id, c) ==> c in k.snap;
      }
    } else {
      assert !Genuine(s, s.chans[c].job, p);
    }
  }

  /** In every run: once the broadcasts to the job are finished and none was disturbed, the
      delivered and the dropped messages of a subscriber together are as many as the
      broadcasts of its time, and are the same messages. */
  lemma DeliveredPlusDropped(es: seq<Event>, c: nat)
    requires c < |Exec(es).chans|
    requires var s := Exec(es); Undisturbed(s, s.chans[c].job) && Quiescent(s, s.chans[c].job)
    ensures var s, k := Exec(es), Exec(es).chans[c];
      && multiset(k.offered) == multiset(Window(s, c, |s.casts|))
      && |k.offered| == |Window(s, c, |s.casts|)|
      && k.accepted == k.received + k.queue && Subsequence(k.accepted, k.offered) && |k.queue| <= QUEUE_LIMIT
  {
    ExecLedger(es);
    var s := Exec(es);
    SameMessages(s, c);
    ReachedIsWindow(s, c, |s.casts|);
    assert Books(s, c);
    assert |multiset(s.chans[c].offered)| == |s.chans[c].offered|;
  }

  // ---------------------------------------------------------------- in which order

  /** Only the latest broadcast to a serial job can have sends left. */
  lemma LatestOnly(s: State, a: nat, b: nat)
    requires Ledger(s) && a < b < |s.casts| && s.casts[a].job == s.casts[b].job && Serial(s, s.casts[b].job)
    ensures !Unfinished(s.casts[a])
  {
    assert AfterOthers(s, b);
  }

  lemma StepKeepsOrder(s: State, e: Event, c: nat)
    requires Ledger(s) && c < |s.chans| && c < |Step(s, e).chans|
    requires Undisturbed(Step(s, e), s.chans[c].job) && Serial(Step(s, e), s.chans[c].job)
    requires InOrder(s.chans[c].offered)
    ensures InOrder(Step(s, e).chans[c].offered)
  {
    assert WellFormed(s);
    hide Step, WellFormed, Ledger, Undisturbed, Serial, InOrder;
    StepOnQueue(s, e, c);
    if Delivers(s, e, c) {
      var b := e.cast;
      HypothesesBackwards(s, e, s.chans[c].job);
      OfferedEarlier(s, e, c);
      OrderedSnoc(s.chans[c].offered, Step(s, e).chans[c].offered, PacketOf(s, b));
    }
  }

  lemma OrderedSnoc(ps: seq<Packet>, qs: seq<Packet>, p: Packet)
    requires InOrder(ps) && (forall q :: q in ps ==> q.id < p.id) && qs == ps + [p]
    ensures InOrder(qs) && forall q :: q in qs ==> q.id <= p.id
  {}

  /** A broadcast of a serial job delivers after all earlier ones and for the first time. */
  lemma OfferedEarlier(s: State, e: Event, c: nat)
    requires Ledger(s) && c < |s.chans| && Delivers(s, e, c)
    requires Undisturbed(s, s.chans[c].job) && Serial(s, s.chans[c].job)
    ensures forall p :: p in s.chans[c].offered ==> p.id < e.cast
  {
    var b := e.cast;
    assert WellFormed(s) && Unfinished(s.casts[b]) && Target(s, b) == c;
    TargetJob(s, b);
    assert !s.casts[b].disturbed;
    hide *;
    TargetJob(s, b);
    NotYetOffered(s, b, c);
    forall p | p in s.chans[c].offered ensures p.id < b { OneOfferedEarlier(s, b, c, p); }
  }

  lemma OneOfferedEarlier(s: State, b: nat, c: nat, p: Packet)
    requires Ledger(s) && c < |s.chans| && b < |s.casts| && Unfinished(s.casts[b]) && s.casts[b].job == s.chans[c].job
    requires Serial(s, s.chans[c].job) && p in s.chans[c].offered && PacketOf(s, b) !in s.chans[c].offered
    ensures p.id < b
  {
    assert Books(s, c);
    assert Genuine(s, s.chans[c].job, p);
    hide Ledger;
    if p.id > b { LatestOnly(s, b, p.id); }
  }

  /** An undisturbed broadcast has not offered its message to its next target before. */
  lemma NotYetOffered(s: State, b: nat, c: nat)
    requires Ledger(s) && b < |s.casts| && Unfinished(s.casts[b]) && !s.casts[b].disturbed && c == Target(s, b)
    ensures PacketOf(s, b) !in s.chans[c].offered
  {
    UndisturbedTarget(s, b);
    assert SnapOk(s, b) && OfferedOnce(s, b, c);
  }

  lemma HypothesesBackwards(s: State, e: Event, job: int)
    requires WellFormed(s)
    ensures Undisturbed(Step(s, e), job) ==> Undisturbed(s, job)
    ensures Serial(Step(s, e), job) ==> Serial(s, job)
  {
    forall b | 0 <= b < |s.casts|
      ensures b < |Step(s, e).casts| && Step(s, e).casts[b].job == s.casts[b].job
      ensures (s.casts[b].disturbed ==> Step(s, e).casts[b].disturbed) && Step(s, e).casts[b].alone == s.casts[b].alone
    { StepOnCast(s, e, b); }
  }

  lemma {:induction false} SerialRunsInOrder(es: seq<Event>, c: nat)
    requires c < |Exec(es).chans|
    requires var s := Exec(es); Undisturbed(s, s.chans[c].job) && Serial(s, s.chans[c].job)
    ensures InOrder(Exec(es).chans[c].offered)
  {
    var init, e := es[..|es| - 1], es[|es| - 1];
    var s := Exec(init);
    ExecLedger(init);
    StepGrows(s, e);
    if c < |s.chans| {
      StepOnChan(s, e, c);
      HypothesesBackwards(s, e, s.chans[c].job);
      SerialRunsInOrder(init, c);
      StepKeepsOrder(s, e, c);
    } else {
      NewIsEmpty(s, e);
    }
  }

  lemma LastAgree(a: seq<Packet>, b: seq<Packet>)
    requires InOrder(a) && InOrder(b) && |a| == |b| > 0
    requires forall p :: p in a <==> p in b
    ensures a[|a| - 1] == b[|b| - 1]
  {
    assert a[|a| - 1] in b && b[|b| - 1] in a;
  }

  /** Sequences in order with the same elements are the same. */
  lemma {:induction false} SortedUnique(a: seq<Packet>, b: seq<Packet>)
    requires InOrder(a) && InOrder(b) && multiset(a) == multiset(b)
    ensures a == b
  {
    hide InOrder;
    MembersAgree(a, b);
    if a != [] {
      var n := |a| - 1;
      LastAgree(a, b);
      DropLast(a);
      DropLast(b);
      SortedUnique(a[..n], b[..n]);
    }
  }

  lemma MembersAgree(a: seq<Packet>, b: seq<Packet>)
    requires multiset(a) == multiset(b)
    ensures |a| == |b| && forall p :: p in a <==> p in b
  {
    assert |a| == |multiset(a)| && |b| == |multiset(b)|;
    forall p ensures p in a <==> p in b { assert p in a <==> p in multiset(a); }
  }

  lemma DropLast(a: seq<Packet>)
    requires a != []
    ensures a == a[..|a| - 1] + [a[|a| - 1]]
    ensures multiset(a[..|a| - 1]) == multiset(a) - multiset{a[|a| - 1]}
    ensures InOrder(a) ==> InOrder(a[..|a| - 1])
  {
    assert a == a[..|a| - 1] + [a[|a| - 1]];
  }

  /** The main delivery result.  In every run in which nobody left the job of `c` during a
      broadcast to it and no two such broadcasts overlapped, the subscriber has been offered
      exactly the messages that reached it, in broadcast order; when none is under way these
      are all broadcasts of its time.  What it accepted, received first and queued last, is a
      subsequence of them, so nothing is duplicated or reordered. */
  lemma SerialDelivery(es: seq<Event>, c: nat)
    requires c < |Exec(es).chans|
    requires var s := Exec(es); Undisturbed(s, s.chans[c].job) && Serial(s, s.chans[c].job)
    ensures var s, k := Exec(es), Exec(es).chans[c];
      && k.offered == Reached(s, c, |s.casts|)
      && (Quiescent(s, k.job) ==> k.offered == Window(s, c, |s.casts|))
      && k.received + k.queue == k.accepted && Subsequence(k.received + k.queue, k.offered)
      && InOrder(k.received + k.queue)
      && |k.queue| <= QUEUE_LIMIT
  {
    ExecLedger(es);
    var s, k := Exec(es), Exec(es).chans[c];
    SerialRunsInOrder(es, c);
    SameMessages(s, c);
    ReachedInOrder(s, c, |s.casts|);
    SortedUnique(k.offered, Reached(s, c, |s.casts|));
    if Quiescent(s, k.job) { ReachedIsWindow(s, c, |s.casts|); }
    assert Books(s, c);
    SubsequenceInOrder(k.accepted, k.offered);
  }

  lemma {:induction false} SubsequenceInOrder(a: seq<Packet>, b: seq<Packet>)
    requires Subsequence(a, b) && InOrder(b)
    ensures InOrder(a) && forall p :: p in a ==> p in b
  {
    if a != [] {
      var b' := b[..|b| - 1];
      if Subsequence(a, b') {
        SubsequenceInOrder(a, b');
      } else {
        var a' := a[..|a| - 1];
        SubsequenceInOrder(a', b');
        assert forall i :: 0 <= i < |a'| ==> a'[i] in b';
        assert forall i :: 0 <= i < |a'| ==> a[i] == a'[i];
      }
    }
  }

  // ---------------------------------------------------------------- when nothing is lost

  lemma StepAccepts(s: State, e: Event, c: nat)
    requires WellFormed(s) && c < |s.chans| && s.chans[c].accepted == s.chans[c].offered
    requires Delivers(s, e, c) ==> |s.chans[c].queue| < QUEUE_LIMIT
    ensures c < |Step(s, e).chans| && Step(s, e).chans[c].accepted == Step(s, e).chans[c].offered
  {
    hide Step;
    StepOnQueue(s, e, c);
  }

  /** A subscriber whose queue held fewer than 50 messages at every send to it has accepted
      everything it was offered. */
  lemma {:induction false} NothingDropped(es: seq<Event>, c: nat)
    requires c < |Exec(es).chans|
    requires forall k :: 0 <= k < |es| && c < |Exec(es[..k]).chans| && Delivers(Exec(es[..k]), es[k], c) ==>
      |Exec(es[..k]).chans[c].queue| < QUEUE_LIMIT
    ensures Exec(es).chans[c].accepted == Exec(es).chans[c].offered
  {
    hide Step;
    var n := |es| - 1;
    var init, e := es[..n], es[n];
    StepGrows(Exec(init), e);
    if c < |Exec(init).chans| {
      forall k | 0 <= k < n && c < |Exec(init[..k]).chans| && Delivers(Exec(init[..k]), init[k], c)
        ensures |Exec(init[..k]).chans[c].queue| < QUEUE_LIMIT
      {
        assert init[..k] == es[..k];
      }
      NothingDropped(init, c);
      hide Exec, Delivers;
      StepAccepts(Exec(init), e, c) by { assert init == es[..n]; }
    } else {
      NewIsEmpty(Exec(init), e);
    }
  }
}
