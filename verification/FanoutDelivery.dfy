/** What each subscriber is offered, accepts and receives over a whole run. */
module FanoutDelivery {
  import opened Values
  import opened Fanout
  import opened FanoutSafety

  // ---------------------------------------------------------------- bookkeeping

  /** `a` is `b` with some elements left out. */
  ghost predicate Subsequence<T>(a: seq<T>, b: seq<T>) {
    || a == []
    || (b != [] && (|| Subsequence(a, b[..|b| - 1])
                    || (a[|a| - 1] == b[|b| - 1] && Subsequence(a[..|a| - 1], b[..|b| - 1]))))
  }

  /** An unfinished broadcast sees and holds only channels of its own job. */
  ghost predicate SeesOwnJob(s: State, b: nat)
    requires WellFormed(s) && b < |s.casts|
  {
    var k := s.casts[b];
    Unfinished(k) ==>
      && (forall i :: 0 <= i < k.view.len ==> s.chans[s.arrays[k.view.arr].cells[i]].job == k.job)
      && (k.held.Some? ==> s.chans[k.held.value].job == k.job)
  }

  /** The packet is the message of a broadcast to `job`. */
  ghost predicate Genuine(s: State, job: int, p: Packet) {
    p.id < |s.casts| && s.casts[p.id].job == job && p == PacketOf(s, p.id)
  }

  /** Accepted messages are the received ones followed by the queued ones, at most 50 are
      queued, and they are among the messages offered. */
  ghost predicate Books(s: State, c: nat)
    requires c < |s.chans|
  {
    var k := s.chans[c];
    && k.accepted == k.received + k.queue
    && |k.queue| <= QUEUE_LIMIT
    && Subsequence(k.accepted, k.offered)
    && forall p :: p in k.offered ==> Genuine(s, k.job, p)
  }

  /** A broadcast that was alone at its snapshot started after all earlier ones to its job. */
  ghost predicate AfterOthers(s: State, b: nat)
    requires b < |s.casts|
  {
    s.casts[b].alone ==>
      forall a :: 0 <= a < b && s.casts[a].job == s.casts[b].job ==> !Unfinished(s.casts[a])
  }

  /** An undisturbed broadcast has been offered once to each subscriber of its snapshot that
      its iteration has passed, and to nobody else. */
  ghost predicate OfferedOnce(s: State, b: nat, c: nat)
    requires b < |s.casts| && c < |s.chans|
  {
    var k := s.casts[b];
    !k.disturbed && k.next <= |k.snap| ==>
      multiset(s.chans[c].offered)[PacketOf(s, b)] == if c in k.snap[..k.next] then 1 else 0
  }

  ghost predicate Ledger(s: State) {
    && Inv(s)
    && (forall b :: 0 <= b < |s.casts| ==> SeesOwnJob(s, b) && AfterOthers(s, b))
    && (forall c :: 0 <= c < |s.chans| ==> Books(s, c))
    && (forall b, c :: 0 <= b < |s.casts| && 0 <= c < |s.chans| ==> OfferedOnce(s, b, c))
  }

  // ---------------------------------------------------------------- every step keeps it

  lemma StepSeesOwnJob(s: State, e: Event, b: nat)
    requires Ledger(s) && b < |Step(s, e).casts|
    ensures SeesOwnJob(Step(s, e), b)
  {
    assert Inv(s) && WellFormed(s) && (b < |s.casts| ==> SeesOwnJob(s, b) && FlightOk(s, b));
    assert forall job :: job in s.subs ==> ListOk(s, job);
    hide Ledger, Inv, SeesOwnJob, ListOk, FlightOk, WellFormed, Found;
    if s.fault == NoFault {
      match e
      case Subscribe(job, room) => SubscribeKeepsJob(s, job, room, b);
      case Unsubscribe(ch) => if ch < |s.chans| { LeaveKeepsJob(s, ch, b); }
      case Snapshot(job, text) =>
        if b < |s.casts| { SnapshotKeepsJob(s, job, text, b); } else { NewSeesOwnJob(s, job, text); }
      case Load(x) => if MayLoad(s, x) { LoadKeepsJob(s, x, b); }
      case Send(x) => if MaySend(s, x) { SendKeepsJob(s, x, b); }
      case Receive(ch) => if ch < |s.chans| { ReceiveKeepsJob(s, ch, b); }
    }
  }

  lemma SnapshotKeepsJob(s: State, job: int, text: string, b: nat)
    requires WellFormed(s) && b < |s.casts| && SeesOwnJob(s, b)
    ensures SeesOwnJob(DoSnapshot(s, job, text), b)
  {}

  lemma SendKeepsJob(s: State, x: nat, b: nat)
    requires WellFormed(s) && MaySend(s, x) && b < |s.casts| && SeesOwnJob(s, b)
    ensures b < |DoSend(s, x).casts| && SeesOwnJob(DoSend(s, x), b)
  {}

  lemma ReceiveKeepsJob(s: State, ch: nat, b: nat)
    requires WellFormed(s) && ch < |s.chans| && b < |s.casts| && SeesOwnJob(s, b)
    ensures SeesOwnJob(DoReceive(s, ch), b)
  {}

  lemma LeaveKeepsJob(s: State, ch: nat, b: nat)
    requires Inv(s) && s.fault == NoFault && ch < |s.chans| && b < |s.casts| && SeesOwnJob(s, b) && FlightOk(s, b)
    ensures SeesOwnJob(DoUnsubscribe(s, ch), b)
  {
    if Found(s, ch) {
      FoundIsOpen(s, ch);
      assert ListOk(s, s.chans[ch].job);
      hide Inv;
      ShiftKeepsJob(s, ch, b);
    }
  }

  lemma NewSeesOwnJob(s: State, job: int, text: string)
    requires Inv(s)
    ensures SeesOwnJob(DoSnapshot(s, job, text), |s.casts|)
  {
    if job in s.subs {
      assert ListOk(s, job);
      hide Inv;
      ListJobs(s, job);
    }
  }

  lemma SubscribeKeepsJob(s: State, job: int, room: nat, b: nat)
    requires WellFormed(s) && b < |s.casts| && FlightOk(s, b) && SeesOwnJob(s, b)
    requires job in s.subs ==> ListOk(s, job)
    ensures SeesOwnJob(DoSubscribe(s, job, room), b)
  {}

  lemma LoadKeepsJob(s: State, x: nat, b: nat)
    requires WellFormed(s) && MayLoad(s, x) && b < |s.casts| && SeesOwnJob(s, b)
    ensures SeesOwnJob(DoLoad(s, x), b)
  {}

  lemma ListJobs(s: State, job: int)
    requires WellFormed(s) && job in s.subs && ListOk(s, job)
    ensures forall i :: 0 <= i < s.subs[job].len ==> s.chans[s.arrays[s.subs[job].arr].cells[i]].job == job
  {
    forall i | 0 <= i < s.subs[job].len ensures s.chans[s.arrays[s.subs[job].arr].cells[i]].job == job {
      assert Items(s, s.subs[job])[i] == s.arrays[s.subs[job].arr].cells[i];
    }
  }

  lemma ShiftKeepsJob(s: State, ch: nat, b: nat)
    requires WellFormed(s) && ch < |s.chans| && Found(s, ch) && b < |s.casts| && s.chans[ch].job in s.subs
    requires ListOk(s, s.chans[ch].job) && FlightOk(s, b) && SeesOwnJob(s, b)
    ensures SeesOwnJob(DoUnsubscribe(s, ch), b)
  {
    ListJobs(s, s.chans[ch].job);
  }

  lemma StepAfterOthers(s: State, e: Event, b: nat)
    requires Ledger(s) && b < |Step(s, e).casts|
    ensures AfterOthers(Step(s, e), b)
  {
    var r := Step(s, e);
    if b < |s.casts| {
      assert AfterOthers(s, b);
      StepOnCast(s, e, b);
    }
    forall a | 0 <= a < b && r.casts[a].job == r.casts[b].job && r.casts[b].alone
      ensures !Unfinished(r.casts[a])
    {
      StepGrows(s, e);
      StepOnCast(s, e, a);
    }
  }

  /** The channel a send reaches belongs to the job of the broadcast. */
  lemma TargetJob(s: State, b: nat)
    requires Ledger(s) && b < |s.casts| && Unfinished(s.casts[b])
    ensures s.chans[Target(s, b)].job == s.casts[b].job
  {
    assert SeesOwnJob(s, b);
  }

  /** What a step does to the queue and history of one channel. */
  ghost predicate Delivers(s: State, e: Event, c: nat)
    requires WellFormed(s) && c < |s.chans|
  {
    && s.fault == NoFault && e.Send? && MaySend(s, e.cast)
    && Target(s, e.cast) == c && !s.chans[c].closed
  }

  /** The channel is untouched or its consumer took the oldest message. */
  ghost predicate Consumes(k: Chan, r: Chan) {
    && r.offered == k.offered && r.accepted == k.accepted
    && (|| (r.queue == k.queue && r.received == k.received)
        || (k.queue != [] && r.queue == k.queue[1..] && r.received == k.received + [k.queue[0]]))
  }

  lemma StepOnQueue(s: State, e: Event, c: nat)
    requires WellFormed(s) && c < |s.chans|
    ensures c < |Step(s, e).chans|
    ensures var k, r := s.chans[c], Step(s, e).chans[c];
      if Delivers(s, e, c) then r == Offer(k, PacketOf(s, e.cast)) else Consumes(k, r)
  {}

  lemma StepGenuine(s: State, e: Event, job: int, p: Packet)
    requires WellFormed(s) && Genuine(s, job, p)
    ensures Genuine(Step(s, e), job, p)
  {
    StepOnCast(s, e, p.id);
  }

  lemma StepBooks(s: State, e: Event, c: nat)
    requires Ledger(s) && c < |s.chans|
    ensures c < |Step(s, e).chans| && Books(Step(s, e), c)
  {
    assert Books(s, c);
    var k, r := s.chans[c], Step(s, e);
    if Delivers(s, e, c) { TargetJob(s, e.cast); }
    hide Step, Ledger, Subsequence;
    StepOnQueue(s, e, c);
    StepOnChan(s, e, c);
    BooksStep(k, r.chans[c], if Delivers(s, e, c) then [PacketOf(s, e.cast)] else []);
    forall p | p in r.chans[c].offered ensures Genuine(r, k.job, p) {
      if p !in k.offered { assert p == PacketOf(s, e.cast); assert Genuine(s, k.job, p); }
      StepGenuine(s, e, k.job, p);
    }
  }

  /** The accounting of one channel over an offer, a receive or no change. */
  lemma BooksStep(k: Chan, r: Chan, ps: seq<Packet>)
    requires k.accepted == k.received + k.queue && |k.queue| <= QUEUE_LIMIT && Subsequence(k.accepted, k.offered)
    requires |ps| <= 1
    requires ps != [] ==> r == Offer(k, ps[0])
    requires ps == [] ==> Consumes(k, r)
    ensures r.accepted == r.received + r.queue && |r.queue| <= QUEUE_LIMIT && Subsequence(r.accepted, r.offered)
  {
    if ps != [] {
      assert r.offered[..|r.offered| - 1] == k.offered;
      if |k.queue| < QUEUE_LIMIT { assert r.accepted[..|r.accepted| - 1] == k.accepted; }
    }
  }

  lemma CountSnoc(offered: seq<Packet>, q: Packet, p: Packet)
    ensures multiset(offered + [q])[p] == multiset(offered)[p] + if q == p then 1 else 0
  {}

  lemma PassedSnoc(snap: seq<nat>, k: nat, c: nat)
    requires k < |snap| && Distinct(snap)
    ensures c in snap[..k + 1] <==> c in snap[..k] || c == snap[k]
    ensures snap[k] !in snap[..k]
  {
    assert snap[..k + 1] == snap[..k] + [snap[k]];
  }

  lemma OnceMore(snap: seq<nat>, k: nat, c: nat, before: seq<Packet>, after: seq<Packet>, p: Packet)
    requires k < |snap| && Distinct(snap)
    requires multiset(before)[p] == if c in snap[..k] then 1 else 0
    requires after == if c == snap[k] then before + [p] else before
    ensures multiset(after)[p] == if c in snap[..k + 1] then 1 else 0
  {
    PassedSnoc(snap, k, c);
    CountSnoc(before, p, p);
  }

  /** The step is a send of broadcast `b`. */
  lemma OwnSendOfferedOnce(s: State, b: nat, c: nat)
    requires Inv(s) && s.fault == NoFault && MaySend(s, b) && c < |s.chans| && OfferedOnce(s, b, c)
    requires !s.chans[Target(s, b)].closed
    ensures b < |Step(s, Send(b)).casts| && c < |Step(s, Send(b)).chans| && OfferedOnce(Step(s, Send(b)), b, c)
  {
    var d := Target(s, b);
    SendIs(s, b);
    var r := Step(s, Send(b));
    assert r.casts == s.casts[b := s.casts[b].(next := s.casts[b].next + 1, held := None)];
    assert r.chans == s.chans[d := Offer(s.chans[d], PacketOf(s, b))];
    if s.casts[b].disturbed {
      hide *;
      DisturbedOnce(r, b, c);
    } else {
      UndisturbedTarget(s, b);
      SnapDistinct(s, b);
      hide *;
      SentOnce(s, r, b, c, s.casts[b].snap, s.casts[b].next, d);
    }
  }

  lemma DisturbedOnce(s: State, b: nat, c: nat)
    requires b < |s.casts| && c < |s.chans| && s.casts[b].disturbed
    ensures OfferedOnce(s, b, c)
  {}

  lemma SentOnce(s: State, r: State, b: nat, c: nat, snap: seq<nat>, k: nat, d: nat)
    requires b < |s.casts| && c < |s.chans| && OfferedOnce(s, b, c) && k < |snap| && d == snap[k] < |s.chans|
    requires Distinct(snap)
    requires s.casts[b].snap == snap && s.casts[b].next == k && !s.casts[b].disturbed
    requires r.casts == s.casts[b := s.casts[b].(next := k + 1, held := None)]
    requires r.chans == s.chans[d := Offer(s.chans[d], PacketOf(s, b))]
    ensures OfferedOnce(r, b, c)
  {
    OnceMore(snap, k, c, s.chans[c].offered, r.chans[c].offered, PacketOf(s, b));
  }

  /** The step is no send of broadcast `b`. */
  lemma OtherStepOfferedOnce(s: State, e: Event, b: nat, c: nat)
    requires Inv(s) && b < |s.casts| && c < |s.chans| && OfferedOnce(s, b, c)
    requires e != Send(b) || s.fault != NoFault || !MaySend(s, b) || s.chans[Target(s, b)].closed
    ensures b < |Step(s, e).casts| && c < |Step(s, e).chans| && OfferedOnce(Step(s, e), b, c)
  {
    assert WellFormed(s);
    hide Step, Disturbs, Inv;
    StepOnQueue(s, e, c);
    StepOnCast(s, e, b);
    NextAfter(s, e, b);
    if Delivers(s, e, c) { CountSnoc(s.chans[c].offered, PacketOf(s, e.cast), PacketOf(s, b)); }
  }

  lemma StepOfferedOnce(s: State, e: Event, b: nat, c: nat)
    requires Ledger(s) && b < |s.casts| && c < |s.chans|
    ensures b < |Step(s, e).casts| && c < |Step(s, e).chans| && OfferedOnce(Step(s, e), b, c)
  {
    assert OfferedOnce(s, b, c) && Inv(s);
    if e == Send(b) && s.fault == NoFault && MaySend(s, b) && !s.chans[Target(s, b)].closed {
      OwnSendOfferedOnce(s, b, c);
    } else {
      OtherStepOfferedOnce(s, e, b, c);
    }
  }

  lemma NextAfter(s: State, e: Event, b: nat)
    requires WellFormed(s) && b < |s.casts|
    ensures b < |Step(s, e).casts|
    ensures var moves := s.fault == NoFault && e == Send(b) && MaySend(s, b) && !s.chans[Target(s, b)].closed;
      Step(s, e).casts[b].next == s.casts[b].next + if moves then 1 else 0
  {}

  lemma LoadIs(t: State, b: nat)
    requires WellFormed(t) && t.fault == NoFault && MayLoad(t, b)
    ensures Step(t, Load(b)) == t.(casts := t.casts[b := t.casts[b].(held := Some(Target(t, b)))])
  {}

  lemma PanicIs(t: State, b: nat)
    requires WellFormed(t) && t.fault == NoFault && MaySend(t, b) && t.chans[Target(t, b)].closed
    ensures Step(t, Send(b)) == t.(fault := SendOnClosed(b, Target(t, b)))
  {}

  lemma SendIs(t: State, b: nat)
    requires WellFormed(t) && t.fault == NoFault && MaySend(t, b) && !t.chans[Target(t, b)].closed
    ensures Step(t, Send(b)) == t.(chans := t.chans[Target(t, b) := Offer(t.chans[Target(t, b)], PacketOf(t, b))],
                                   casts := t.casts[b := t.casts[b].(next := t.casts[b].next + 1, held := None)])
  {}

  /** A channel or broadcast that appears starts with nothing offered. */
  lemma NewIsEmpty(s: State, e: Event)
    requires WellFormed(s)
    ensures var r := Step(s, e);
      && (|r.chans| > |s.chans| ==> var k := r.chans[|s.chans|]; k.offered == k.accepted == k.received == k.queue == [])
      && (|r.casts| > |s.casts| ==> r.casts[|s.casts|].next == 0)
  {}

  lemma StepNewOnce(s: State, e: Event, b: nat, c: nat)
    requires Ledger(s) && b < |Step(s, e).casts| && c < |Step(s, e).chans|
    requires b >= |s.casts| || c >= |s.chans|
    ensures OfferedOnce(Step(s, e), b, c)
  {
    var r := Step(s, e);
    StepGrows(s, e);
    NewIsEmpty(s, e);
    if c < |s.chans| {
      assert Books(s, c);
      StepOnQueue(s, e, c);
      assert !Delivers(s, e, c);
      assert PacketOf(r, b) !in s.chans[c].offered;
    } else if b < |s.casts| {
      StepOnCast(s, e, b);
      assert SnapOk(s, b);
      assert c !in s.casts[b].snap;
      assert forall i :: 0 <= i < |r.casts[b].snap| ==> r.casts[b].snap[i] in s.casts[b].snap;
    }
  }

  lemma StepNewBooks(s: State, e: Event, c: nat)
    requires Ledger(s) && |s.chans| <= c < |Step(s, e).chans|
    ensures Books(Step(s, e), c)
  {
    NewIsEmpty(s, e);
    StepGrows(s, e);
  }

  lemma StepKeepsLedger(s: State, e: Event)
    requires Ledger(s)
    ensures Ledger(Step(s, e))
  {
    var r := Step(s, e);
    hide Step, Inv, SeesOwnJob, AfterOthers, Books, OfferedOnce;
    StepKeepsInv(s, e);
    forall b | 0 <= b < |r.casts| ensures SeesOwnJob(r, b) && AfterOthers(r, b) {
      StepSeesOwnJob(s, e, b);
      StepAfterOthers(s, e, b);
    }
    forall c | 0 <= c < |r.chans| ensures Books(r, c) {
      if c < |s.chans| { StepBooks(s, e, c); } else { StepNewBooks(s, e, c); }
    }
    forall b, c | 0 <= b < |r.casts| && 0 <= c < |r.chans| ensures OfferedOnce(r, b, c) {
      if b < |s.casts| && c < |s.chans| { StepOfferedOnce(s, e, b, c); } else { StepNewOnce(s, e, b, c); }
    }
  }

  lemma {:induction false} ExecLedger(es: seq<Event>)
    ensures Ledger(Exec(es))
  {
    if es != [] {
      ExecLedger(es[..|es| - 1]);
      StepKeepsLedger(Exec(es[..|es| - 1]), es[|es| - 1]);
    }
  }
}
